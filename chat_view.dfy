/**
 * The message-list rules of the chat view (src/components/ChatMain.tsx):
 * when a time divider shows, when a message joins the group above it, and
 * which relative-time bucket a timestamp falls in. Times are milliseconds.
 */
module ChatView {
  import opened JsText

  /** The fields of a listed message that the rules read. */
  datatype ListedMessage = ListedMessage(id: string, content: string, isMe: bool, timestampMs: int)

  const DividerGapMs := 5 * 60 * 1000
  const GroupGapMs := 2 * 60 * 1000

  function Gap(messages: seq<ListedMessage>, index: nat): int
    requires 0 < index < |messages|
  {
    messages[index].timestampMs - messages[index - 1].timestampMs
  }

  /** `shouldShowTimestamp`: always for the first message, else when the gap exceeds five minutes. */
  predicate ShowsTimestamp(messages: seq<ListedMessage>, index: nat): (b: bool)
    requires index < |messages|
    ensures index == 0 ==> b
    ensures index > 0 && messages[index].timestampMs <= messages[index - 1].timestampMs ==> !b
  {
    index == 0 || Gap(messages, index) > DividerGapMs
  }

  /** `shouldGroupMessage`: never the first message, else same side and a gap under two minutes. */
  predicate IsGrouped(messages: seq<ListedMessage>, index: nat): (b: bool)
    requires index < |messages|
    ensures b ==> index > 0 && messages[index].isMe == messages[index - 1].isMe
    ensures b ==> messages[index].timestampMs - messages[index - 1].timestampMs < GroupGapMs
  {
    index != 0 && messages[index].isMe == messages[index - 1].isMe && Gap(messages, index) < GroupGapMs
  }

  /** A grouped message never also starts with a divider. */
  lemma GroupedHasNoDivider(messages: seq<ListedMessage>, index: nat)
    requires index < |messages|
    ensures IsGrouped(messages, index) ==> !ShowsTimestamp(messages, index)
  {
  }

  /**
   * Every message of a run of grouped messages is on the same side as the
   * message that opens the run, and lies within two minutes per step of it.
   */
  lemma {:induction false} GroupSharesSide(messages: seq<ListedMessage>, first: nat, last: nat)
    requires first <= last < |messages|
    requires forall k :: first < k <= last ==> IsGrouped(messages, k)
    ensures messages[last].isMe == messages[first].isMe
    ensures messages[last].timestampMs - messages[first].timestampMs < GroupGapMs * (last - first) + 1
  {
    if last > first {
      GroupSharesSide(messages, first, last - 1);
      assert IsGrouped(messages, last);
    }
  }

  // ------------------------------------------------------------ relative time

  datatype RelativeTime = JustNow | MinutesAgo(minutes: nat) | HoursAgo(hours: nat) | LocaleDate

  /** `Math.floor((now - timestamp) / 1000)`; Euclidean division by a positive divisor is the floor. */
  function ElapsedSeconds(nowMs: int, timestampMs: int): int {
    (nowMs - timestampMs) / 1000
  }

  /** The bucket `formatRelativeTime` picks for an elapsed number of seconds. */
  function Bucket(elapsed: int): (r: RelativeTime)
    ensures r == JustNow <==> elapsed < 60
    ensures r.MinutesAgo? <==> 60 <= elapsed < 3600
    ensures r.HoursAgo? <==> 3600 <= elapsed < 86400
    ensures r == LocaleDate <==> elapsed >= 86400
    ensures r.MinutesAgo? ==> 1 <= r.minutes < 60 && r.minutes * 60 <= elapsed < (r.minutes + 1) * 60
    ensures r.HoursAgo? ==> 1 <= r.hours < 24 && r.hours * 3600 <= elapsed < (r.hours + 1) * 3600
  {
    if elapsed < 60 then JustNow
    else if elapsed < 3600 then MinutesAgo(elapsed / 60)
    else if elapsed < 86400 then HoursAgo(elapsed / 3600)
    else LocaleDate
  }

  /** The label for a bucket; the locale date is rendered by the platform. */
  function Label(r: RelativeTime, localeDate: string): string {
    match r
    case JustNow => "just now"
    case MinutesAgo(n) => NatToString(n) + "m ago"
    case HoursAgo(n) => NatToString(n) + "h ago"
    case LocaleDate => localeDate
  }

  /** Apart from the locale date, which the platform renders, distinct buckets have distinct labels. */
  lemma LabelInjective(a: RelativeTime, b: RelativeTime, localeDate: string)
    requires !a.LocaleDate? && !b.LocaleDate?
    ensures Label(a, localeDate) == Label(b, localeDate) ==> a == b
  {
    var la, lb := Label(a, localeDate), Label(b, localeDate);
    assert la[|la| - 1] == (if a.JustNow? then 'w' else 'o');
    assert lb[|lb| - 1] == (if b.JustNow? then 'w' else 'o');
    if la == lb && !a.JustNow? && !b.JustNow? {
      var n := if a.MinutesAgo? then a.minutes else a.hours;
      var m := if b.MinutesAgo? then b.minutes else b.hours;
      assert la[|la| - 5] == (if a.MinutesAgo? then 'm' else 'h');
      assert lb[|lb| - 5] == (if b.MinutesAgo? then 'm' else 'h');
      assert la[..|la| - 5] == NatToString(n);
      assert lb[..|lb| - 5] == NatToString(m);
      NatToStringInjective(n, m);
    }
  }

  /** Buckets never move back as time passes: a later reading is at least as coarse. */
  lemma BucketMonotone(a: int, b: int)
    requires a <= b
    ensures Rank(Bucket(a)) <= Rank(Bucket(b))
    ensures Bucket(a).MinutesAgo? && Bucket(b).MinutesAgo? ==> Bucket(a).minutes <= Bucket(b).minutes
    ensures Bucket(a).HoursAgo? && Bucket(b).HoursAgo? ==> Bucket(a).hours <= Bucket(b).hours
  {
  }

  function Rank(r: RelativeTime): nat {
    match r
    case JustNow => 0
    case MinutesAgo(_) => 1
    case HoursAgo(_) => 2
    case LocaleDate => 3
  }
}
