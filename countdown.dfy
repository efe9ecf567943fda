/**
 * The home page's "next session in" countdown (src/app/page.tsx): which start
 * time comes next, and how the remaining time is written out. Time is the
 * number of milliseconds since local midnight; a day is 24 hours.
 */
module Countdown {
  import opened Wrappers
  import opened JsText
  import opened ApiClient
  import opened AccessControl

  const SecondMs: nat := 1000
  const MinuteMs: nat := 60 * SecondMs
  const HourMs: nat := 60 * MinuteMs
  const DayMs: nat := 24 * HourMs

  const StartingNow := "Starting now"
  const FallbackStartHour: nat := 20
  const FallbackEndHour: nat := 21

  /** `isOpen`: the page counts as open iff the user is signed in and may access. */
  predicate IsOpen(isAuthenticated: bool, canAccess: bool) {
    isAuthenticated && canAccess
  }

  // ------------------------------------------------------------ durations

  /** Whole hours, minutes and seconds of a number of seconds. */
  datatype Clock = Clock(hrs: nat, mins: nat, secs: nat)

  function Breakdown(totalSeconds: nat): (c: Clock)
    ensures c.mins < 60 && c.secs < 60
    ensures totalSeconds == c.hrs * 3600 + c.mins * 60 + c.secs
  {
    Clock(totalSeconds / 3600, (totalSeconds % 3600) / 60, totalSeconds % 60)
  }

  /** The parts pushed for a breakdown: hours iff non-zero, minutes iff hours or minutes are, seconds always. */
  function Parts(c: Clock): seq<string> {
    (if c.hrs != 0 then [NatToString(c.hrs) + "h"] else [])
    + (if c.hrs != 0 || c.mins != 0 then [NatToString(c.mins) + "m"] else [])
    + [NatToString(c.secs) + "s"]
  }

  /** The countdown text for a positive number of seconds. */
  function FormatDuration(totalSeconds: nat): (text: string)
    ensures |text| >= 2 && text[|text| - 1] == 's'
  {
    var parts := Parts(Breakdown(totalSeconds));
    JoinLast(parts, ' ');
    Join(parts, ' ')
  }

  lemma {:induction false} JoinLast(parts: seq<string>, sep: char)
    requires |parts| >= 1 && |parts[|parts| - 1]| >= 2
    ensures |Join(parts, sep)| >= |parts[|parts| - 1]|
    ensures Join(parts, sep)[|Join(parts, sep)| - 1] == parts[|parts| - 1][|parts[|parts| - 1]| - 1]
  {
    if |parts| > 1 {
      JoinLast(parts[1..], sep);
    }
  }

  /** One part read back: digits followed by the unit letter. */
  function ReadPart(p: string, unit: char): Option<nat> {
    if |p| >= 2 && p[|p| - 1] == unit && AllDigits(p[..|p| - 1]) then Some(ParseDigits(p[..|p| - 1])) else None
  }

  /** Reads a countdown text back into its breakdown: the partner of FormatDuration. */
  function ReadClock(text: string): Option<Clock> {
    ReadParts(Split(text, ' '))
  }

  /** Reads a countdown text back into seconds. */
  function ReadDuration(text: string): Option<nat> {
    var c := ReadClock(text);
    if c.Some? then Some(c.value.hrs * 3600 + c.value.mins * 60 + c.value.secs) else None
  }

  function ReadParts(parts: seq<string>): Option<Clock> {
    if |parts| == 1 then
      var s := ReadPart(parts[0], 's');
      if s.Some? && s.value < 60 then Some(Clock(0, 0, s.value)) else None
    else if |parts| == 2 then
      var m, s := ReadPart(parts[0], 'm'), ReadPart(parts[1], 's');
      if m.Some? && s.Some? && 0 < m.value < 60 && s.value < 60 then Some(Clock(0, m.value, s.value)) else None
    else if |parts| == 3 then
      var h, m, s := ReadPart(parts[0], 'h'), ReadPart(parts[1], 'm'), ReadPart(parts[2], 's');
      if h.Some? && m.Some? && s.Some? && h.value > 0 && m.value < 60 && s.value < 60 then
        Some(Clock(h.value, m.value, s.value))
      else None
    else None
  }

  lemma ReadUnitPart(n: nat, unit: char)
    requires !IsDigit(unit) && unit != ' '
    ensures ReadPart(NatToString(n) + [unit], unit) == Some(n)
    ensures ' ' !in NatToString(n) + [unit]
  {
    var p := NatToString(n) + [unit];
    assert p[..|p| - 1] == NatToString(n);
    ParseNatToString(n);
  }

  /** Reading the parts of a breakdown gives the breakdown back. */
  lemma ReadClockParts(c: Clock)
    requires c.mins < 60 && c.secs < 60
    ensures ReadClock(Join(Parts(c), ' ')) == Some(c)
  {
    var hp, mp, sp := NatToString(c.hrs) + "h", NatToString(c.mins) + "m", NatToString(c.secs) + "s";
    ReadUnitPart(c.hrs, 'h');
    ReadUnitPart(c.mins, 'm');
    ReadUnitPart(c.secs, 's');
    var parts := Parts(c);
    if c.hrs != 0 {
      assert parts == [hp, mp, sp];
    } else if c.mins != 0 {
      assert parts == [mp, sp];
    } else {
      assert parts == [sp];
    }
    SplitJoin(parts, ' ');
  }

  /** The text names the duration exactly: reading it back gives the seconds again. */
  lemma {:induction false} DurationRoundTrip(totalSeconds: nat)
    ensures ReadClock(FormatDuration(totalSeconds)) == Some(Breakdown(totalSeconds))
    ensures ReadDuration(FormatDuration(totalSeconds)) == Some(totalSeconds)
  {
    ReadClockParts(Breakdown(totalSeconds));
  }

  /** Distinct durations give distinct texts. */
  lemma DurationInjective(a: nat, b: nat)
    ensures FormatDuration(a) == FormatDuration(b) ==> a == b
  {
    DurationRoundTrip(a);
    DurationRoundTrip(b);
  }

  // ------------------------------------------------------------ window times

  /** A value of `Number(...)` restricted to what a clock field can give: a whole number or NaN. */
  datatype JsNumber = Num(n: nat) | NaN

  /** `Number(s)`: surrounding white space is ignored and the empty string is 0. */
  function NumberOf(s: string): (v: JsNumber)
    ensures AllDigits(s) && s != [] ==> v == Num(ParseDigits(s))
    ensures AllWhitespace(s) ==> v == Num(0)
  {
    assert AllDigits(s) ==> Trim(s) == s by { if AllDigits(s) { TrimDigits(s); } }
    var t := Trim(s);
    if t == [] then Num(0) else if AllDigits(t) then Num(ParseDigits(t)) else NaN
  }

  /** `"HH:MM".split(':').map(Number)`; a missing minute is `undefined`, which behaves as NaN. */
  function ClockOf(s: string): (c: (JsNumber, JsNumber))
    ensures ':' !in s ==> c == (NumberOf(s), NaN)
  {
    assert ':' !in s ==> Split(s, ':') == [s] by { if ':' !in s { SplitWithoutSeparator(s, ':'); } }
    var parts := Split(s, ':');
    (NumberOf(parts[0]), if |parts| >= 2 then NumberOf(parts[1]) else NaN)
  }

  /** The rendering of a clock time reads back as that time. */
  lemma ClockRoundTrip(h: nat, m: nat)
    ensures ClockOf(NatToString(h) + ":" + NatToString(m)) == (Num(h), Num(m))
  {
    var hs, ms := NatToString(h), NatToString(m);
    assert ':' !in hs && ':' !in ms by {
      assert forall i :: 0 <= i < |hs| ==> IsDigit(hs[i]);
      assert forall i :: 0 <= i < |ms| ==> IsDigit(ms[i]);
    }
    assert Join([hs, ms], ':') == hs + ":" + ms;
    SplitJoin([hs, ms], ':');
    ParseNatToString(h);
    ParseNatToString(m);
  }

  /** The window strings the page uses, when both are present and non-empty. */
  function WindowOf(data: Option<AccessView>): (w: Option<(string, string)>)
    ensures w.Some? ==> w.value.0 != [] && w.value.1 != []
  {
    match data
    case Some(Checked(r)) =>
      if r.windowStart.Some? && r.windowStart.value != [] && r.windowEnd.Some? && r.windowEnd.value != [] then
        Some((r.windowStart.value, r.windowEnd.value))
      else None
    case Some(ErrorBody(body)) =>
      var st, en := Field(Some(body), "window_start"), Field(Some(body), "window_end");
      if st.Some? && st.value.JStr? && st.value.s != [] && en.Some? && en.value.JStr? && en.value.s != [] then
        Some((st.value.s, en.value.s))
      else None
    case _ => None
  }

  function HourOf(now: nat): nat { now / HourMs }
  function MinuteOf(now: nat): nat { (now % HourMs) / MinuteMs }

  /** The window for today has ended: the hour is past the end hour, or it is the end hour at or past the end minute. */
  predicate PastEnd(now: nat, endHour: JsNumber, endMin: JsNumber): (b: bool)
    ensures endHour.NaN? ==> !b
    ensures endMin.NaN? ==> (b <==> endHour.Num? && HourOf(now) > endHour.n)
  {
    endHour.Num? &&
    (HourOf(now) > endHour.n || (HourOf(now) == endHour.n && endMin.Num? && MinuteOf(now) >= endMin.n))
  }

  /** `nextStart.getTime() - now.getTime()`; None is the NaN of an invalid date. */
  function UntilStart(now: nat, start: (JsNumber, JsNumber), end: (JsNumber, JsNumber)): (r: Option<int>)
    ensures r.None? <==> start.0.NaN? || start.1.NaN?
    ensures r.Some? && PastEnd(now, end.0, end.1) && now < DayMs ==> r.value > 0
    ensures r.Some? ==> (now + r.value) % MinuteMs == 0
  {
    if start.0.NaN? || start.1.NaN? then None
    else
      var day := if PastEnd(now, end.0, end.1) then DayMs else 0;
      Some(day + start.0.n * HourMs + start.1.n * MinuteMs - now)
  }

  /** The text for a delay: NaN leaves only the `NaNs` part, a delay not in the future starts now. */
  function DelayText(msUntil: Option<int>): (text: string)
    ensures msUntil.None? ==> text == "NaNs"
    ensures msUntil.Some? && msUntil.value > 0 ==> text == FormatDuration(msUntil.value / SecondMs)
    ensures text == StartingNow <==> msUntil.Some? && msUntil.value <= 0
  {
    match msUntil
    case None => "NaNs"
    case Some(d) =>
      if d <= 0 then StartingNow
      else
        var text := FormatDuration(d / SecondMs);
        assert text[|text| - 1] != StartingNow[|StartingNow| - 1];
        text
  }

  /** The fallback: 20:00 today, or tomorrow once the hour is 21 or later. */
  function FallbackUntil(now: nat): (r: int)
    ensures now < DayMs ==> -(HourMs as int) < r < DayMs
    ensures now < DayMs ==> (now + r) % DayMs == FallbackStartHour * HourMs
  {
    (if HourOf(now) >= FallbackEndHour then DayMs else 0) + FallbackStartHour * HourMs - now
  }

  /** `countdown`. */
  function CountdownText(isAuthenticated: bool, canAccess: bool, data: Option<AccessView>, now: nat): (text: string)
    requires now < DayMs
    ensures IsOpen(isAuthenticated, canAccess) ==> text == StartingNow
    ensures !IsOpen(isAuthenticated, canAccess) && WindowOf(data).None? ==>
      text == DelayText(Some(FallbackUntil(now)))
    ensures !IsOpen(isAuthenticated, canAccess) && WindowOf(data).Some? ==>
      text == DelayText(UntilStart(now, ClockOf(WindowOf(data).value.0), ClockOf(WindowOf(data).value.1)))
  {
    if IsOpen(isAuthenticated, canAccess) then StartingNow
    else match WindowOf(data)
      case Some((ws, we)) => DelayText(UntilStart(now, ClockOf(ws), ClockOf(we)))
      case None => DelayText(Some(FallbackUntil(now)))
  }

  // ------------------------------------------------------------ properties

  /** Comparing hour and minute with the end time is comparing the instant with the end instant. */
  lemma PastEndIsAfterEnd(now: nat, eh: nat, em: nat)
    requires em < 60
    ensures PastEnd(now, Num(eh), Num(em)) <==> now >= eh * HourMs + em * MinuteMs
  {
    var h, r := now / HourMs, now % HourMs;
    assert now == h * HourMs + r && r < HourMs;
    var m := r / MinuteMs;
    assert r == m * MinuteMs + r % MinuteMs;
    assert MinuteOf(now) == m && HourOf(now) == h;
    if h > eh {
      assert h * HourMs >= (eh + 1) * HourMs;
    } else if h < eh {
      assert (h + 1) * HourMs <= eh * HourMs;
    } else {
      if m >= em {
        assert m * MinuteMs >= em * MinuteMs;
      } else {
        assert (m + 1) * MinuteMs <= em * MinuteMs;
      }
    }
  }

  /**
   * For a window of whole times within one day, starting before it ends, the
   * page says "Starting now" exactly while the instant lies inside the window;
   * otherwise the wait is positive and at most one day.
   */
  lemma {:induction false} StartingNowInsideWindow(now: nat, sh: nat, sm: nat, eh: nat, em: nat)
    requires now < DayMs
    requires sh < 24 && sm < 60 && eh < 24 && em < 60
    requires sh * 60 + sm <= eh * 60 + em
    ensures var until := UntilStart(now, (Num(sh), Num(sm)), (Num(eh), Num(em)));
      until.Some? &&
      (DelayText(until) == StartingNow <==> sh * HourMs + sm * MinuteMs <= now < eh * HourMs + em * MinuteMs) &&
      until.value <= DayMs
  {
    PastEndIsAfterEnd(now, eh, em);
    assert sh * HourMs + sm * MinuteMs == (sh * 60 + sm) * MinuteMs;
    assert eh * HourMs + em * MinuteMs == (eh * 60 + em) * MinuteMs;
    assert (sh * 60 + sm) * MinuteMs <= (eh * 60 + em) * MinuteMs;
  }

  /** The fallback is the backend rule applied to a 20:00–21:00 window. */
  lemma FallbackIsEightToNine(now: nat)
    ensures Some(FallbackUntil(now)) == UntilStart(now, (Num(20), Num(0)), (Num(21), Num(0)))
  {
    PastEndIsAfterEnd(now, 21, 0);
    assert HourOf(now) >= 21 <==> now >= 21 * HourMs;
  }

  /** The fallback says "Starting now" exactly from 20:00 to the end of the day's 20th hour. */
  lemma FallbackStartingNow(now: nat)
    requires now < DayMs
    ensures DelayText(Some(FallbackUntil(now))) == StartingNow <==> 20 * HourMs <= now < 21 * HourMs
  {
    FallbackIsEightToNine(now);
    StartingNowInsideWindow(now, 20, 0, 21, 0);
  }
}
