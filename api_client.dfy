/**
 * The HTTP client hook (src/lib/useAxios.ts): the response interceptor that
 * refreshes the access token once on a 401, and `request`, which turns every
 * outcome into an `ApiResponse`.
 */
module ApiClient {
  import opened Wrappers
  import opened Protocol

  /** A parsed JSON value; object members in source order. */
  datatype Json =
    | JNull
    | JBool(b: bool)
    | JNum(n: int)
    | JStr(s: string)
    | JArr(items: seq<Json>)
    | JObj(members: seq<(string, Json)>)

  /** The value bound last to `key` (as `JSON.parse` keeps the last duplicate). */
  function Binding(members: seq<(string, Json)>, key: string): (r: Option<Json>)
    ensures r.None? <==> forall i :: 0 <= i < |members| ==> members[i].0 != key
    ensures r.Some? ==> exists i :: 0 <= i < |members| && members[i] == (key, r.value)
                                    && forall j :: i < j < |members| ==> members[j].0 != key
    decreases |members|
  {
    if members == [] then None
    else if members[|members| - 1].0 == key then
      assert members[|members| - 1] == (key, members[|members| - 1].1);
      Some(members[|members| - 1].1)
    else
      var prefix := members[..|members| - 1];
      var r := Binding(prefix, key);
      if r.Some? then
        var i :| 0 <= i < |prefix| && prefix[i] == (key, r.value)
                 && forall j :: i < j < |prefix| ==> prefix[j].0 != key;
        assert members[i] == (key, r.value);
        assert forall j :: i < j < |members| ==> members[j].0 != key by {
          forall j | i < j < |members|
            ensures members[j].0 != key
          {
            if j < |prefix| {
              assert prefix[j] == members[j];
            }
          }
        }
        r
      else r
  }

  /** Property access `j.key`; `None` is `undefined`. */
  function Field(j: Option<Json>, key: string): Option<Json> {
    if j.Some? && j.value.JObj? then Binding(j.value.members, key) else None
  }

  /** JavaScript truthiness; `None` is `undefined`. */
  predicate JsTruthy(j: Option<Json>) {
    match j
    case None => false
    case Some(JNull) => false
    case Some(JBool(b)) => b
    case Some(JNum(n)) => n != 0
    case Some(JStr(s)) => s != ""
    case Some(JArr(_)) => true
    case Some(JObj(_)) => true
  }

  /** `typeof j === 'object'`, which holds for `null` too. */
  predicate IsObject(j: Option<Json>) {
    j.Some? && (j.value.JNull? || j.value.JArr? || j.value.JObj?)
  }

  /** `a || b`. */
  function Or(a: Option<Json>, b: Json): Json {
    if JsTruthy(a) then a.value else b
  }

  /** The value of a whole `||` chain: the first truthy candidate, else the last operand. */
  function FirstTruthy(candidates: seq<Option<Json>>, last: Json): (r: Json)
    ensures JsTruthy(Some(last)) ==> JsTruthy(Some(r))
    ensures (forall i :: 0 <= i < |candidates| ==> !JsTruthy(candidates[i])) ==> r == last
    ensures forall i :: (0 <= i < |candidates| && JsTruthy(candidates[i])
                         && (forall j :: 0 <= j < i ==> !JsTruthy(candidates[j]))) ==> r == candidates[i].value
    decreases |candidates|
  {
    if candidates == [] then last
    else if JsTruthy(candidates[0]) then candidates[0].value
    else FirstTruthy(candidates[1..], last)
  }

  lemma FirstTruthyStep(candidates: seq<Option<Json>>, last: Json)
    requires candidates != []
    ensures FirstTruthy(candidates, last) == Or(candidates[0], FirstTruthy(candidates[1..], last))
  {
  }

  const DefaultMessage: string := "An error occurred"

  datatype ErrResponse = ErrResponse(status: Option<int>, data: Option<Json>)

  /**
   * What `request` catches: not an object (or null), or an object that may
   * have a `response` key (possibly `undefined`) and a `message`.
   */
  datatype Thrown =
    | NotAnObject
    | ErrorObject(hasResponseKey: bool, response: Option<ErrResponse>, message: Option<string>)

  /** What the axios call settled to. */
  datatype Outcome<T> = Resolved(status: int, data: T) | Rejected(err: Thrown)

  /** `ApiResponse<T>`; `None` fields are absent. */
  datatype ApiResponse<T> = ApiResponse(data: Option<T>, error: Option<Json>, status: int, errorData: Option<Json>)

  function MessageOf(m: Option<string>): Option<Json> {
    if m.Some? then Some(JStr(m.value)) else None
  }

  predicate HasResponse(err: Thrown) {
    err.ErrorObject? && err.hasResponseKey
  }

  /** `axiosError.response?.status || 500` when there is a `response` key; 500 otherwise. */
  function StatusOf(err: Thrown): int {
    if HasResponse(err) && err.response.Some? && err.response.value.status.Some?
       && err.response.value.status.value != 0
    then err.response.value.status.value
    else 500
  }

  /** `errorData`: starts as `null`, then `response?.data` when there is a `response` key. */
  function ErrorDataOf(err: Thrown): Option<Json> {
    if HasResponse(err) then (if err.response.Some? then err.response.value.data else None)
    else Some(JNull)
  }

  /** The error message, in the shape of the source's branches. */
  function ErrorMessage(err: Thrown): (r: Json)
    ensures !HasResponse(err) ==> r == JStr(DefaultMessage)
    ensures HasResponse(err) && JsTruthy(ErrorDataOf(err)) && IsObject(ErrorDataOf(err)) ==>
      var d := ErrorDataOf(err);
      r == FirstTruthy([Field(d, "detail"), Field(d, "message"), Field(d, "error"), MessageOf(err.message)],
                       JStr(DefaultMessage))
    ensures HasResponse(err) && !(JsTruthy(ErrorDataOf(err)) && IsObject(ErrorDataOf(err))) ==>
      r == FirstTruthy([MessageOf(err.message)], JStr(DefaultMessage))
    ensures JsTruthy(Some(r))
  {
    if HasResponse(err) then
      var d := ErrorDataOf(err);
      if JsTruthy(d) && IsObject(d) then
        var cs := [Field(d, "detail"), Field(d, "message"), Field(d, "error"), MessageOf(err.message)];
        FirstTruthyStep(cs, JStr(DefaultMessage));
        FirstTruthyStep(cs[1..], JStr(DefaultMessage));
        FirstTruthyStep(cs[2..], JStr(DefaultMessage));
        FirstTruthyStep(cs[3..], JStr(DefaultMessage));
        assert cs[1..][1..] == cs[2..] && cs[2..][1..] == cs[3..] && cs[3..][1..] == [];
        Or(Field(d, "detail"), Or(Field(d, "message"), Or(Field(d, "error"),
          Or(MessageOf(err.message), JStr(DefaultMessage)))))
      else
        FirstTruthyStep([MessageOf(err.message)], JStr(DefaultMessage));
        Or(MessageOf(err.message), JStr(DefaultMessage))
    else JStr(DefaultMessage)
  }

  /** `request`'s result for a settled call. */
  function Normalise<T>(o: Outcome<T>): (r: ApiResponse<T>)
    // success: data and status, no error fields
    ensures o.Resolved? ==> r == ApiResponse(Some(o.data), None, o.status, None)
    // failure: never data, always a truthy error message, never status 0
    ensures o.Rejected? ==> r.data.None? && r.error.Some? && JsTruthy(r.error) && r.status != 0
    ensures o.Rejected? ==> r.status == StatusOf(o.err) && r.errorData == ErrorDataOf(o.err)
    ensures o.Rejected? ==> r.error == Some(ErrorMessage(o.err))
    ensures o.Rejected? && !HasResponse(o.err) ==> r.status == 500 && r.errorData == Some(JNull)
  {
    match o
    case Resolved(status, data) => ApiResponse(Some(data), None, status, None)
    case Rejected(err) => ApiResponse(None, Some(ErrorMessage(err)), StatusOf(err), ErrorDataOf(err))
  }

  /** A server's answer to one attempt, or no answer at all. */
  datatype ServerReply = Answered(status: int, body: Json, message: string) | NoResponse(message: string)

  /** The answer to `POST /auth/token/refresh/`: a new access token, or the error it rejected with. */
  datatype RefreshReply = Refreshed(access: string) | RefreshFailed(err: Thrown)

  predicate HttpOk(status: int) { 200 <= status <= 299 }

  /** The axios error a non-2xx answer or a missing answer rejects with. */
  function AsThrown(reply: ServerReply): Thrown {
    match reply
    case Answered(status, body, message) => ErrorObject(true, Some(ErrResponse(Some(status), Some(body))), Some(message))
    case NoResponse(message) => ErrorObject(false, None, Some(message))
  }

  /** Replies beyond the given ones are taken as network failures. */
  function AttemptReply(replies: seq<ServerReply>): ServerReply {
    if replies == [] then NoResponse("Network Error") else replies[0]
  }

  function NextRefresh(replies: seq<RefreshReply>): RefreshReply {
    if replies == [] then RefreshFailed(ErrorObject(false, None, Some("Network Error"))) else replies[0]
  }

  function Rest(replies: seq<ServerReply>): seq<ServerReply> {
    if replies == [] then [] else replies[1..]
  }

  /** How axios settles a single reply: resolved on 2xx, rejected otherwise. */
  function Settled(reply: ServerReply): Outcome<Json> {
    if reply.Answered? && HttpOk(reply.status) then Resolved(reply.status, reply.body)
    else Rejected(AsThrown(reply))
  }

  /**
   * What a request's first pass through the instance settles to, given the
   * stored tokens: a 401 with tokens stored is refreshed once, and then the
   * retry's own reply, or the refresh's error, decides; every other reply
   * settles as it is.
   */
  function DispatchOutcome(stored: Option<TokenData>, attempts: seq<ServerReply>, refreshes: seq<RefreshReply>): (o: Outcome<Json>)
    ensures o.Resolved? ==> HttpOk(o.status)
    ensures stored.None? || !(AttemptReply(attempts).Answered? && AttemptReply(attempts).status == 401) ==>
      o == Settled(AttemptReply(attempts))
    ensures o.Resolved? && AttemptReply(attempts).Answered? && AttemptReply(attempts).status == 401 ==>
      stored.Some? && NextRefresh(refreshes).Refreshed?
  {
    var reply := AttemptReply(attempts);
    if reply.Answered? && reply.status == 401 && stored.Some? then
      match NextRefresh(refreshes)
      case Refreshed(_) => Settled(AttemptReply(Rest(attempts)))
      case RefreshFailed(err) => Rejected(err)
    else Settled(reply)
  }

  /** The shared axios instance and what it touches in the browser. */
  class HttpClient {
    // localStorage['tokenData'] and whether localStorage['user'] is present
    var storage: Option<TokenData>
    var userKey: bool
    // window.location.href assignments
    var navigations: seq<string>
    // refresh calls issued, and the Authorization header of every attempt
    var refreshCalls: nat
    var headers: seq<Option<string>>
    // useAxios state
    var loading: bool
    var error: Option<Json>

    constructor (stored: Option<TokenData>, hasUserKey: bool)
      ensures storage == stored && userKey == hasUserKey && navigations == [] && refreshCalls == 0
      ensures headers == [] && !loading && error.None?
    {
      storage, userKey, navigations, refreshCalls := stored, hasUserKey, [], 0;
      headers, loading, error := [], false, None;
    }

    /**
     * One pass through the instance: the request interceptor puts the stored
     * access token in the header; the response interceptor, on a 401 of a
     * request not yet retried, marks it retried, refreshes once and re-sends
     * it, and on a failed refresh clears the stored keys and leaves for
     * `/welcome`.
     */
    method Dispatch(retried: bool, attempts: seq<ServerReply>, refreshes: seq<RefreshReply>)
      returns (o: Outcome<Json>)
      modifies this`storage, this`userKey, this`navigations, this`refreshCalls, this`headers
      decreases if retried then 0 else 1
      // the `_retry` guard: a retried request never refreshes again
      ensures refreshCalls <= old(refreshCalls) + (if retried then 0 else 1)
      ensures old(headers) < headers && |headers| <= |old(headers)| + (if retried then 1 else 2)
      ensures headers[|old(headers)|] == (if old(storage).Some? then Some(old(storage).value.access) else None)
      // a refresh happens only for a 401 with tokens stored
      ensures refreshCalls > old(refreshCalls) ==>
        AttemptReply(attempts).Answered? && AttemptReply(attempts).status == 401 && old(storage).Some?
      ensures AttemptReply(attempts).Answered? && HttpOk(AttemptReply(attempts).status) ==>
        o == Resolved(AttemptReply(attempts).status, AttemptReply(attempts).body) && storage == old(storage)
      // a retried request settles to its own reply, untouched by the interceptor
      ensures retried ==>
        storage == old(storage) && refreshCalls == old(refreshCalls) && o == Settled(AttemptReply(attempts))
      // the first 401 with tokens stored: one refresh, and its result decides the rest
      ensures !retried && AttemptReply(attempts).Answered? && AttemptReply(attempts).status == 401
              && old(storage).Some? ==>
        refreshCalls == old(refreshCalls) + 1
        && match NextRefresh(refreshes)
           case Refreshed(access) =>
             storage == Some(TokenData(access, old(storage).value.refresh))
             && o == Settled(AttemptReply(Rest(attempts)))
           case RefreshFailed(err) => o == Rejected(err) && storage.None?
      // any other first reply settles as it is, with nothing refreshed or cleared
      ensures !(AttemptReply(attempts).Answered? && AttemptReply(attempts).status == 401 && old(storage).Some?) ==>
        o == Settled(AttemptReply(attempts)) && storage == old(storage) && refreshCalls == old(refreshCalls)
      ensures !retried ==> o == DispatchOutcome(old(storage), attempts, refreshes)
      // the refresh token is kept; only the access token changes
      ensures storage.Some? ==> old(storage).Some? && storage.value.refresh == old(storage).value.refresh
      ensures storage.None? && old(storage).Some? ==>
        !userKey && navigations == old(navigations) + ["/welcome"] && o.Rejected?
      ensures storage.Some? || old(storage).None? ==> navigations == old(navigations) && userKey == old(userKey)
    {
      headers := headers + [if storage.Some? then Some(storage.value.access) else None];
      var reply := AttemptReply(attempts);
      if reply.Answered? && HttpOk(reply.status) {
        return Resolved(reply.status, reply.body);
      }
      if reply.Answered? && reply.status == 401 && !retried && storage.Some? {
        refreshCalls := refreshCalls + 1;
        match NextRefresh(refreshes) {
        case Refreshed(access) =>
          storage := Some(TokenData(access, storage.value.refresh));
          o := Dispatch(true, Rest(attempts), if refreshes == [] then [] else refreshes[1..]);
        case RefreshFailed(err) =>
          storage := None;
          userKey := false;
          navigations := navigations + ["/welcome"];
          o := Rejected(err);
        }
        return;
      }
      o := Rejected(AsThrown(reply));
    }

    /**
     * `request`: at most one refresh per request, the result is the
     * normalised outcome, and loading ends with the error cell set to the
     * failure's message.
     */
    method Request(attempts: seq<ServerReply>, refreshes: seq<RefreshReply>) returns (r: ApiResponse<Json>)
      modifies this`storage, this`userKey, this`navigations, this`refreshCalls, this`headers,
               this`loading, this`error
      ensures r == Normalise(DispatchOutcome(old(storage), attempts, refreshes))
      ensures refreshCalls <= old(refreshCalls) + 1
      ensures !loading && error == r.error
      ensures r.data.Some? <==> r.error.None?
      ensures r.error.Some? ==> JsTruthy(r.error) && r.status != 0
      ensures storage.Some? ==> old(storage).Some? && storage.value.refresh == old(storage).value.refresh
    {
      loading := true;
      error := None;
      var o := Dispatch(false, attempts, refreshes);
      r := Normalise(o);
      if o.Rejected? {
        error := r.error;
      }
      loading := false;
    }
  }

  /** A second 401 after a successful refresh is returned, not refreshed again. */
  method SecondUnauthorizedScenario(t: TokenData, body: Json)
  {
    var c := new HttpClient(Some(t), true);
    var o := c.Dispatch(false, [Answered(401, body, "m"), Answered(401, body, "m")], [Refreshed("new"), Refreshed("newer")]);
    assert c.refreshCalls == 1;
    assert c.storage == Some(TokenData("new", t.refresh));
    assert o.Rejected? && Normalise(o).status == 401;
  }
}
