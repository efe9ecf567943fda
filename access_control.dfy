/**
 * The access-control provider (src/contexts/AccessControlContext.tsx): maps
 * the `/api/college/access/` answer to `canAccess` and `accessData`, keeps the
 * college status, and decides when the five-second re-check runs.
 */
module AccessControl {
  import opened Wrappers
  import opened Protocol
  import opened ApiClient

  datatype AccessCheckResponse = AccessCheckResponse(
    canAccess: bool,
    reason: Option<string>,
    message: string,
    collegeName: Option<string>,
    collegeDomain: Option<string>,
    windowStart: Option<string>,
    windowEnd: Option<string>,
    timeRemainingSeconds: Option<int>)

  datatype CollegeInfo = CollegeInfo(id: int, name: string, domain: string, isActive: bool,
                                     windowStart: string, windowEnd: string,
                                     currentlyInWindow: bool, canAccess: bool)

  datatype CollegeStatusResponse = CollegeStatusResponse(hasCollege: bool, message: Option<string>,
                                                         college: Option<CollegeInfo>)

  /**
   * What `accessData` holds: a parsed answer, a structured error body passed
   * through as is, or a record the provider builds itself.
   */
  datatype AccessView =
    | Checked(response: AccessCheckResponse)
    | ErrorBody(body: Json)
    | Synthesised(reason: string, message: Json)

  /** How `get` settled, seen from the provider. */
  datatype Fetched<T> = Threw | Got(response: ApiResponse<T>)

  /** `accessData?.time_remaining_seconds`. */
  function TimeRemaining(v: Option<AccessView>): (t: Option<Json>)
    ensures t.Some? ==> v.Some? && !v.value.Synthesised?
    ensures v.Some? && v.value.Checked? ==>
      (t.Some? <==> v.value.response.timeRemainingSeconds.Some?) && (t.Some? ==> t.value.JNum?)
  {
    match v
    case None => None
    case Some(Checked(r)) => if r.timeRemainingSeconds.Some? then Some(JNum(r.timeRemainingSeconds.value)) else None
    case Some(ErrorBody(body)) => Field(Some(body), "time_remaining_seconds")
    case Some(Synthesised(_, _)) => None
  }

  /** The five-second re-check: armed iff the remaining time is a non-zero number below 120. */
  function FastPollPeriod(v: Option<AccessView>): (ms: Option<nat>)
    ensures ms.Some? <==> (TimeRemaining(v).Some? && TimeRemaining(v).value.JNum?
                           && TimeRemaining(v).value.n != 0 && TimeRemaining(v).value.n < 120)
    ensures ms.Some? ==> ms.value == 5000
    ensures ms.Some? ==> JsTruthy(TimeRemaining(v))
  {
    var t := TimeRemaining(v);
    if JsTruthy(t) && t.value.JNum? && t.value.n < 120 then Some(5000) else None
  }

  /** The effect on a parsed answer: armed exactly inside the last two minutes (or past them). */
  lemma FastPollOnAnswer(r: AccessCheckResponse)
    ensures FastPollPeriod(Some(Checked(r))).Some? <==>
      r.timeRemainingSeconds.Some? && r.timeRemainingSeconds.value != 0 && r.timeRemainingSeconds.value < 120
  {
  }

  /** The `accessData` one signed-in `checkAccess` leaves behind, for each outcome of the call. */
  function AccessAfter(fetched: Fetched<AccessCheckResponse>): (v: AccessView)
    ensures Granted(v) ==> fetched.Got? && fetched.response.data.Some? && fetched.response.data.value.canAccess
    ensures fetched.Threw? ==> v.Synthesised?
    ensures v.ErrorBody? ==> fetched.Got? && fetched.response.data.None?
  {
    match fetched
    case Threw => Synthesised("network_error", JStr("Unable to verify access permissions"))
    case Got(r) =>
      if r.data.Some? then Checked(r.data.value)
      else if JsTruthy(r.errorData) && IsObject(r.errorData) then ErrorBody(r.errorData.value)
      else Synthesised("unknown_error", Or(r.error, JStr("Access denied")))
  }

  /** `canAccess` as a signed-in check sets it: only a parsed answer can grant access. */
  predicate Granted(v: AccessView) {
    v.Checked? && v.response.canAccess
  }

  /** The `collegeStatus` a signed-in `refreshStatus` leaves behind: only returned data replaces it. */
  function StatusAfter(previous: Option<CollegeStatusResponse>, fetched: Fetched<CollegeStatusResponse>): (r: Option<CollegeStatusResponse>)
    ensures r == previous || (fetched.Got? && r == fetched.response.data)
    ensures fetched.Threw? ==> r == previous
    ensures previous.Some? ==> r.Some?
  {
    if fetched.Got? && fetched.response.data.Some? then fetched.response.data else previous
  }

  class AccessControlProvider {
    var canAccess: bool
    var accessData: Option<AccessView>
    var collegeStatus: Option<CollegeStatusResponse>
    var loading: bool
    // requests issued to /api/college/access/
    var accessRequests: nat

    /** Access is granted only by a parsed answer that grants it. */
    ghost predicate Valid()
      reads this
    {
      canAccess ==> accessData.Some? && accessData.value.Checked? && accessData.value.response.canAccess
    }

    constructor ()
      ensures Valid() && !canAccess && accessData.None? && collegeStatus.None? && !loading
      ensures accessRequests == 0
    {
      canAccess, accessData, collegeStatus, loading, accessRequests := false, None, None, false, 0;
    }

    /**
     * `checkAccess`: signed out, access is denied without a request; otherwise
     * the answer's data decides, then an object error body, then a record
     * with reason `unknown_error`; a thrown call gives `network_error`.
     */
    method CheckAccess(isAuthenticated: bool, tokens: Option<TokenData>, fetched: Fetched<AccessCheckResponse>)
      requires Valid()
      modifies this`canAccess, this`accessData, this`loading, this`accessRequests
      ensures Valid()
      ensures !(isAuthenticated && tokens.Some?) ==>
        !canAccess && accessData.None? && accessRequests == old(accessRequests) && loading == old(loading)
      ensures isAuthenticated && tokens.Some? ==> accessRequests == old(accessRequests) + 1 && !loading
      ensures isAuthenticated && tokens.Some? ==>
        accessData == Some(AccessAfter(fetched)) && canAccess == Granted(AccessAfter(fetched))
      ensures isAuthenticated && tokens.Some? ==>
        match fetched
        case Threw =>
          !canAccess && accessData == Some(Synthesised("network_error", JStr("Unable to verify access permissions")))
        case Got(r) =>
          if r.data.Some? then canAccess == r.data.value.canAccess && accessData == Some(Checked(r.data.value))
          else if JsTruthy(r.errorData) && IsObject(r.errorData) then
            !canAccess && accessData == Some(ErrorBody(r.errorData.value))
          else
            !canAccess && accessData.Some? && accessData.value.Synthesised?
            && accessData.value.reason == "unknown_error"
            && accessData.value.message == (if JsTruthy(r.error) then r.error.value else JStr("Access denied"))
    {
      if !isAuthenticated || tokens.None? {
        canAccess := false;
        accessData := None;
        return;
      }
      loading := true;
      accessRequests := accessRequests + 1;
      match fetched {
        case Threw =>
          canAccess := false;
          accessData := Some(Synthesised("network_error", JStr("Unable to verify access permissions")));
        case Got(r) =>
          if r.data.Some? {
            canAccess := r.data.value.canAccess;
            accessData := Some(Checked(r.data.value));
          } else if r.errorData.Some? && JsTruthy(r.errorData) && IsObject(r.errorData) {
            canAccess := false;
            accessData := Some(ErrorBody(r.errorData.value));
          } else {
            canAccess := false;
            accessData := Some(Synthesised("unknown_error", Or(r.error, JStr("Access denied"))));
          }
      }
      loading := false;
    }

    /** `refreshStatus`: cleared when signed out; otherwise replaced only by returned data. */
    method RefreshStatus(isAuthenticated: bool, tokens: Option<TokenData>, fetched: Fetched<CollegeStatusResponse>)
      modifies this`collegeStatus
      ensures !(isAuthenticated && tokens.Some?) ==> collegeStatus.None?
      ensures isAuthenticated && tokens.Some? && fetched.Got? && fetched.response.data.Some? ==>
        collegeStatus == fetched.response.data
      ensures isAuthenticated && tokens.Some? && !(fetched.Got? && fetched.response.data.Some?) ==>
        collegeStatus == old(collegeStatus)
      ensures isAuthenticated && tokens.Some? ==> collegeStatus == StatusAfter(old(collegeStatus), fetched)
    {
      if !isAuthenticated || tokens.None? {
        collegeStatus := None;
        return;
      }
      if fetched.Got? && fetched.response.data.Some? {
        collegeStatus := fetched.response.data;
      }
    }

    /** The initial-check effect: both requests when signed in, otherwise all three cells cleared. */
    method OnAuthChange(isAuthenticated: bool, tokens: Option<TokenData>,
                        access: Fetched<AccessCheckResponse>, status: Fetched<CollegeStatusResponse>)
      requires Valid()
      modifies this`canAccess, this`accessData, this`loading, this`accessRequests, this`collegeStatus
      ensures Valid()
      ensures !(isAuthenticated && tokens.Some?) ==> !canAccess && accessData.None? && collegeStatus.None?
      ensures isAuthenticated && tokens.Some? ==>
        accessRequests == old(accessRequests) + 1 && !loading
        && accessData == Some(AccessAfter(access)) && canAccess == Granted(AccessAfter(access))
        && collegeStatus == StatusAfter(old(collegeStatus), status)
      ensures !(isAuthenticated && tokens.Some?) ==>
        accessRequests == old(accessRequests) && loading == old(loading)
    {
      if isAuthenticated && tokens.Some? {
        CheckAccess(isAuthenticated, tokens, access);
        RefreshStatus(isAuthenticated, tokens, status);
      } else {
        canAccess := false;
        accessData := None;
        collegeStatus := None;
      }
    }
  }
}
