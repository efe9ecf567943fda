/**
 * The authentication provider (src/contexts/AuthContext.tsx) and the records
 * of src/types/auth.ts: three-valued token validation with refresh, the
 * protected-route guard, login, logout and the derived `isAuthenticated`.
 */
module Auth {
  import opened Wrappers
  import opened Protocol

  datatype College = College(id: int, name: string, domain: string, isActive: bool,
                             windowStart: string, windowEnd: string)

  datatype User = User(id: int, email: string, firstName: string, lastName: string,
                       profilePicture: Option<string>, isActive: bool, dateJoined: string,
                       college: Option<College>)

  datatype LoginResponse = LoginResponse(access: string, refresh: string, user: User)

  /** `true`, `false` and `null` of `Promise<boolean | null>`. */
  datatype Verdict = Valid | Invalid | Unknown

  /** A reply to `GET /auth/user/`: thrown, or a status with the user when the body parses. */
  datatype UserReply = UserThrew | UserAnswered(status: int, user: Option<User>)

  /** A reply to `POST /auth/token/refresh/`: thrown, or a status with the new access token when the body parses. */
  datatype RefreshReply = RefreshThrew | RefreshAnswered(status: int, access: Option<string>)

  predicate HttpOk(status: int) { 200 <= status <= 299 }

  /**
   * What one validation run leaves behind: its verdict, the user it last set
   * (if any) and the tokens it last stored (if any).
   */
  datatype Run = Run(verdict: Verdict, user: Option<User>, tokens: Option<TokenData>)

  /**
   * `validateAndFetchUser`, consuming one user reply; the replies the two
   * streams do not contain count as network failures.
   */
  function Validate(tokens: TokenData, users: seq<UserReply>, refreshes: seq<RefreshReply>): (r: Run)
    ensures r.user.Some? ==> r.verdict == Valid
    decreases |users| + |refreshes|
  {
    if users == [] then Run(Unknown, None, None)
    else match users[0]
      case UserThrew => Run(Unknown, None, None)
      case UserAnswered(status, u) =>
        if HttpOk(status) then
          (if u.Some? then Run(Valid, u, None) else Run(Unknown, None, None))
        else if status == 401 then Refresh(tokens, users[1..], refreshes)
        else Run(Unknown, None, None)
  }

  /**
   * `refreshTokenAndFetchUser`, consuming one refresh reply: the new tokens
   * keep the old refresh token, and a `null` from the nested validation
   * still counts as success.
   */
  function Refresh(tokens: TokenData, users: seq<UserReply>, refreshes: seq<RefreshReply>): (r: Run)
    ensures r.user.Some? ==> r.verdict == Valid
    decreases |users| + |refreshes|
  {
    if refreshes == [] then Run(Unknown, None, None)
    else match refreshes[0]
      case RefreshThrew => Run(Unknown, None, None)
      case RefreshAnswered(status, access) =>
        if HttpOk(status) then
          if access.None? then Run(Unknown, None, None)
          else
            var renewed := TokenData(access.value, tokens.refresh);
            var inner := Validate(renewed, users, refreshes[1..]);
            Run(if inner.verdict == Unknown then Valid else inner.verdict,
                inner.user,
                if inner.tokens.Some? then inner.tokens else Some(renewed))
        else if status == 401 then Run(Invalid, None, None)
        else Run(Unknown, None, None)
  }

  /** Whatever a run stores, the refresh token is the one it started with. */
  lemma {:induction false} ValidateKeepsRefreshToken(t: TokenData, us: seq<UserReply>, rs: seq<RefreshReply>)
    ensures Validate(t, us, rs).tokens.Some? ==> Validate(t, us, rs).tokens.value.refresh == t.refresh
    decreases |us| + |rs|, 1
  {
    if us != [] && us[0].UserAnswered? && !HttpOk(us[0].status) && us[0].status == 401 {
      RefreshKeepsRefreshToken(t, us[1..], rs);
    }
  }

  lemma {:induction false} RefreshKeepsRefreshToken(t: TokenData, us: seq<UserReply>, rs: seq<RefreshReply>)
    ensures Refresh(t, us, rs).tokens.Some? ==> Refresh(t, us, rs).tokens.value.refresh == t.refresh
    decreases |us| + |rs|, 0
  {
    if rs != [] && rs[0].RefreshAnswered? && HttpOk(rs[0].status) && rs[0].access.Some? {
      ValidateKeepsRefreshToken(TokenData(rs[0].access.value, t.refresh), us, rs[1..]);
    }
  }

  /** `null` means nothing was set: no user and no stored tokens. */
  lemma {:induction false} UnknownSetsNothing(t: TokenData, us: seq<UserReply>, rs: seq<RefreshReply>)
    ensures Validate(t, us, rs).verdict == Unknown ==>
      Validate(t, us, rs).user.None? && Validate(t, us, rs).tokens.None?
    ensures Refresh(t, us, rs).verdict == Unknown ==>
      Refresh(t, us, rs).user.None? && Refresh(t, us, rs).tokens.None?
    decreases |us| + |rs|
  {
    if us != [] && us[0].UserAnswered? && !HttpOk(us[0].status) && us[0].status == 401 {
      UnknownSetsNothing(t, us[1..], rs);
    }
  }

  /** `true` means something was set: a user, or refreshed tokens. */
  lemma {:induction false} ValidSetsSomething(t: TokenData, us: seq<UserReply>, rs: seq<RefreshReply>)
    ensures Validate(t, us, rs).verdict == Valid ==>
      Validate(t, us, rs).user.Some? || Validate(t, us, rs).tokens.Some?
    ensures Refresh(t, us, rs).verdict == Valid ==> Refresh(t, us, rs).tokens.Some?
    decreases |us| + |rs|
  {
    if us != [] && us[0].UserAnswered? && !HttpOk(us[0].status) && us[0].status == 401 {
      ValidSetsSomething(t, us[1..], rs);
    }
    if rs != [] && rs[0].RefreshAnswered? && HttpOk(rs[0].status) && rs[0].access.Some? {
      ValidSetsSomething(TokenData(rs[0].access.value, t.refresh), us, rs[1..]);
    }
  }

  /** A refresh reply that says the refresh token is no longer accepted. */
  predicate Rejected(r: RefreshReply) {
    r.RefreshAnswered? && r.status == 401
  }

  /**
   * `false` comes only from a refresh answered 401, and a run that ends
   * `false` never set a user.
   */
  lemma {:induction false} InvalidOnlyFromRefresh401(t: TokenData, us: seq<UserReply>, rs: seq<RefreshReply>)
    ensures Validate(t, us, rs).verdict == Invalid ==>
      (exists i :: 0 <= i < |rs| && Rejected(rs[i])) && Validate(t, us, rs).user.None?
    ensures Refresh(t, us, rs).verdict == Invalid ==>
      (exists i :: 0 <= i < |rs| && Rejected(rs[i])) && Refresh(t, us, rs).user.None?
    decreases |us| + |rs|
  {
    if us != [] && us[0].UserAnswered? && !HttpOk(us[0].status) && us[0].status == 401 {
      InvalidOnlyFromRefresh401(t, us[1..], rs);
    }
    if rs != [] && rs[0].RefreshAnswered? {
      if rs[0].status == 401 {
        assert Rejected(rs[0]);
      } else if HttpOk(rs[0].status) && rs[0].access.Some? {
        var renewed := TokenData(rs[0].access.value, t.refresh);
        InvalidOnlyFromRefresh401(renewed, us, rs[1..]);
        if Validate(renewed, us, rs[1..]).verdict == Invalid {
          var i :| 0 <= i < |rs[1..]| && Rejected(rs[1..][i]);
          assert Rejected(rs[i + 1]);
        }
      }
    }
  }

  /** The paths reachable without a token. */
  const PublicPaths: seq<string> := ["/login", "/welcome", "/privacy-policy", "/terms-and-conditions", "/community/invite"]

  const CallbackPrefix: string := "/api/auth/callback"

  predicate IsPublicPath(path: string) {
    path in PublicPaths || CallbackPrefix <= path
  }

  /** The protected-route effect: where to `router.replace`, if anywhere. */
  function Redirect(loading: bool, hasToken: bool, path: string): (r: Option<string>)
    ensures loading ==> r.None?
    ensures !loading && !hasToken ==> (r == Some("/welcome") <==> !IsPublicPath(path))
    ensures !loading && hasToken ==> (r == Some("/") <==> path == "/login")
    ensures r.None? || r == Some("/welcome") || r == Some("/")
  {
    if loading then None
    else if !hasToken && !IsPublicPath(path) then Some("/welcome")
    else if hasToken && path == "/login" then Some("/")
    else None
  }

  /** A redirect lands on a page that does not redirect again. */
  lemma RedirectSettles(hasToken: bool, path: string)
    requires Redirect(false, hasToken, path).Some?
    ensures Redirect(false, hasToken, Redirect(false, hasToken, path).value).None?
  {
    assert PublicPaths[1] == "/welcome";
  }

  /** `Boolean(tokenData && user)`. */
  predicate IsAuthenticated(tokens: Option<TokenData>, user: Option<User>) {
    tokens.Some? && user.Some?
  }

  /** The `localStorage` value under `tokenData`: parsable tokens, or text that fails `JSON.parse`. */
  datatype Stored = StoredTokens(tokens: TokenData) | Corrupt

  class AuthProvider {
    var user: Option<User>
    var tokenData: Option<TokenData>
    var loading: bool
    // localStorage['tokenData']
    var stored: Option<Stored>
    // router.replace targets, in order
    var redirects: seq<string>

    constructor (initial: Option<Stored>)
      ensures user.None? && tokenData.None? && loading && stored == initial && redirects == []
    {
      user, tokenData, loading, stored, redirects := None, None, true, initial, [];
    }

    /** The writes a validation run made along the way, last write wins. */
    method ApplyRun(run: Run)
      modifies this`user, this`tokenData, this`stored
      ensures user == (if run.user.Some? then run.user else old(user))
      ensures tokenData == (if run.tokens.Some? then run.tokens else old(tokenData))
      ensures stored == (if run.tokens.Some? then Some(StoredTokens(run.tokens.value)) else old(stored))
    {
      if run.user.Some? {
        user := run.user;
      }
      if run.tokens.Some? {
        tokenData := run.tokens;
        stored := Some(StoredTokens(run.tokens.value));
      }
    }

    /** `logout`: stored tokens, tokens and user cleared, then off to `/welcome`. */
    method Logout()
      modifies this`stored, this`tokenData, this`user, this`redirects
      ensures stored.None? && tokenData.None? && user.None?
      ensures !IsAuthenticated(tokenData, user)
      ensures redirects == old(redirects) + ["/welcome"]
    {
      stored := None;
      tokenData := None;
      user := None;
      redirects := redirects + ["/welcome"];
    }

    /**
     * `initializeAuth`: stored tokens are installed optimistically and then
     * validated; only a corrupt value or a `false` verdict clears them, and
     * loading ends on every path.
     */
    method Initialize(users: seq<UserReply>, refreshes: seq<RefreshReply>)
      modifies this`user, this`tokenData, this`stored, this`loading
      ensures !loading
      ensures old(stored).None? ==> tokenData == old(tokenData) && user == old(user) && stored.None?
      ensures old(stored) == Some(Corrupt) ==> stored.None? && tokenData.None? && user.None?
      ensures old(stored).Some? && old(stored).value.StoredTokens? ==>
        var t := old(stored).value.tokens;
        var run := Validate(t, users, refreshes);
        (run.verdict == Invalid ==> stored.None? && tokenData.None? && user.None?)
        && (run.verdict != Invalid ==>
              user == (if run.user.Some? then run.user else old(user))
              && tokenData == (if run.tokens.Some? then run.tokens else Some(t))
              && tokenData.value.refresh == t.refresh
              && stored == Some(StoredTokens(tokenData.value)))
        && (run.verdict == Unknown ==> tokenData == Some(t) && user == old(user))
    {
      match stored {
      case None =>
      case Some(Corrupt) =>
        stored := None;
        tokenData := None;
        user := None;
      case Some(StoredTokens(t)) =>
        tokenData := Some(t);
        var run := Validate(t, users, refreshes);
        ValidateKeepsRefreshToken(t, users, refreshes);
        UnknownSetsNothing(t, users, refreshes);
        ApplyRun(run);
        if run.verdict == Invalid {
          stored := None;
          tokenData := None;
          user := None;
        }
      }
      loading := false;
    }

    /**
     * The state change of validating `t` and logging out on `false`: a `false`
     * verdict clears storage, tokens and user and goes to `/welcome`; any other
     * verdict keeps what the run set, and otherwise the cells as they were.
     */
    twostate predicate ValidatedBy(t: TokenData, users: seq<UserReply>, refreshes: seq<RefreshReply>)
      reads this
    {
      var run := Validate(t, users, refreshes);
      if run.verdict == Invalid then
        stored.None? && tokenData.None? && user.None? && redirects == old(redirects) + ["/welcome"]
      else
        user == (if run.user.Some? then run.user else old(user))
        && tokenData == (if run.tokens.Some? then run.tokens else old(tokenData))
        && stored == (if run.tokens.Some? then Some(StoredTokens(run.tokens.value)) else old(stored))
        && redirects == old(redirects)
    }

    /**
     * One validation of the current tokens followed by a logout on `false`
     * only: the body shared by the five-minute check and `refreshUser`.
     */
    method ValidateCurrent(users: seq<UserReply>, refreshes: seq<RefreshReply>)
      requires tokenData.Some?
      modifies this`user, this`tokenData, this`stored, this`redirects
      ensures ValidatedBy(old(tokenData).value, users, refreshes)
      ensures var t := old(tokenData).value;
        var v := Validate(t, users, refreshes).verdict;
        (v != Invalid ==> tokenData.Some? && tokenData.value.refresh == t.refresh)
        && (v == Unknown ==> tokenData == old(tokenData) && user == old(user) && stored == old(stored))
    {
      var t := tokenData.value;
      var run := Validate(t, users, refreshes);
      ValidateKeepsRefreshToken(t, users, refreshes);
      UnknownSetsNothing(t, users, refreshes);
      ApplyRun(run);
      if run.verdict == Invalid {
        Logout();
      }
    }

    /** The five-minute interval fires; it exists only while there are tokens. */
    method PeriodicValidation(users: seq<UserReply>, refreshes: seq<RefreshReply>)
      requires tokenData.Some?
      modifies this`user, this`tokenData, this`stored, this`redirects
      ensures Validate(old(tokenData).value, users, refreshes).verdict == Unknown ==>
        tokenData == old(tokenData) && user == old(user) && redirects == old(redirects)
      ensures Validate(old(tokenData).value, users, refreshes).verdict == Invalid ==>
        !IsAuthenticated(tokenData, user) && redirects == old(redirects) + ["/welcome"]
      ensures ValidatedBy(old(tokenData).value, users, refreshes)
    {
      ValidateCurrent(users, refreshes);
    }

    /** `refreshUser`: nothing without tokens; otherwise as the periodic check. */
    method RefreshUser(users: seq<UserReply>, refreshes: seq<RefreshReply>)
      modifies this`user, this`tokenData, this`stored, this`redirects
      ensures old(tokenData).None? ==>
        user == old(user) && tokenData.None? && stored == old(stored) && redirects == old(redirects)
      ensures old(tokenData).Some? && Validate(old(tokenData).value, users, refreshes).verdict == Unknown ==>
        tokenData == old(tokenData) && user == old(user) && redirects == old(redirects)
      ensures old(tokenData).Some? && Validate(old(tokenData).value, users, refreshes).verdict == Invalid ==>
        !IsAuthenticated(tokenData, user) && redirects == old(redirects) + ["/welcome"]
      ensures old(tokenData).Some? ==> ValidatedBy(old(tokenData).value, users, refreshes)
    {
      if tokenData.None? {
        return;
      }
      ValidateCurrent(users, refreshes);
    }

    /**
     * `login`: a response with data stores the tokens, sets both cells and
     * goes home; otherwise the error (or "Login failed") is thrown. Loading
     * ends either way.
     */
    method Login(data: Option<LoginResponse>, error: Option<string>) returns (thrown: Option<string>)
      modifies this`loading, this`stored, this`tokenData, this`user, this`redirects
      ensures !loading
      ensures data.Some? ==>
        thrown.None? && tokenData == Some(TokenData(data.value.access, data.value.refresh))
        && user == Some(data.value.user) && stored == Some(StoredTokens(tokenData.value))
        && IsAuthenticated(tokenData, user) && redirects == old(redirects) + ["/"]
      ensures data.None? ==>
        thrown == Some(if Truthy(error) then error.value else "Login failed")
        && tokenData == old(tokenData) && user == old(user) && stored == old(stored)
        && redirects == old(redirects)
    {
      loading := true;
      if data.Some? {
        var renewed := TokenData(data.value.access, data.value.refresh);
        stored := Some(StoredTokens(renewed));
        tokenData := Some(renewed);
        user := Some(data.value.user);
        redirects := redirects + ["/"];
        thrown := None;
      } else {
        thrown := Some(if Truthy(error) then error.value else "Login failed");
      }
      loading := false;
    }

    /** The protected-route effect run on `path`. */
    method GuardRoute(path: string)
      modifies this`redirects
      ensures var r := Redirect(loading, tokenData.Some?, path);
        redirects == old(redirects) + (if r.Some? then [r.value] else [])
    {
      var r := Redirect(loading, tokenData.Some?, path);
      if r.Some? {
        redirects := redirects + [r.value];
      }
    }
  }
}
