/** The client's authentication state (`AuthProvider`): three fields moved by
    `login`, `logout` and `validateToken`. */
module AuthContext {
  import opened Wrappers
  import opened Text
  import opened Crypto

  /** `isAuthenticated`, `userType` (null or undefined as None) and `token`. */
  datatype AuthState = AuthState(isAuthenticated: bool, userType: Option<string>, token: Option<string>)

  /** The state the provider starts from, and the one `logout` restores. */
  const Initial := AuthState(false, None, None)

  /** The state after `login(t)` given what `jwtDecode(t)` did: unchanged when it
      threw; otherwise the token is stored and the user authenticated, and the
      decoded `type` replaces `userType` only when the decoded value is truthy. */
  function LoggedIn(s: AuthState, t: string, d: Decoded): (r: AuthState)
    ensures d.Unreadable? ==> r == s
    ensures !d.Unreadable? ==> r.token == Some(t) && r.isAuthenticated
    ensures r.userType == if d.ObjectPayload? then d.typeField else s.userType
  {
    match d
    case Unreadable => s
    case FalsyPayload => s.(token := Some(t), isAuthenticated := true)
    case ObjectPayload(typeField) => AuthState(true, typeField, Some(t))
  }

  /** What `validateToken` returns and the state it leaves: a truthy token
      marks the user authenticated, anything else logs out. */
  function Validated(s: AuthState): (r: (bool, AuthState))
    ensures r.0 <==> s.token.Some? && s.token.value != ""
    ensures r.0 ==> r.1 == s.(isAuthenticated := true)
    ensures !r.0 ==> r.1 == Initial
  {
    if Truthy(s.token) then (true, s.(isAuthenticated := true)) else (false, Initial)
  }

  /** After a `login` whose decode did not throw, the token is kept and the
      user is authenticated; `validateToken` then answers true iff the token is non-empty. */
  lemma LoginThenValidate(s: AuthState, t: string, d: Decoded)
    requires !d.Unreadable?
    ensures LoggedIn(s, t, d).token == Some(t) && LoggedIn(s, t, d).isAuthenticated
    ensures Validated(LoggedIn(s, t, d)).0 <==> t != ""
  {
  }

  /** The check run once when the provider mounts finds no token, answers
      false and leaves the initial state. */
  lemma MountValidationLogsOut()
    ensures Validated(Initial) == (false, Initial)
  {
  }

  /** The provider component's state, updated in place by its three handlers. */
  class AuthProvider {
    var isAuthenticated: bool
    var userType: Option<string>
    var token: Option<string>

    /** The three fields as one value. */
    function State(): AuthState
      reads this
    {
      AuthState(isAuthenticated, userType, token)
    }

    /** The `useState` initial values. */
    constructor ()
      ensures State() == Initial
    {
      isAuthenticated, userType, token := false, None, None;
    }

    /** `login(t)`: decode first (a throw rejects the call with no state
        change), then set the token, the truthy payload's type, and the flag. */
    method Login(t: string, jwtDecode: string -> Decoded) returns (ok: bool)
      modifies this
      ensures ok <==> !jwtDecode(t).Unreadable?
      ensures State() == LoggedIn(old(State()), t, jwtDecode(t))
    {
      var decoded := jwtDecode(t);
      if decoded.Unreadable? {
        return false;
      }
      token := Some(t);
      if decoded.ObjectPayload? {
        userType := decoded.typeField;
      }
      isAuthenticated := true;
      ok := true;
    }

    /** `logout()`: back to the initial values, whatever the state was. */
    method Logout()
      modifies this
      ensures State() == Initial
    {
      token := None;
      userType := None;
      isAuthenticated := false;
    }

    /** `validateToken()`: true and authenticated for a truthy token, otherwise `logout()` and false. */
    method ValidateToken() returns (valid: bool)
      modifies this
      ensures (valid, State()) == Validated(old(State()))
    {
      if Truthy(token) {
        isAuthenticated := true;
        return true;
      } else {
        Logout();
        return false;
      }
    }
  }

  /** Logging out twice is the same as logging out once, and nothing else is needed to reach the initial state. */
  method LogoutIdempotent(p: AuthProvider)
    modifies p
    ensures p.State() == Initial
  {
    p.Logout();
    var once := p.State();
    p.Logout();
    assert p.State() == once;
  }
}
