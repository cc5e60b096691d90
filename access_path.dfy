/** The login and access-control path end to end: a record saved through the
    schema can log in; the token it receives passes the bearer gate only when
    the gate's `JWT_SECRET` happens to equal the login's literal key; and the
    client routes by the role read back from that token. */
module AccessPath {
  import opened Wrappers
  import opened Crypto
  import opened Http
  import opened UserModel
  import opened AuthMiddleware
  import opened AuthController
  import opened AuthContext
  import opened LoginScreen

  /** A user created with a plaintext password logs in with that password and
      receives the token that encodes its stored record under "KEY". */
  lemma CreatedUserCanLogIn(users: map<string, User>, u: User, b: Bcrypt, salt: string, j: JwtSimple)
    requires Matches(b)
    requires Create(users, u, b, salt).Success?
    ensures var stored := Create(users, u, b, salt).value;
      Login(stored, u.email, u.senha, b, j).reply == Reply(200, TokenBody(j.encode(Payload(stored[u.email]), LoginKey)))
  {
    CreatedPasswordMatches(users, u, b, salt);
  }

  /** The token a successful login returns, sent back as `<scheme> <token>`,
      passes the gate exactly when the gate's secret is the login's literal
      key, and then the request carries the user's id; with any other secret
      (or none) every issued token is refused as invalid. */
  lemma IssuedTokenAcceptedOnlyUnderLoginKey(users: map<string, User>, email: string, password: string,
                                             b: Bcrypt, j: JwtSimple, scheme: string, secret: Option<string>)
    requires RoundTrips(j) && KeyBound(j) && CompactTokens(j)
    requires Login(users, email, password, b, j).reply.status == 200
    requires ' ' !in scheme
    ensures var token := Login(users, email, password, b, j).reply.body.token;
      var v := Guard(Some(scheme + " " + token), secret, j.decode);
      && (v.Proceed? <==> secret == Some(LoginKey))
      && (v.Proceed? ==> v.userId == Some(users[email].id))
      && (v.Deny? ==> v.reply == Reply(403, Msg(InvalidToken)))
  {
    var payload := Payload(users[email]);
    var token := j.encode(payload, LoginKey);
    assert token != "" && ' ' !in token;
    TokenIsSecondField(scheme, token, "");
    assert TokenField(Some(scheme + " " + token)) == Some(token);
    if secret == Some(LoginKey) {
      assert j.decode(token, secret) == Some(payload);
    } else {
      assert j.decode(token, secret) == None;
    }
  }

  /** After a successful login the client stores the token, reads the user's
      stored `type` from it, and the screen then routes to the student area
      exactly for "aluno" (any other non-empty type goes to the teacher area). */
  lemma ClientRoutesByStoredType(users: map<string, User>, email: string, password: string,
                                 b: Bcrypt, j: JwtSimple, jwtDecode: string -> Decoded, s: AuthState)
    requires ReadsIssued(jwtDecode, j) && CompactTokens(j)
    requires Login(users, email, password, b, j).reply.status == 200
    ensures var token := Login(users, email, password, b, j).reply.body.token;
      var after := LoggedIn(s, token, jwtDecode(token));
      var role := users[email].userType;
      && after == AuthState(true, Some(role), Some(token))
      && Validated(after).0
      && (RedirectTarget(after.userType) == Some("/aluno/posts") <==> role == "aluno")
      && (RedirectTarget(after.userType) == Some("/professor/posts") <==> role != "" && role != "aluno")
  {
    var payload := Payload(users[email]);
    var token := j.encode(payload, LoginKey);
    assert jwtDecode(token) == ObjectPayload(Get(payload, "type"));
    assert token != "";
  }
}
