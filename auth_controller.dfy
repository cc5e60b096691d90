/** The login handler: look the user up by email, compare the password, then
    encode the user into a JWT with the literal key "KEY". */
module AuthController {
  import opened Wrappers
  import opened Crypto
  import opened Http
  import opened UserModel

  const UserNotFound := "Usuário não encontrado"
  const WrongPassword := "Senha inválida"
  /** The signing key, a literal in the handler (the gate verifies with `JWT_SECRET` instead). */
  const LoginKey := "KEY"

  /** The calls the handler makes into the store, bcrypt and jwt-simple, in order. */
  datatype Call = FindOne(email: string) | Compare(plaintext: string, stored: string) | Encode(payload: Claims, key: string)

  /** The reply written and the calls made on the way. */
  datatype Outcome = Outcome(reply: Reply, calls: seq<Call>)

  /** `{ userId: user._id, ...user._doc }`: the id under `userId` plus every
      stored path, the hashed `senha` included, and no expiry or issue time. */
  function Payload(u: User): (p: Claims)
    ensures p.Keys == {"userId", "_id", "nome", "email", "senha", "type"}
    ensures Get(p, "userId") == Some(u.id) && Get(p, "_id") == Some(u.id) && Get(p, "nome") == Some(u.nome)
    ensures Get(p, "type") == Some(u.userType)
    ensures Get(p, "senha") == Some(u.senha) && Get(p, "email") == Some(u.email)
    ensures "exp" !in p && "iat" !in p && "nbf" !in p
  {
    map["userId" := u.id] + Doc(u)
  }

  /** `login(req, res)` for the body `{email, password}` against the stored users. */
  function Login(users: map<string, User>, email: string, password: string, b: Bcrypt, j: JwtSimple): (out: Outcome)
    ensures |out.calls| >= 1 && out.calls[0] == FindOne(email)
    ensures out.reply == Reply(400, Msg(UserNotFound)) <==> email !in users
    ensures email !in users ==> out.calls == [FindOne(email)]
    ensures out.reply == Reply(400, Msg(WrongPassword)) <==>
              email in users && !ComparePassword(b, users[email], password)
    ensures out.reply == Reply(400, Msg(WrongPassword)) ==>
              out.calls == [FindOne(email), Compare(password, users[email].senha)]
    ensures out.reply.status == 200 <==> email in users && ComparePassword(b, users[email], password)
    ensures out.reply.status != 200 ==> out.reply.status == 400 && out.reply.body.Msg?
    ensures out.reply.status == 200 ==>
              && out.reply.body == TokenBody(j.encode(Payload(users[email]), LoginKey))
              && out.calls == [FindOne(email), Compare(password, users[email].senha), Encode(Payload(users[email]), LoginKey)]
    ensures forall i :: 0 <= i < |out.calls| && out.calls[i].Encode? ==> i == 2 && out.reply.status == 200
  {
    if email !in users then
      Outcome(Reply(400, Msg(UserNotFound)), [FindOne(email)])
    else
      var user := users[email];
      var lookupAndCompare := [FindOne(email), Compare(password, user.senha)];
      if !ComparePassword(b, user, password) then
        Outcome(Reply(400, Msg(WrongPassword)), lookupAndCompare)
      else
        var payload := Payload(user);
        Outcome(Reply(200, TokenBody(j.encode(payload, LoginKey))), lookupAndCompare + [Encode(payload, LoginKey)])
  }

  /** The two refusals share status 400 but differ in message, so a caller can
      tell an unknown email from a wrong password. */
  lemma FailuresDistinguishable(users: map<string, User>, e1: string, e2: string, p1: string, p2: string, b: Bcrypt, j: JwtSimple)
    requires e1 !in users
    requires e2 in users && !ComparePassword(b, users[e2], p2)
    ensures Login(users, e1, p1, b, j).reply.status == Login(users, e2, p2, b, j).reply.status == 400
    ensures Login(users, e1, p1, b, j).reply != Login(users, e2, p2, b, j).reply
  {
  }
}
