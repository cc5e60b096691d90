/** The bearer-token gate put in front of protected routes: it takes the second
    space-separated field of the `Authorization` header, decodes it with
    jwt-simple under the configured `JWT_SECRET`, and either records the
    decoded `userId` on the request and passes control on, or answers 403. */
module AuthMiddleware {
  import opened Wrappers
  import opened Text
  import opened Crypto
  import opened Http

  const AccessDenied := "Acesso negado"
  const InvalidToken := "Token inválido"

  /** `header && header.split(' ')[1]`: undefined without a header, the header
      itself when it is the (falsy) empty string, otherwise the second field of
      the split, or undefined when there is none. The scheme word is never looked at. */
  function TokenField(authorization: Option<string>): (token: Option<string>)
    ensures authorization.None? ==> token.None?
    ensures authorization == Some("") ==> token == Some("")
    ensures authorization.Some? && authorization.value != "" ==>
              && (token.Some? <==> ' ' in authorization.value)
              && (token.Some? ==> ' ' !in token.value)
  {
    match authorization
    case None => None
    case Some(h) =>
      if h == "" then Some(h)
      else
        var fields := Split(h, ' ');
        if |fields| > 1 then Some(fields[1]) else None
  }

  /** What the gate decides: pass on with `req.userId` set, or answer. */
  datatype Verdict = Proceed(userId: Option<string>) | Deny(reply: Reply)

  /** The middleware's decision for a header, the configured secret and jwt-simple's decode. */
  function Guard(authorization: Option<string>, secret: Option<string>, decode: (string, Option<string>) -> Option<Claims>): (v: Verdict)
    ensures !Truthy(TokenField(authorization)) <==> v == Deny(Reply(403, Msg(AccessDenied)))
    ensures v.Proceed? <==> Truthy(TokenField(authorization)) && decode(TokenField(authorization).value, secret).Some?
    ensures v.Proceed? ==> v.userId == Get(decode(TokenField(authorization).value, secret).value, "userId")
    ensures v.Deny? ==> v.reply.status == 403
    ensures v == Deny(Reply(403, Msg(InvalidToken))) <==> Truthy(TokenField(authorization)) && decode(TokenField(authorization).value, secret).None?
  {
    var token := TokenField(authorization);
    if !Truthy(token) then Deny(Reply(403, Msg(AccessDenied)))
    else
      match decode(token.value, secret)
      case Some(decoded) => Proceed(Get(decoded, "userId"))
      case None => Deny(Reply(403, Msg(InvalidToken)))
  }

  /** The token is the field right after the first space, whatever word precedes it. */
  lemma TokenIsSecondField(scheme: string, token: string, rest: string)
    requires ' ' !in scheme && ' ' !in token
    ensures TokenField(Some(scheme + " " + token)) == Some(token)
    ensures TokenField(Some(scheme + " " + token + " " + rest)) == Some(token)
  {
    SplitAfterPiece(scheme, ' ', token);
    SplitWhole(token, ' ');
    SplitAfterPiece(scheme, ' ', token + " " + rest);
    SplitAfterPiece(token, ' ', rest);
    assert scheme + " " + token + " " + rest == scheme + [' '] + (token + [' '] + rest);
  }

  /** A non-empty header yields a field to decode exactly when it contains a space. */
  lemma TokenPresentIffSpace(h: string)
    requires h != ""
    ensures TokenField(Some(h)).Some? <==> ' ' in h
  {
  }

  /** The scheme word is not checked: "Token abc" and "Bearer abc" hand the same string to decode. */
  lemma SchemeIgnored(secret: Option<string>, decode: (string, Option<string>) -> Option<Claims>)
    ensures Guard(Some("Token abc"), secret, decode) == Guard(Some("Bearer abc"), secret, decode)
    ensures TokenField(Some("Token abc")) == Some("abc")
    ensures TokenField(Some("Bearer abc")) == Some("abc")
  {
    TokenIsSecondField("Token", "abc", "");
    TokenIsSecondField("Bearer", "abc", "");
    assert "Token" + " " + "abc" == "Token abc";
    assert "Bearer" + " " + "abc" == "Bearer abc";
  }

  /** "Bearer a b" hands "a" to decode; "Bearer" alone and "Bearer  x" (two spaces) are denied as missing. */
  lemma HeaderExamples(secret: Option<string>, decode: (string, Option<string>) -> Option<Claims>)
    ensures TokenField(Some("Bearer a b")) == Some("a")
    ensures Guard(Some("Bearer"), secret, decode) == Deny(Reply(403, Msg(AccessDenied)))
    ensures Guard(Some("Bearer  x"), secret, decode) == Deny(Reply(403, Msg(AccessDenied)))
    ensures Guard(None, secret, decode) == Deny(Reply(403, Msg(AccessDenied)))
  {
    TokenIsSecondField("Bearer", "a", "b");
    assert "Bearer" + " " + "a" + " " + "b" == "Bearer a b";
    TokenIsSecondField("Bearer", "", "x");
    assert "Bearer" + " " + "" + " " + "x" == "Bearer  x";
    SplitWhole("Bearer", ' ');
  }

  /** One pass of the middleware over `(req, res, next)`: the request's
      `userId`, the reply written on `res`, how often `next` was called, and the
      decode calls made (token and key), all observable after the call. */
  class Exchange {
    const authorization: Option<string>
    var userId: Option<string>
    var reply: Option<Reply>
    var nextCalls: nat
    var decodeCalls: seq<(string, Option<string>)>

    /** A request carrying the given header, before any middleware ran. */
    constructor (authorization: Option<string>)
      ensures this.authorization == authorization
      ensures userId == None && reply == None && nextCalls == 0 && decodeCalls == []
    {
      this.authorization := authorization;
      userId, reply, nextCalls, decodeCalls := None, None, 0, [];
    }

    /** The exported middleware, run with the configured `JWT_SECRET`. */
    method Handle(secret: Option<string>, decode: (string, Option<string>) -> Option<Claims>)
      modifies this
      ensures Guard(authorization, secret, decode).Proceed? ==>
                && userId == Guard(authorization, secret, decode).userId
                && nextCalls == old(nextCalls) + 1 && reply == old(reply)
      ensures Guard(authorization, secret, decode).Deny? ==>
                && userId == old(userId) && nextCalls == old(nextCalls)
                && reply == Some(Guard(authorization, secret, decode).reply)
      ensures decodeCalls == old(decodeCalls) +
                if Truthy(TokenField(authorization)) then [(TokenField(authorization).value, secret)] else []
    {
      var token := TokenField(authorization);
      if !Truthy(token) {
        reply := Some(Reply(403, Msg(AccessDenied)));
        return;
      }
      decodeCalls := decodeCalls + [(token.value, secret)];
      var decoded := decode(token.value, secret);
      if decoded.Some? {
        userId := Get(decoded.value, "userId");
        nextCalls := nextCalls + 1;
      } else {
        reply := Some(Reply(403, Msg(InvalidToken)));
      }
    }
  }
}
