/** The three foreign libraries of the access-control path, as opaque functions:
    bcryptjs (password hashing), jwt-simple (server-side token encode/decode) and
    jwt-decode (client-side payload reading). Nothing here states how they work;
    the ghost predicates name the few facts about them that some lemmas assume. */
module Crypto {
  import opened Wrappers

  /** A JWT payload as a JSON object: field name to value (values kept as strings). */
  type Claims = map<string, string>

  /** JavaScript property access `c.name`: undefined when the field is absent. */
  function Get(c: Claims, name: string): Option<string>
  {
    if name in c then Some(c[name]) else None
  }

  /** bcryptjs: `hash(plaintext, rounds)` draws a random salt, here an explicit
      argument; `compare(plaintext, hash)` is the check. */
  datatype Bcrypt = Bcrypt(hash: (string, nat, string) -> string, compare: (string, string) -> bool)

  /** The one relation the code relies on: a plaintext matches every hash made from it. */
  ghost predicate Matches(b: Bcrypt)
  {
    forall p, rounds, salt :: b.compare(p, b.hash(p, rounds, salt))
  }

  /** jwt-simple: `encode(payload, key)` and `decode(token, key)`, the latter
      throwing (None) on a token it refuses; the key of `decode` may be undefined. */
  datatype JwtSimple = JwtSimple(encode: (Claims, string) -> string, decode: (string, Option<string>) -> Option<Claims>)

  /** Decoding with the signing key gives back the payload, for a payload
      without `exp` or `nbf`: after the signature check, jwt-simple's decode
      also refuses a payload whose `exp` has passed or whose `nbf` is still to come. */
  ghost predicate RoundTrips(j: JwtSimple)
  {
    forall c, k :: "exp" !in c && "nbf" !in c ==> j.decode(j.encode(c, k), Some(k)) == Some(c)
  }

  /** Decoding with any other key (or none) is refused. */
  ghost predicate KeyBound(j: JwtSimple)
  {
    forall c, k, k' :: k' != Some(k) ==> j.decode(j.encode(c, k), k') == None
  }

  /** Tokens are in the compact serialisation of RFC 7519: never empty, never containing a space. */
  ghost predicate CompactTokens(j: JwtSimple)
  {
    forall c, k :: j.encode(c, k) != "" && ' ' !in j.encode(c, k)
  }

  /** What jwt-decode's `jwtDecode(token)` gives: it throws, or yields a falsy
      value, or a truthy value whose `type` field may be undefined. */
  datatype Decoded = Unreadable | FalsyPayload | ObjectPayload(typeField: Option<string>)

  /** jwt-decode reads back, unverified, the `type` field of a payload jwt-simple encoded. */
  ghost predicate ReadsIssued(jwtDecode: string -> Decoded, j: JwtSimple)
  {
    forall c, k :: jwtDecode(j.encode(c, k)) == ObjectPayload(Get(c, "type"))
  }
}
