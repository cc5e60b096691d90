/** The HTTP replies the server side of the access-control path writes. */
module Http {

  /** A JSON body: `{msg}` on the error paths, `{token}` on a successful login. */
  datatype Body = Msg(msg: string) | TokenBody(token: string)

  /** `res.status(code).json(body)`; `res.json(body)` alone answers 200. */
  datatype Reply = Reply(status: int, body: Body)
}
