# Login and access control of ProjetoApi, in Dafny

This project models the login and access-control path of ProjetoApi, an Express/Mongoose API
with a React Native client:

- **Bearer-token gate** (`api/middleware/authMiddleware.js`): the token is the second
  space-separated field of the `Authorization` header, the scheme word is never checked, a
  missing or empty field is refused with 403 "Acesso negado", a token jwt-simple refuses with
  403 "Token inválido", and an accepted one sets `req.userId` and calls `next` once
  (`AuthMiddleware.Guard`, `AuthMiddleware.Exchange.Handle`).
- **Login handler** (`api/controllers/authController.js`): lookup by email, then the bcrypt
  comparison, then a JWT signed with the literal key `"KEY"` over the whole stored record
  (hashed `senha` included, no expiry). The two failures share status 400 but carry
  different messages (`AuthController.Login`).
- **Credential record** (`api/models/user.js`): four required string paths, a unique email
  (the store is a map from email to record), the pre-save hook that hashes `senha` with cost 10
  only when it was modified, and `comparePassword` (`UserModel`).
- **Client auth state** (`mobile/context/AuthContext.tsx`): `isAuthenticated`, `userType` and
  `token`, moved in place by `login`, `logout` and `validateToken` (`AuthContext.AuthProvider`,
  specified by the pure `LoggedIn`/`Validated`).
- **Login screen** (`mobile/app/index.tsx`): the ordered form checks, the request, the two
  request outcomes and the role redirect (`LoginScreen`).

bcryptjs, jwt-simple and jwt-decode are opaque: they are function-typed arguments
(`Crypto.Bcrypt`, `Crypto.JwtSimple`, a `string -> Decoded` arrow). Nothing is claimed about
their internals. The few facts some lemmas assume are named ghost predicates: `Matches`,
`RoundTrips`, `KeyBound`, `CompactTokens` and `ReadsIssued`. The gate's verifying key
(`JWT_SECRET`) is a parameter, separate from the login's literal `"KEY"`.
`AccessPath.IssuedTokenAcceptedOnlyUnderLoginKey` shows the effect of that split: an issued
token passes the gate exactly when the configured secret equals `"KEY"`.

The code has no token expiry, no check of the `Bearer` scheme, no closed role set, no uniform
login-failure reply and no constant-time comparison, and this model adds none of them: no expiry
claim is added or checked, any scheme word passes, `type` is any string, and the two login
failures are told apart.

Modules: `Wrappers` (Option, Result), `Text` (JavaScript `split` and truthiness), `Crypto`,
`Http`, `UserModel`, `AuthMiddleware`, `AuthController`, `AuthContext`, `LoginScreen`, and
`AccessPath` (lemmas joining them end to end).

## Model

| member | source | states |
|---|---|---|
| `Text.Split` | api/middleware/authMiddleware.js:7 | `split(' ')` yields at least one field; no field contains a space; there is exactly one field iff the string has no space |
| `Text.JoinSplit` | api/middleware/authMiddleware.js:7 | gluing the fields back with single spaces gives the original header: the split loses nothing |
| `Text.SplitJoin` | api/middleware/authMiddleware.js:7 | splitting space-free fields joined by spaces gives those fields back |
| `AuthMiddleware.TokenField` | api/middleware/authMiddleware.js:7 | no header gives no token; the empty header gives the (falsy) empty string; a non-empty header gives a field iff it contains a space, and that field holds no space |
| `AuthMiddleware.Guard` | api/middleware/authMiddleware.js:6-19 | falsy token field ⇔ 403 "Acesso negado"; pass ⇔ truthy field and decode under `JWT_SECRET` succeeds, with `userId` the decoded `userId`; failed decode ⇔ 403 "Token inválido"; every refusal is 403 |
| `AuthMiddleware.TokenIsSecondField` | api/middleware/authMiddleware.js:7 | for any space-free scheme word and token, the field handed to decode is exactly the token, with or without trailing fields |
| `AuthMiddleware.TokenPresentIffSpace` | api/middleware/authMiddleware.js:7-10 | a non-empty header yields a token field iff it contains a space |
| `AuthMiddleware.SchemeIgnored` | api/middleware/authMiddleware.js:7 | "Token abc" and "Bearer abc" get the same verdict, and each hands "abc" to decode |
| `AuthMiddleware.Exchange.constructor` | api/middleware/authMiddleware.js:6 | the request the middleware receives: the given header, no `userId`, nothing written, `next` not called, no decode call |
| `AuthMiddleware.HeaderExamples` | api/middleware/authMiddleware.js:7-10 | "Bearer a b" yields "a"; "Bearer", "Bearer  x" and a missing header are refused with 403 "Acesso negado" |
| `AuthMiddleware.Exchange.Handle` | api/middleware/authMiddleware.js:6-19 | on pass: `userId` set, `next` called once, nothing written; on refusal: the 403 reply written, `next` not called, `userId` untouched; decode is called once with (token, `JWT_SECRET`) iff the field is truthy, otherwise never |
| `UserModel.Doc` | api/models/user.js:4-9 | the stored document has exactly `_id` and the four schema paths, each holding the record's value |
| `UserModel.Create` | api/models/user.js:4-15 | a record missing a required path is refused; an email already stored is refused as a duplicate key; otherwise only that email is added, other records are untouched, and the stored record is the one given with `senha` replaced by `hash(plaintext, 10, salt)` |
| `UserModel.SaveNew` | api/models/user.js:4-15 | saving a new document step by step (validation, then the document's pre-save hook in place, then the unique index) gives exactly `Create`'s outcome |
| `UserModel.UserDocument.New` | api/models/user.js:4-9 | a new document holds the given record and counts `senha` as modified, so the hook will hash it |
| `UserModel.CreateKeepsEmailsUnique` | api/models/user.js:6 | creating a record preserves the unique-email invariant of the store |
| `UserModel.CreatedPasswordMatches` | api/models/user.js:11-19 | what creation stores is the hash of the plaintext, and under bcrypt's match relation `comparePassword(plaintext)` holds of the stored record |
| `UserModel.PreSaved` | api/models/user.js:11-15 | the hook changes no path but `senha`, and hashes it with cost 10 iff it was modified |
| `UserModel.PreSavedUnmodifiedIdempotent` | api/models/user.js:12 | with `senha` unmodified the hook leaves the record as it was, however often it runs |
| `UserModel.ComparePassword` | api/models/user.js:17-19 | with the plaintext first and the stored hash second, under bcrypt's match relation any stored hash made from the plaintext (whatever rounds and salt) is accepted |
| `UserModel.ComparePasswordAfterPreSave` | api/models/user.js:17-19 | plaintext-first, hash-second: comparing the plaintext against the hash the hook stored succeeds |
| `UserModel.UserDocument.PreSave` | api/models/user.js:11-15 | in place: an unmodified document is left unchanged; a modified one has `senha` replaced by its cost-10 hash |
| `AuthController.Payload` | api/controllers/authController.js:22 | the payload has exactly `userId` and the stored paths, with `userId` and `_id` both the record's id and `nome`, `email`, the hashed `senha` and `type` the record's values; no `exp` or `iat` |
| `AuthController.Login` | api/controllers/authController.js:8-26 | lookup is always the first call; unknown email ⇔ 400 "Usuário não encontrado" with no comparison; known email with a failing compare ⇔ 400 "Senha inválida"; 200 ⇔ compare succeeds, with body exactly `{token: encode(payload, "KEY")}`; encode is the third call and only on success |
| `AuthController.FailuresDistinguishable` | api/controllers/authController.js:13-20 | both refusals are 400, yet their replies differ |
| `AuthContext.LoggedIn` | mobile/context/AuthContext.tsx:22-31 | a throwing decode leaves the state as it was; otherwise the token is stored and the user authenticated; `userType` becomes the decoded `type` only for a truthy decoded value, and stays as it was otherwise |
| `AuthContext.Validated` | mobile/context/AuthContext.tsx:41-48 | true iff the token is non-null and non-empty, then only `isAuthenticated` is set; false leaves the initial state |
| `AuthContext.LoginThenValidate` | mobile/context/AuthContext.tsx:22-31 | after a login whose decode did not throw, the token is stored, the user is authenticated, and validation then succeeds iff the token is non-empty |
| `AuthContext.MountValidationLogsOut` | mobile/context/AuthContext.tsx:51-53 | the check run at mount, on the initial state, answers false and leaves the initial state |
| `AuthContext.AuthProvider.constructor` | mobile/context/AuthContext.tsx:17-19 | initial state: not authenticated, `userType` null, `token` null |
| `AuthContext.AuthProvider.Login` | mobile/context/AuthContext.tsx:22-31 | succeeds iff decode does not throw; the new state is `LoggedIn(old state, t, decode(t))`, in which `userType` changes only for a truthy decoded value |
| `AuthContext.AuthProvider.Logout` | mobile/context/AuthContext.tsx:34-38 | all three fields are back to their initial values, whatever they were |
| `AuthContext.AuthProvider.ValidateToken` | mobile/context/AuthContext.tsx:41-49 | the answer and the new state are those of `Validated` on the old state |
| `AuthContext.LogoutIdempotent` | mobile/context/AuthContext.tsx:34-38 | logging out twice leaves the same state as once: the initial state |
| `LoginScreen.ValidateEmail` | mobile/app/index.tsx:16-18 | an email is accepted iff some position holds "@" and some position holds ".", in any order |
| `LoginScreen.FirstFailure` | mobile/app/index.tsx:50-76 | the first failing check is reported: empty fields ⇔ either field empty; bad email ⇔ both filled and the email is invalid; short password ⇔ everything earlier passes and the length is below 6; nothing ⇔ all pass |
| `LoginScreen.SixCharactersAccepted` | mobile/app/index.tsx:69-76 | a valid email with a password of exactly 6 characters passes every check |
| `LoginScreen.RedirectTarget` | mobile/app/index.tsx:81-85 | "/aluno/posts" ⇔ `userType` is "aluno"; "/professor/posts" ⇔ any other truthy value; no route ⇔ null or empty |
| `LoginScreen.Screen.constructor` | mobile/app/index.tsx:29-30 | the screen starts with both fields empty and no toast, request or route |
| `LoginScreen.Screen.Type` | mobile/app/index.tsx:92-103 | the `onChangeText` setters store the typed email and password as they are |
| `LoginScreen.Screen.HandleLogin` | mobile/app/index.tsx:50-79 | a failing check shows exactly its one error toast and starts no request; when all pass, exactly one request with the unmodified `{email, password}` and no toast |
| `LoginScreen.Screen.OnSuccess` | mobile/app/index.tsx:33-40 | a success toast, then the auth state becomes that of `login(data.token)` |
| `LoginScreen.Screen.OnError` | mobile/app/index.tsx:41-47 | an error toast only; `login` is not called and the auth state is not touched |
| `LoginScreen.Screen.RedirectOnUserType` | mobile/app/index.tsx:81-85 | pushes the route of `RedirectTarget(userType)` when there is one, nothing otherwise |
| `AccessPath.CreatedUserCanLogIn` | api/controllers/authController.js:11-25 | a user saved with a plaintext password logs in with it and receives `encode(payload of the stored record, "KEY")` |
| `AccessPath.IssuedTokenAcceptedOnlyUnderLoginKey` | api/middleware/authMiddleware.js:7-18 | assuming jwt-simple gives back any payload without `exp` or `nbf` under its signing key (the login payload has neither), an issued token sent as `<scheme> <token>` passes the gate iff `JWT_SECRET` is "KEY", and then yields the user's id; under any other or missing secret it is refused with 403 "Token inválido" |
| `AccessPath.ClientRoutesByStoredType` | mobile/context/AuthContext.tsx:22-31 | after a successful login the client is authenticated with the issued token and the stored `type`, validation succeeds, and the redirect is to the student area iff that type is "aluno" |

## Left out

- bcryptjs, jwt-simple and jwt-decode internals (salt generation, hashing, HMAC, base64url, JSON): foreign libraries, modelled as opaque functions. The salt `bcrypt.hash` draws at random is an explicit argument. No cryptographic property is claimed; the lemmas that need one take it as a named hypothesis.
- Mongoose and MongoDB: the connection, `findOne`, `save` of an existing document, schema casting, the `__v` version key, and store errors. The store is a map from email to record, and `findOne({email})` is a lookup in it.
- JSON values inside token payloads are modelled as strings; ObjectId and number values are not distinguished from strings.
- `console.log(user)` in the login handler: output only.
- A request body whose `email` or `password` is missing or of another JSON type: the model takes both as strings. `bodyParser.json()` lets any JSON value through, and an object such as `{"$ne": null}` reaches `findOne` as a query operator, so the lookup is then no longer by email. In the code, `findOne` with an undefined email and `bcrypt.compare` with an undefined password behave in ways set by the libraries, and a thrown error there is not caught.
- `LoginScreen.FirstFailure`: the password length is counted in characters, not JavaScript's UTF-16 code units, so a password with characters outside the Basic Multilingual Plane can count shorter here than in the app.
- React details: asynchronous handlers, batched state updates and stale closures are not modelled. Each handler is one sequential step on the current state. The un-awaited `login` in `onSuccess` is treated as completing within that step.
- UI, networking and navigation: rendering, styles, the disabled button while loading, Toast positions, the axios request to `/api/auth/login`, and expo-router beyond the pushed route. `Screen.requests` records each `mutate` call.
- When the redirect effect runs: React runs it at mount and whenever `userType` changed. `Screen.RedirectOnUserType` is the effect's body, and a caller that runs it twice with the same type pushes the route twice, which the app does not do.
- `useAuth` throwing outside an `AuthProvider`: React wiring.
- Entity CRUD controllers, route wiring and the Swagger setup: data-access glue outside the login and access-control path.
