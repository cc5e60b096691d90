/** The login screen: the email/password form checks, the login request and
    its two outcomes, and the redirect chosen by the user's role. */
module LoginScreen {
  import opened Wrappers
  import opened Crypto
  import opened AuthContext

  const EmptyFields := "Por favor, preencha todos os campos."
  const InvalidEmail := "Por favor, insira um email válido."
  const ShortPassword := "A senha deve ter no mínimo 6 caracteres."
  const LoginSucceeded := "Login realizado com sucesso!"
  const LoginFailed := "Falha no login. Verifique suas credenciais."
  /** The shortest password the form lets through. */
  const MinPasswordLength := 6

  /** `validateEmail`: the address contains an "@" and a ".", at any
      positions and in either order. */
  function ValidateEmail(email: string): (r: bool)
    ensures r <==> (exists i :: 0 <= i < |email| && email[i] == '@') && (exists j :: 0 <= j < |email| && email[j] == '.')
  {
    '@' in email && '.' in email
  }

  /** The message of the first check of `handleLogin` that fails, in the order
      empty fields, email shape, password length; None when all pass. */
  function FirstFailure(email: string, password: string): (m: Option<string>)
    ensures m.None? <==> email != "" && password != "" && ValidateEmail(email) && |password| >= MinPasswordLength
    ensures m == Some(EmptyFields) <==> email == "" || password == ""
    ensures m == Some(InvalidEmail) <==> email != "" && password != "" && !ValidateEmail(email)
    ensures m == Some(ShortPassword) <==>
              email != "" && password != "" && ValidateEmail(email) && |password| < MinPasswordLength
  {
    if email == "" || password == "" then Some(EmptyFields)
    else if !ValidateEmail(email) then Some(InvalidEmail)
    else if |password| < MinPasswordLength then Some(ShortPassword)
    else None
  }

  /** A password of exactly six characters passes the length check. */
  lemma SixCharactersAccepted(email: string, password: string)
    requires ValidateEmail(email) && |password| == 6
    ensures FirstFailure(email, password).None?
  {
  }

  /** The route `useEffect` pushes for a `userType`: the student area for
      "aluno", the teacher area for any other truthy value, none for null or "". */
  function RedirectTarget(userType: Option<string>): (route: Option<string>)
    ensures route.None? <==> userType.None? || userType.value == ""
    ensures route == Some("/aluno/posts") <==> userType == Some("aluno")
    ensures route == Some("/professor/posts") <==> userType.Some? && userType.value != "" && userType.value != "aluno"
  {
    if userType.None? || userType.value == "" then None
    else if userType.value == "aluno" then Some("/aluno/posts")
    else Some("/professor/posts")
  }

  datatype ToastKind = SuccessToast | ErrorToast

  /** A `Toast.show` call (all of them at the bottom of the screen). */
  datatype Toast = Toast(kind: ToastKind, text: string)

  /** The `{email, password}` body handed to `mutate`. */
  datatype Credentials = Credentials(email: string, password: string)

  /** The screen's state and the effects it has produced so far: toasts shown,
      login requests started, routes pushed. */
  class Screen {
    var email: string
    var password: string
    var toasts: seq<Toast>
    var requests: seq<Credentials>
    var routes: seq<string>
    const auth: AuthProvider

    /** The screen as first rendered, with empty fields. */
    constructor (auth: AuthProvider)
      ensures this.auth == auth
      ensures email == "" && password == "" && toasts == [] && requests == [] && routes == []
    {
      this.auth := auth;
      email, password, toasts, requests, routes := "", "", [], [], [];
    }

    /** `onChangeText` of the two inputs. */
    method Type(email: string, password: string)
      modifies this`email, this`password
      ensures this.email == email && this.password == password
    {
      this.email, this.password := email, password;
    }

    /** `handleLogin`: on the first failed check, one error toast and no
        request; when every check passes, exactly one request with the fields as typed. */
    method HandleLogin()
      modifies this`toasts, this`requests
      ensures FirstFailure(email, password).Some? ==>
                toasts == old(toasts) + [Toast(ErrorToast, FirstFailure(email, password).value)] && requests == old(requests)
      ensures FirstFailure(email, password).None? ==>
                requests == old(requests) + [Credentials(email, password)] && toasts == old(toasts)
    {
      if email == "" || password == "" {
        toasts := toasts + [Toast(ErrorToast, EmptyFields)];
        return;
      }
      if !ValidateEmail(email) {
        toasts := toasts + [Toast(ErrorToast, InvalidEmail)];
        return;
      }
      if |password| < MinPasswordLength {
        toasts := toasts + [Toast(ErrorToast, ShortPassword)];
        return;
      }
      requests := requests + [Credentials(email, password)];
    }

    /** `onSuccess(data)`: a success toast, then `login(data.token)`. */
    method OnSuccess(token: string, jwtDecode: string -> Decoded)
      modifies this`toasts, auth
      ensures toasts == old(toasts) + [Toast(SuccessToast, LoginSucceeded)]
      ensures auth.State() == LoggedIn(old(auth.State()), token, jwtDecode(token))
    {
      toasts := toasts + [Toast(SuccessToast, LoginSucceeded)];
      var _ := auth.Login(token, jwtDecode);
    }

    /** `onError`: an error toast; `login` is not called. */
    method OnError()
      modifies this`toasts
      ensures toasts == old(toasts) + [Toast(ErrorToast, LoginFailed)]
    {
      toasts := toasts + [Toast(ErrorToast, LoginFailed)];
    }

    /** The body of the `useEffect` on `userType`: push the role's route when the
        type is truthy. React decides when it runs (at mount and when `userType`
        changed); calling it is running the effect once. */
    method RedirectOnUserType()
      modifies this`routes
      ensures routes == old(routes) + match RedirectTarget(auth.userType) { case None => [] case Some(r) => [r] }
    {
      var target := RedirectTarget(auth.userType);
      if target.Some? {
        routes := routes + [target.value];
      }
    }
  }
}
