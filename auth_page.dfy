/** The sign-in / registration page (`src/app/auth/page.tsx`): the submit handler with its
    local registration checks, and the switch between the two forms. */
module AuthPage {
  import opened Wrappers

  const MsgMismatch: string := "Las contraseñas no coinciden"
  const MsgTooShort: string := "La contraseña debe tener al menos 6 caracteres"
  const MsgLoginOk: string := "¡Inicio de sesión exitoso!"
  const MsgSignUpOk: string := "¡Registro exitoso! Revisa tu correo para confirmar tu cuenta."
  const MsgLoginFailed: string := "Error al iniciar sesión"
  const MsgSignUpFailed: string := "Error al registrarse"

  /** The registration checks, in order: the error to show, or `None` when sign-up may be
      attempted. */
  function RegistrationCheck(password: string, confirmPassword: string): Option<string>
  {
    if password != confirmPassword then Some(MsgMismatch)
    else if |password| < 6 then Some(MsgTooShort)
    else None
  }

  /** Sign-up is attempted exactly when the passwords match and have at least six
      characters; a mismatch is reported first, even for a short password. */
  lemma RegistrationCheckSpec(password: string, confirmPassword: string)
    ensures RegistrationCheck(password, confirmPassword) == None <==>
      password == confirmPassword && |password| >= 6
    ensures password != confirmPassword ==> RegistrationCheck(password, confirmPassword) == Some(MsgMismatch)
    ensures password == confirmPassword && |password| < 6 ==>
      RegistrationCheck(password, confirmPassword) == Some(MsgTooShort)
  {
  }

  /** What the authentication service answers: success, or an error whose `message` may be
      empty. A thrown exception is the same as an error. */
  datatype AuthResult = Accepted | Rejected(message: string)

  /** A call made to the authentication service. */
  datatype AuthCall = SignIn(email: string, password: string) | SignUp(email: string, password: string)

  /** `error.message || fallback`. */
  function ErrorText(message: string, fallback: string): string
  {
    if message != "" then message else fallback
  }

  class Page {
    var isLogin: bool
    var email: string
    var password: string
    var confirmPassword: string
    var loading: bool
    var error: Option<string>
    var success: Option<string>
    /** The calls made to the authentication service, in order. */
    var calls: seq<AuthCall>
    /** Set when the delayed navigation to the profile page has been scheduled. */
    var goToProfile: bool

    constructor ()
      ensures isLogin && email == "" && password == "" && confirmPassword == ""
      ensures !loading && error == None && success == None && calls == [] && !goToProfile
    {
      isLogin := true;
      email, password, confirmPassword := "", "", "";
      loading := false;
      error, success := None, None;
      calls := [];
      goToProfile := false;
    }

    /** `handleSubmit`, with the service's answer given as `result`. */
    method HandleSubmit(result: AuthResult)
      modifies this
      ensures !loading && isLogin == old(isLogin)
      ensures old(isLogin) ==>
        && calls == old(calls) + [SignIn(old(email), old(password))]
        && email == old(email) && password == old(password) && confirmPassword == old(confirmPassword)
        && (result.Accepted? ==> success == Some(MsgLoginOk) && error == None && goToProfile)
        && (result.Rejected? ==>
              error == Some(ErrorText(result.message, MsgLoginFailed)) && success == None
              && goToProfile == old(goToProfile))
      ensures !old(isLogin) && RegistrationCheck(old(password), old(confirmPassword)).Some? ==>
        && calls == old(calls) && error == RegistrationCheck(old(password), old(confirmPassword))
        && success == None
        && email == old(email) && password == old(password) && confirmPassword == old(confirmPassword)
      ensures !old(isLogin) && RegistrationCheck(old(password), old(confirmPassword)).None? ==>
        && calls == old(calls) + [SignUp(old(email), old(password))]
        && (result.Accepted? ==>
              success == Some(MsgSignUpOk) && error == None
              && email == "" && password == "" && confirmPassword == "")
        && (result.Rejected? ==>
              error == Some(ErrorText(result.message, MsgSignUpFailed)) && success == None
              && email == old(email) && password == old(password) && confirmPassword == old(confirmPassword))
      ensures !old(isLogin) ==> goToProfile == old(goToProfile)
    {
      loading := true;
      error := None;
      success := None;
      if isLogin {
        calls := calls + [SignIn(email, password)];
        match result {
          case Accepted =>
            success := Some(MsgLoginOk);
            goToProfile := true;
          case Rejected(m) =>
            error := Some(ErrorText(m, MsgLoginFailed));
        }
      } else {
        if password != confirmPassword {
          error := Some(MsgMismatch);
          loading := false;
          return;
        }
        if |password| < 6 {
          error := Some(MsgTooShort);
          loading := false;
          return;
        }
        calls := calls + [SignUp(email, password)];
        match result {
          case Accepted =>
            success := Some(MsgSignUpOk);
            email := "";
            password := "";
            confirmPassword := "";
          case Rejected(m) =>
            error := Some(ErrorText(m, MsgSignUpFailed));
        }
      }
      loading := false;
    }

    /** `switchForm`: the other form, with messages and the confirmation cleared and the
        email and password kept. */
    method SwitchForm()
      modifies this
      ensures isLogin == !old(isLogin)
      ensures error == None && success == None && confirmPassword == ""
      ensures email == old(email) && password == old(password)
      ensures loading == old(loading) && calls == old(calls) && goToProfile == old(goToProfile)
    {
      isLogin := !isLogin;
      error := None;
      success := None;
      confirmPassword := "";
    }
  }
}
