/** The patient sign-in / sign-up form (src/pages/Auth.tsx): the validation order of
    `handleSubmit`, what it does with the provider's result, and the redirect once the
    session is authenticated. */
module AuthPage {
  import opened Wrappers
  import opened AuthContext

  const MismatchError: string := "Parolele nu se potrivesc"
  const ShortPasswordError: string := "Parola trebuie să aibă cel puțin 6 caractere"
  const SignupSuccess: string := "Contul a fost creat cu succes! Verifică emailul pentru confirmare."

  /** `result.error` where `result` is the boolean the provider returns: a boolean has no
      `error` property, so the read is always `undefined`. */
  function ErrorOf(result: bool): (e: Option<string>)
    ensures e.None?
  {
    None
  }

  /** The effect watching `isAuthenticated`: the path it navigates to, if any. */
  function RedirectTarget(isAuthenticated: bool): (path: Option<string>)
    ensures path.Some? <==> isAuthenticated
    ensures path.Some? ==> path.value == "/dashboard"
  {
    if isAuthenticated then Some("/dashboard") else None
  }

  class AuthForm {
    var isLogin: bool
    var email: string
    var password: string
    var confirmPassword: string
    var firstName: string
    var lastName: string
    var phone: string
    var dateOfBirth: string
    var error: string
    var success: string
    const auth: AuthProvider
    /** Every value written to `error`, in order. */
    ghost var errorLog: seq<string>

    constructor (auth: AuthProvider)
      ensures this.auth == auth && isLogin
      ensures email == "" && password == "" && confirmPassword == ""
      ensures firstName == "" && lastName == "" && phone == "" && dateOfBirth == ""
      ensures error == "" && success == "" && errorLog == []
    {
      this.auth := auth;
      isLogin := true;
      email, password, confirmPassword := "", "", "";
      firstName, lastName, phone, dateOfBirth := "", "", "", "";
      error, success := "", "";
      errorLog := [];
    }

    /** The sign-up payload built from the form. */
    function Payload(): (d: SignupData)
      reads this
      ensures d.email == email && d.password == password && d.firstName == firstName
      ensures d.lastName == lastName && d.phone == phone && d.dateOfBirth == dateOfBirth
    {
      SignupData(email, password, firstName, lastName, phone, dateOfBirth)
    }

    /** `handleSubmit`. Error and success are cleared first. In login mode the provider is
        called and, its result having no `error`, no error is ever shown. In sign-up mode a
        mismatch is reported before a short password, either stops before the provider is
        called, and otherwise all six fields are forwarded and the success message shown. */
    method HandleSubmit(now: nat)
      modifies this`error, this`success, this`errorLog, auth
      ensures isLogin ==> auth.calls == old(auth.calls) + [LoginCall(email, password)]
      ensures isLogin ==> error == "" && success == "" && errorLog == old(errorLog) + [""]
      ensures isLogin ==> (auth.patient == (if LoginAccepted(email, password) then Some(MockPatient(email)) else old(auth.patient))
        && auth.stored == (if LoginAccepted(email, password) then auth.patient else old(auth.stored))
        && !auth.loading && auth.loadingLog == old(auth.loadingLog) + [true, false])
      ensures !isLogin && password != confirmPassword
        ==> (error == MismatchError && success == "" && errorLog == old(errorLog) + ["", MismatchError]
          && unchanged(auth))
      ensures !isLogin && password == confirmPassword && |password| < 6
        ==> (error == ShortPasswordError && success == "" && errorLog == old(errorLog) + ["", ShortPasswordError]
          && unchanged(auth))
      ensures !isLogin && password == confirmPassword && |password| >= 6
        ==> (auth.calls == old(auth.calls) + [SignupCall(Payload())]
          && auth.patient == Some(NewPatient(Payload(), now)) && auth.stored == auth.patient
          && !auth.loading && auth.loadingLog == old(auth.loadingLog) + [true, false]
          && error == "" && success == SignupSuccess && errorLog == old(errorLog) + [""])
      ensures !isLogin ==> (auth.calls == old(auth.calls) <==> password != confirmPassword || |password| < 6)
      ensures isLogin && LoginAccepted(email, password) ==> RedirectTarget(auth.IsAuthenticated()) == Some("/dashboard")
      ensures !isLogin && password == confirmPassword && |password| >= 6
        ==> RedirectTarget(auth.IsAuthenticated()) == Some("/dashboard")
    {
      error := "";
      errorLog := errorLog + [""];
      success := "";
      if isLogin {
        var result := auth.Login(email, password);
        var e := ErrorOf(result);
        if e.Some? {
          // `setError(result.error)`: unreachable, the result has no error
          assert false;
        }
      } else {
        if password != confirmPassword {
          error := MismatchError;
          errorLog := errorLog + [MismatchError];
          return;
        }
        if |password| < 6 {
          error := ShortPasswordError;
          errorLog := errorLog + [ShortPasswordError];
          return;
        }
        var result := auth.Signup(Payload(), now);
        var e := ErrorOf(result);
        if e.Some? {
          // `setError(result.error)`: unreachable, the result has no error
          assert false;
        } else {
          success := SignupSuccess;
        }
      }
    }
  }
}
