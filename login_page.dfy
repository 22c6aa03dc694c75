/** The second patient login page (src/pages/Login.tsx): `handleLogin` and `handleSignup`,
    their validation order, the `isLoading` flag raised around the provider call, and the
    toast or navigation each outcome produces. */
module LoginPage {
  import opened Wrappers
  import opened AuthContext

  const EmptyFieldsToast: string := "Completează toate câmpurile"
  const BadCredentialsToast: string := "Email sau parolă incorectă"
  const WelcomeToast: string := "Te-ai conectat cu succes"
  const MismatchToast: string := "Parolele nu coincid"
  const ShortPasswordToast: string := "Parola trebuie să aibă cel puțin 6 caractere"
  const SignedUpToast: string := "Te-ai înregistrat cu succes"
  const SignupFailedToast: string := "A apărut o eroare la înregistrare"

  /** What a handler shows and where it goes. */
  datatype Outcome = Outcome(toast: string, navigate: Option<string>)

  class LoginForm {
    var isLoading: bool
    var loginEmail: string
    var loginPassword: string
    var signupEmail: string
    var signupPassword: string
    var confirmPassword: string
    var firstName: string
    var lastName: string
    var phone: string
    var dateOfBirth: string
    const auth: AuthProvider
    /** Every value written to `isLoading`, in order. */
    ghost var isLoadingLog: seq<bool>

    constructor (auth: AuthProvider)
      ensures this.auth == auth && !isLoading && isLoadingLog == []
      ensures loginEmail == "" && loginPassword == ""
      ensures signupEmail == "" && signupPassword == "" && confirmPassword == ""
      ensures firstName == "" && lastName == "" && phone == "" && dateOfBirth == ""
    {
      this.auth := auth;
      isLoading := false;
      loginEmail, loginPassword := "", "";
      signupEmail, signupPassword, confirmPassword := "", "", "";
      firstName, lastName, phone, dateOfBirth := "", "", "", "";
      isLoadingLog := [];
    }

    /** `handleLogin`: empty fields stop at a toast with `isLoading` untouched; otherwise the
        provider is called between `isLoading` true and false, and success goes to the
        dashboard. */
    method HandleLogin() returns (out: Outcome)
      modifies this`isLoading, this`isLoadingLog, auth
      ensures loginEmail == "" || loginPassword == ""
        ==> (out == Outcome(EmptyFieldsToast, None) && unchanged(auth)
          && isLoading == old(isLoading) && isLoadingLog == old(isLoadingLog))
      ensures loginEmail != "" && loginPassword != ""
        ==> (auth.calls == old(auth.calls) + [LoginCall(loginEmail, loginPassword)]
          && !auth.loading && auth.loadingLog == old(auth.loadingLog) + [true, false]
          && !isLoading && isLoadingLog == old(isLoadingLog) + [true, false])
      ensures loginEmail != "" && loginPassword != "" && LoginAccepted(loginEmail, loginPassword)
        ==> (out == Outcome(WelcomeToast, Some("/dashboard"))
          && auth.patient == Some(MockPatient(loginEmail)) && auth.stored == auth.patient)
      ensures loginEmail != "" && loginPassword != "" && !LoginAccepted(loginEmail, loginPassword)
        ==> (out == Outcome(BadCredentialsToast, None)
          && auth.patient == old(auth.patient) && auth.stored == old(auth.stored))
      ensures out.navigate.Some? <==> LoginAccepted(loginEmail, loginPassword)
    {
      if loginEmail == "" || loginPassword == "" {
        return Outcome(EmptyFieldsToast, None);
      }
      isLoading := true;
      isLoadingLog := isLoadingLog + [true];
      var success := auth.Login(loginEmail, loginPassword);
      if success {
        out := Outcome(WelcomeToast, Some("/dashboard"));
      } else {
        out := Outcome(BadCredentialsToast, None);
      }
      isLoading := false;
      isLoadingLog := isLoadingLog + [false];
    }

    /** The sign-up payload built from the form; `confirmPassword` is not sent. */
    function Payload(): (d: SignupData)
      reads this
      ensures d.email == signupEmail && d.password == signupPassword && d.firstName == firstName
      ensures d.lastName == lastName && d.phone == phone && d.dateOfBirth == dateOfBirth
    {
      SignupData(signupEmail, signupPassword, firstName, lastName, phone, dateOfBirth)
    }

    /** `handleSignup`: a mismatch is reported before a short password and either stops
        before the provider is called, with `isLoading` untouched; otherwise the provider is
        called between `isLoading` true and false and, since sign-up always succeeds, the
        page goes to the dashboard. */
    method HandleSignup(now: nat) returns (out: Outcome)
      modifies this`isLoading, this`isLoadingLog, auth
      ensures signupPassword != confirmPassword
        ==> (out == Outcome(MismatchToast, None) && unchanged(auth)
          && isLoading == old(isLoading) && isLoadingLog == old(isLoadingLog))
      ensures signupPassword == confirmPassword && |signupPassword| < 6
        ==> (out == Outcome(ShortPasswordToast, None) && unchanged(auth)
          && isLoading == old(isLoading) && isLoadingLog == old(isLoadingLog))
      ensures signupPassword == confirmPassword && |signupPassword| >= 6
        ==> (auth.calls == old(auth.calls) + [SignupCall(Payload())]
          && auth.patient == Some(NewPatient(Payload(), now)) && auth.stored == auth.patient
          && !auth.loading && auth.loadingLog == old(auth.loadingLog) + [true, false]
          && !isLoading && isLoadingLog == old(isLoadingLog) + [true, false]
          && out == Outcome(SignedUpToast, Some("/dashboard")))
    {
      if signupPassword != confirmPassword {
        return Outcome(MismatchToast, None);
      }
      if |signupPassword| < 6 {
        return Outcome(ShortPasswordToast, None);
      }
      isLoading := true;
      isLoadingLog := isLoadingLog + [true];
      var success := auth.Signup(Payload(), now);
      if success {
        out := Outcome(SignedUpToast, Some("/dashboard"));
      } else {
        // the failure toast: unreachable, sign-up always succeeds
        assert false;
      }
      isLoading := false;
      isLoadingLog := isLoadingLog + [false];
    }
  }
}
