/** The patient session (src/contexts/AuthContext.tsx): a provider holding the current
    patient and a loading flag, the session restored from the browser's storage slot
    `aevum_patient` on mount, a mock login that accepts any non-empty e-mail with a password
    of at least 6 characters, a signup that always succeeds, and logout. The one-second
    simulated delays are one atomic step here; `Date.now()` is a parameter. */
module AuthContext {
  import opened Wrappers
  import opened Text

  /** A patient record. The declared type has no role; `role` stands for a `role` property
      that a record parsed back from storage may still carry. Records made by `login` and
      `signup` never have one. */
  datatype Patient = Patient(
    id: string, email: string, firstName: string, lastName: string, phone: string,
    dateOfBirth: string, role: Option<string>)

  datatype SignupData = SignupData(
    email: string, password: string, firstName: string, lastName: string, phone: string,
    dateOfBirth: string)

  /** A call made on the provider, as the pages see it. */
  datatype Call = LoginCall(email: string, password: string) | SignupCall(data: SignupData)

  /** The condition of the mock login: `email && password.length >= 6`. */
  predicate LoginAccepted(email: string, password: string)
  {
    email != "" && |password| >= 6
  }

  /** The record a successful login signs in. */
  function MockPatient(email: string): (p: Patient)
    ensures p.email == email && p.role.None?
  {
    Patient("1", email, "Ion", "Popescu", "+40 XXX XXX XXX", "1985-03-15", None)
  }

  /** The record `signup` makes; `now` is `Date.now()`. */
  function NewPatient(data: SignupData, now: nat): (p: Patient)
    ensures p.email == data.email && p.firstName == data.firstName && p.lastName == data.lastName
    ensures p.phone == data.phone && p.dateOfBirth == data.dateOfBirth && p.role.None?
    ensures p.id == NatToString(now) && ParseNat(p.id) == now
  {
    ParseNatToString(now);
    Patient(NatToString(now), data.email, data.firstName, data.lastName, data.phone, data.dateOfBirth, None)
  }

  /** The provider's state. `stored` is the storage slot `aevum_patient`; `loadingLog`
      records every value written to `loading`, and `calls` every login or signup. */
  class AuthProvider {
    var patient: Option<Patient>
    var loading: bool
    var stored: Option<Patient>
    ghost var loadingLog: seq<bool>
    ghost var calls: seq<Call>

    /** `isAuthenticated: !!patient`. */
    function IsAuthenticated(): (b: bool)
      reads this
      ensures b <==> patient.Some?
    {
      patient.Some?
    }

    /** The session and the storage slot agree. */
    predicate Synced()
      reads this
    {
      patient == stored
    }

    /** First render: no patient and loading, whatever the storage slot already holds. */
    constructor (stored: Option<Patient>)
      ensures patient == None && loading && this.stored == stored
      ensures loadingLog == [] && calls == []
    {
      patient := None;
      loading := true;
      this.stored := stored;
      loadingLog := [];
      calls := [];
    }

    /** The mount effect: restore a stored patient, then clear the loading flag. */
    method Mount()
      modifies this`patient, this`loading, this`loadingLog
      ensures patient == if old(stored).Some? then old(stored) else old(patient)
      ensures !loading && loadingLog == old(loadingLog) + [false]
      ensures old(patient).None? ==> Synced()
    {
      if stored.Some? {
        patient := stored;
      }
      loading := false;
      loadingLog := loadingLog + [false];
    }

    /** `login(email, password)`: loading is raised for the call and lowered on both paths;
        on success the mock patient with this e-mail is signed in and persisted, on failure
        the session and the slot are unchanged. */
    method Login(email: string, password: string) returns (ok: bool)
      modifies this`patient, this`loading, this`stored, this`loadingLog, this`calls
      ensures ok <==> LoginAccepted(email, password)
      ensures ok ==> patient == Some(MockPatient(email)) && stored == patient
      ensures !ok ==> patient == old(patient) && stored == old(stored)
      ensures !loading && loadingLog == old(loadingLog) + [true, false]
      ensures calls == old(calls) + [LoginCall(email, password)]
      ensures old(Synced()) ==> Synced()
    {
      calls := calls + [LoginCall(email, password)];
      loading := true;
      loadingLog := loadingLog + [true];
      if email != "" && |password| >= 6 {
        var mock := MockPatient(email);
        patient := Some(mock);
        stored := Some(mock);
        loading := false;
        loadingLog := loadingLog + [false];
        return true;
      }
      loading := false;
      loadingLog := loadingLog + [false];
      return false;
    }

    /** `signup(data)`: no check at all; the new patient is signed in and persisted and the
        result is always true. */
    method Signup(data: SignupData, now: nat) returns (ok: bool)
      modifies this`patient, this`loading, this`stored, this`loadingLog, this`calls
      ensures ok
      ensures patient == Some(NewPatient(data, now)) && stored == patient
      ensures !loading && loadingLog == old(loadingLog) + [true, false]
      ensures calls == old(calls) + [SignupCall(data)]
    {
      calls := calls + [SignupCall(data)];
      loading := true;
      loadingLog := loadingLog + [true];
      var created := NewPatient(data, now);
      patient := Some(created);
      stored := Some(created);
      loading := false;
      loadingLog := loadingLog + [false];
      return true;
    }

    /** `logout`: forget the patient and empty the slot. The new state does not depend on
        the old one, so a second logout changes nothing. */
    method Logout()
      modifies this`patient, this`stored
      ensures patient == None && stored == None && Synced()
    {
      patient := None;
      stored := None;
    }
  }
}
