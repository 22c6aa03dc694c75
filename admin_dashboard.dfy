/** The admin page's guard (src/pages/AdminDashboard.tsx): `checkAdminAccess` run on every
    change of the session, the `isAdmin` / `checkingAuth` flags it sets, and the render gate
    that shows a spinner, nothing, or the admin tabs. Toasts are not modelled; a navigation
    is the returned path. */
module AdminDashboard {
  import opened Wrappers
  import opened AuthContext

  /** What `checkAdminAccess` decides. */
  datatype Decision = Wait | RedirectTo(path: string) | Grant

  /** The role the guard reads: `patient.role`. */
  function PatientRole(p: Patient): Option<string>
  {
    p.role
  }

  /** The early returns of `checkAdminAccess`, in order: still loading; no patient; a role
      other than "admin"; otherwise access. */
  function AccessDecision(patient: Option<Patient>, loading: bool): (d: Decision)
    ensures d == Wait <==> loading
    ensures d == RedirectTo("/auth") <==> !loading && patient.None?
    ensures d == RedirectTo("/") <==> !loading && patient.Some? && PatientRole(patient.value) != Some("admin")
    ensures d == Grant <==> !loading && patient.Some? && PatientRole(patient.value) == Some("admin")
  {
    if loading then Wait
    else if patient.None? then RedirectTo("/auth")
    else if PatientRole(patient.value) != Some("admin") then RedirectTo("/")
    else Grant
  }

  /** Neither a logged-in nor a signed-up patient has a role, so both are sent to "/" and
      never reach the admin tabs. */
  lemma SessionPatientsAreNotAdmins(email: string, data: SignupData, now: nat)
    ensures AccessDecision(Some(MockPatient(email)), false) == RedirectTo("/")
    ensures AccessDecision(Some(NewPatient(data, now)), false) == RedirectTo("/")
  {
  }

  /** What the page renders. */
  datatype Screen = Spinner | Nothing | AdminTabs

  /** The page's own state. `grantedTo` records the patient the last grant was made for. */
  class AdminDashboardPage {
    var isAdmin: bool
    var checkingAuth: bool
    ghost var grantedTo: Option<Patient>

    /** The flags move together, and only a grant to an admin sets them. */
    ghost predicate Valid()
      reads this
    {
      (isAdmin <==> !checkingAuth)
      && (isAdmin ==> grantedTo.Some? && PatientRole(grantedTo.value) == Some("admin"))
    }

    constructor ()
      ensures !isAdmin && checkingAuth && grantedTo == None && Valid()
    {
      isAdmin := false;
      checkingAuth := true;
      grantedTo := None;
    }

    /** `checkAdminAccess()`: returns the navigation it makes, if any; only a grant touches
        the flags. */
    method CheckAdminAccess(patient: Option<Patient>, loading: bool) returns (navigate: Option<string>)
      requires Valid()
      modifies this
      ensures Valid()
      ensures AccessDecision(patient, loading).RedirectTo? <==> navigate.Some?
      ensures navigate.Some? ==> navigate.value == AccessDecision(patient, loading).path
      ensures AccessDecision(patient, loading) == Grant ==> isAdmin && !checkingAuth && grantedTo == patient
      ensures AccessDecision(patient, loading) != Grant
        ==> isAdmin == old(isAdmin) && checkingAuth == old(checkingAuth) && grantedTo == old(grantedTo)
    {
      if loading {
        return None;
      }
      if patient.None? {
        return Some("/auth");
      }
      if PatientRole(patient.value) != Some("admin") {
        return Some("/");
      }
      isAdmin := true;
      checkingAuth := false;
      grantedTo := patient;
      return None;
    }

    /** The render gate: the spinner while loading or checking, nothing unless admin, else
        the admin tabs. */
    function Render(loading: bool): (s: Screen)
      reads this
      ensures s == AdminTabs <==> !loading && !checkingAuth && isAdmin
      ensures s == Spinner <==> loading || checkingAuth
    {
      if loading || checkingAuth then Spinner
      else if !isAdmin then Nothing
      else AdminTabs
    }
  }

  /** Whatever sequence of checks has run, the admin tabs are only ever shown after a grant
      to a patient whose role is "admin". */
  lemma AdminTabsNeedAdminRole(page: AdminDashboardPage, loading: bool)
    requires page.Valid() && page.Render(loading) == AdminTabs
    ensures page.grantedTo.Some? && PatientRole(page.grantedTo.value) == Some("admin")
  {
  }
}
