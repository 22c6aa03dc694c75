/** The clinic records the webshop pages carry around (`{ id, name, address }`) and the
    `getClinicName` lookup that CartModal.tsx and SalesTracking.tsx both define. */
module Clinics {

  datatype Clinic = Clinic(id: string, name: string, address: string)

  /** The pickup clinics of the webshop page. */
  const WebshopClinics: seq<Clinic> := [
    Clinic("cluj", "Cluj-Napoca", "Str. Memorandumului 28"),
    Clinic("iasi", "Iași", "Bd. Ștefan cel Mare 15"),
    Clinic("galati", "Galați", "Str. Brăilei 101"),
    Clinic("bucuresti", "București", "Calea Victoriei 120")
  ]

  /** `clinics.find(c => c.id === clinicId)?.name || clinicId`: the name of the first clinic
      with that id; the id itself when no clinic has it, or when that clinic's name is the
      empty (falsy) string. */
  function ClinicName(clinics: seq<Clinic>, clinicId: string): (r: string)
    ensures (forall i :: 0 <= i < |clinics| ==> clinics[i].id != clinicId) ==> r == clinicId
    ensures r == clinicId || exists i :: 0 <= i < |clinics| && clinics[i].id == clinicId && clinics[i].name == r
    ensures forall i :: (0 <= i < |clinics| && clinics[i].id == clinicId && clinics[i].name != ""
      && (forall j :: 0 <= j < i ==> clinics[j].id != clinicId)) ==> r == clinics[i].name
  {
    if clinics == [] then clinicId
    else if clinics[0].id == clinicId then (if clinics[0].name != "" then clinics[0].name else clinicId)
    else ClinicName(clinics[1..], clinicId)
  }

  /** In a list whose ids are distinct and whose names are non-empty, every id resolves to
      its own clinic's name. */
  lemma DistinctIdsResolve(clinics: seq<Clinic>)
    requires forall i, j :: 0 <= i < j < |clinics| ==> clinics[i].id != clinics[j].id
    requires forall i :: 0 <= i < |clinics| ==> clinics[i].name != ""
    ensures forall i :: 0 <= i < |clinics| ==> ClinicName(clinics, clinics[i].id) == clinics[i].name
  {
    forall i | 0 <= i < |clinics|
      ensures ClinicName(clinics, clinics[i].id) == clinics[i].name
    {
      assert forall j :: 0 <= j < i ==> clinics[j].id != clinics[i].id;
    }
  }

  /** Every webshop clinic id resolves to its own display name. */
  lemma WebshopClinicNames()
    ensures forall i :: 0 <= i < |WebshopClinics| ==> ClinicName(WebshopClinics, WebshopClinics[i].id) == WebshopClinics[i].name
  {
    var c := WebshopClinics;
    assert c[0].id != c[1].id && c[0].id != c[2].id && c[0].id != c[3].id;
    assert c[1].id != c[2].id && c[1].id != c[3].id && c[2].id != c[3].id;
    DistinctIdsResolve(c);
  }
}
