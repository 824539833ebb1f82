/** The reports page (pages/Responses.tsx): reports not yet responded to are
    listed under their patient's name, and a diagnosis is created from a
    report. */
module Responses {
  import opened Common
  import Transport
  import Patients

  /** A report as the server lists it. */
  datatype Report = Report(
    reportId: string, patientId: string, status: Option<string>,
    summary: Option<string>, createdBy: Option<string>)

  /** `${first_name} ${last_name}`. */
  function FullName(p: Patients.Patient): (name: string)
    ensures |name| == |p.firstName| + 1 + |p.lastName|
    ensures name[|p.firstName|] == ' '
    ensures name[..|p.firstName|] == p.firstName && name[|p.firstName| + 1..] == p.lastName
  {
    p.firstName + " " + p.lastName
  }

  /** The id-to-name map after `forEach` over `ps`: each patient in turn
      writes its name under its id, so a later patient with the same id
      overwrites an earlier one. */
  function NameMap(ps: seq<Patients.Patient>): map<string, string>
  {
    if ps == [] then map[]
    else NameMap(ps[..|ps| - 1])[ps[|ps| - 1].patientId := FullName(ps[|ps| - 1])]
  }

  /** The set of ids that occur in `ps`. */
  function Ids(ps: seq<Patients.Patient>): set<string>
  {
    set p | p in ps :: p.patientId
  }

  /** The loop in `fetchPatients` that fills `patientMap`. */
  method BuildPatientMap(ps: seq<Patients.Patient>) returns (m: map<string, string>)
    ensures m == NameMap(ps)
    ensures m.Keys == Ids(ps)
  {
    m := map[];
    var i := 0;
    while i < |ps|
      invariant 0 <= i <= |ps|
      invariant m == NameMap(ps[..i])
    {
      assert ps[..i + 1][..i] == ps[..i];
      m := m[ps[i].patientId := FullName(ps[i])];
      i := i + 1;
    }
    assert ps[..i] == ps;
    NameMapKeys(ps);
  }

  /** The map has exactly one key per id in the list. */
  lemma {:induction false} NameMapKeys(ps: seq<Patients.Patient>)
    ensures NameMap(ps).Keys == Ids(ps)
  {
    if ps != [] {
      var init := ps[..|ps| - 1];
      NameMapKeys(init);
      assert ps == init + [ps[|ps| - 1]];
      assert Ids(ps) == Ids(init) + {ps[|ps| - 1].patientId};
    }
  }

  /** Under each id the map holds the name of the last patient with it. */
  lemma {:induction false} NameMapHoldsLast(ps: seq<Patients.Patient>, i: int)
    requires 0 <= i < |ps|
    requires forall j :: i < j < |ps| ==> ps[j].patientId != ps[i].patientId
    ensures ps[i].patientId in NameMap(ps)
    ensures NameMap(ps)[ps[i].patientId] == FullName(ps[i])
  {
    if i < |ps| - 1 {
      var init := ps[..|ps| - 1];
      NameMapHoldsLast(init, i);
    }
  }

  /** `patientMap[report.patient_id] || 'Unknown Patient'`. */
  function PatientLabel(names: map<string, string>, r: Report): (text: string)
    ensures text != ""
    ensures r.patientId in names && names[r.patientId] != "" ==> text == names[r.patientId]
    ensures r.patientId !in names ==> text == "Unknown Patient"
  {
    if r.patientId in names && names[r.patientId] != "" then names[r.patientId] else "Unknown Patient"
  }

  /** With the map built from a patient list, a report shows its patient's
      name when the patient is listed and "Unknown Patient" otherwise. */
  lemma {:induction false} LabelFromList(ps: seq<Patients.Patient>, r: Report, i: int)
    requires 0 <= i < |ps| && ps[i].patientId == r.patientId
    requires forall j :: i < j < |ps| ==> ps[j].patientId != ps[i].patientId
    ensures PatientLabel(NameMap(ps), r) == FullName(ps[i])
  {
    NameMapHoldsLast(ps, i);
  }

  lemma {:induction false} UnknownWhenUnlisted(ps: seq<Patients.Patient>, r: Report)
    requires forall p :: p in ps ==> p.patientId != r.patientId
    ensures PatientLabel(NameMap(ps), r) == "Unknown Patient"
  {
    NameMapKeys(ps);
    assert r.patientId !in Ids(ps);
  }

  predicate NotResponded(r: Report)
  {
    r.status != Some("Responded")
  }

  /** `reports.filter(r => r.status !== 'Responded')`: the listed reports,
      in order; a report without a status is listed. */
  function Pending(reports: seq<Report>): (listed: seq<Report>)
    ensures forall r :: r in listed <==> r in reports && r.status != Some("Responded")
    ensures Subsequence(listed, reports)
    ensures forall r :: multiset(listed)[r] == if r.status != Some("Responded") then multiset(reports)[r] else 0
  {
    FilterIsSubsequence(reports, NotResponded);
    Filter(reports, NotResponded)
  }

  /** `report.status || 'Not Responded'`. */
  function StatusLabel(r: Report): (text: string)
    ensures r.status.Some? && r.status.value != "" ==> text == r.status.value
    ensures r.status.None? || r.status == Some("") ==> text == "Not Responded"
  {
    OrElse(r.status.GetOr(""), "Not Responded")
  }

  /** No listed report is labelled "Responded". */
  lemma PendingNeverShowsResponded(reports: seq<Report>)
    ensures forall r :: r in Pending(reports) ==> StatusLabel(r) != "Responded"
  {
  }

  datatype DiagnosisForm = DiagnosisForm(name: string, code: string, description: string, severity: string, status: string)

  /** The diagnosis form at start and after a successful create. */
  const BlankDiagnosisForm := DiagnosisForm("", "", "", "", "active")

  /** "Create Diagnosis" is enabled only while no create is in flight and
      the name is filled in. */
  predicate CanSubmit(loading: bool, form: DiagnosisForm)
  {
    !loading && form.name != ""
  }

  /** The form is blank after each successful create, so the button stays
      disabled until a name is typed again; typing one enables it once no
      create is in flight. */
  lemma BlankFormCannotBeSubmitted(loading: bool, name: string)
    ensures !CanSubmit(loading, BlankDiagnosisForm)
    ensures CanSubmit(false, BlankDiagnosisForm.(name := name)) <==> name != ""
  {
  }

  /** The body of `POST /patients/{id}/diagnoses`: the form with
      `created_by` (the signed-in user's id, if any) and `report_id`. */
  datatype DiagnosisRequest = DiagnosisRequest(patientId: string, form: DiagnosisForm, createdBy: Option<string>, reportId: string)

  function SignedInId(user: Option<Transport.User>): Option<string>
  {
    if user.Some? then Some(user.value.id) else None
  }

  class ResponsesPage {
    var patients: seq<Patients.Patient>
    var patientMap: map<string, string>
    var openReportId: Option<string>
    var form: DiagnosisForm
    var showForm: bool
    var loading: bool
    var error: string

    constructor ()
      ensures patients == [] && patientMap == map[] && openReportId.None?
      ensures form == BlankDiagnosisForm && !showForm && !loading && error == ""
    {
      patients := [];
      patientMap := map[];
      openReportId := None;
      form := BlankDiagnosisForm;
      showForm := false;
      loading := false;
      error := "";
    }

    /** `fetchPatients`: on success both the list and the name map are
        replaced; on anything else nothing changes. */
    method LoadPatients(reply: ApiReply<Option<seq<Patients.Patient>>>)
      modifies this
      ensures reply.Succeeded? ==> patients == reply.data.GetOr([]) && patientMap == NameMap(patients)
      ensures !reply.Succeeded? ==> patients == old(patients) && patientMap == old(patientMap)
      ensures openReportId == old(openReportId) && form == old(form) && showForm == old(showForm)
      ensures loading == old(loading) && error == old(error)
    {
      if reply.Succeeded? {
        patients := reply.data.GetOr([]);
        patientMap := BuildPatientMap(patients);
      }
    }

    /** The report popup's close button. */
    method CloseReport()
      modifies this
      ensures openReportId.None? && !showForm && error == ""
      ensures form == old(form) && patients == old(patients) && patientMap == old(patientMap)
      ensures loading == old(loading)
    {
      openReportId := None;
      showForm := false;
      error := "";
    }

    /** `createDiagnosis`: the form is sent as it stands with the user's id
        and the report's; success resets and hides the form, a refusal or a
        failed call sets the error. */
    method CreateDiagnosis(user: Option<Transport.User>, patientId: string, reportId: string, reply: ApiReply<()>)
      returns (sent: DiagnosisRequest)
      modifies this
      ensures sent == DiagnosisRequest(patientId, old(form), SignedInId(user), reportId)
      ensures reply.Succeeded? ==> form == BlankDiagnosisForm && !showForm && error == ""
      ensures reply.Rejected? ==> error == OrElse(reply.error, "Failed to create diagnosis")
      ensures reply.Unreachable? ==> error == "Error creating diagnosis"
      ensures !reply.Succeeded? ==> form == old(form) && showForm == old(showForm)
      ensures !loading
      ensures patients == old(patients) && patientMap == old(patientMap) && openReportId == old(openReportId)
    {
      loading := true;
      error := "";
      sent := DiagnosisRequest(patientId, form, SignedInId(user), reportId);
      match reply {
        case Succeeded(_) =>
          form := BlankDiagnosisForm;
          showForm := false;
        case Rejected(e) =>
          error := OrElse(e, "Failed to create diagnosis");
        case Unreachable =>
          error := "Error creating diagnosis";
      }
      loading := false;
    }
  }
}
