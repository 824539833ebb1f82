/** One folder's page (pages/FolderView.tsx): the folder is loaded with its
    lists, the patient's diagnoses are fetched when the patient has an id,
    and each treatment plan's activities and each test's results are
    fetched once, on first opening, and cached by id. */
module FolderView {
  import opened Common

  /** Every list the page shows (notes, attachments, tests, diagnoses,
      activities, results) is a list of records with an id; the page only
      displays their other fields. */
  datatype Record = Record(id: string, fields: map<string, string>)

  const NotSpecified := "Not specified"

  /** `displayValue`: null, undefined and "" show the fallback. */
  function DisplayValue(val: Option<string>, fallback: string): (shown: string)
    ensures val.Some? && val.value != "" ==> shown == val.value
    ensures val.None? || val.value == "" ==> shown == fallback
  {
    match val
    case None => fallback
    case Some(v) => if v == "" then fallback else v
  }

  /** The show / hide buttons: clicking the open item closes it, clicking
      any other item opens that one instead (so at most one is open). */
  function Toggle(open: Option<string>, id: string): (next: Option<string>)
    ensures open == Some(id) ==> next.None?
    ensures open != Some(id) ==> next == Some(id)
  {
    if open == Some(id) then None else Some(id)
  }

  /** Two clicks on the same item restore what was open when that item
      was open or nothing was. */
  lemma ToggleTwice(open: Option<string>, id: string)
    requires open.None? || open == Some(id)
    ensures Toggle(Toggle(open, id), id) == open
  {
  }

  /** The per-id cache of `activities` / `loadingActivities` (and of
      `testResults` / `loadingTestResults`). */
  datatype Cache = Cache(entries: map<string, seq<Record>>, loading: map<string, bool>)

  const EmptyCache := Cache(map[], map[])

  /** `fetchActivities` / `fetchTestResults`. An id already cached (even
      with an empty list) is not fetched again. Otherwise a successful
      reply caches `data || []`, a failed call caches [], and a refused one
      caches nothing, so the next opening fetches again; loading ends false
      for that id. Other ids are untouched. */
  function AfterFetch(c: Cache, id: string, reply: ApiReply<Option<seq<Record>>>): (d: Cache)
    ensures id in c.entries ==> d == c
    ensures id !in c.entries ==> d.loading == c.loading[id := false]
    ensures id !in c.entries ==> (id in d.entries <==> !reply.Rejected?)
    ensures id !in c.entries && reply.Succeeded? ==> d.entries[id] == reply.data.GetOr([])
    ensures id !in c.entries && reply.Unreachable? ==> d.entries[id] == []
    ensures d.entries - {id} == c.entries - {id}
  {
    if id in c.entries then c
    else
      var entries :=
        match reply
        case Succeeded(data) => c.entries[id := data.GetOr([])]
        case Rejected(_) => c.entries
        case Unreachable => c.entries[id := []];
      Cache(entries, c.loading[id := false])
  }

  /** Once an id is cached, later fetches of it change nothing. */
  lemma CachedFetchIsStable(c: Cache, id: string, first: ApiReply<Option<seq<Record>>>, later: ApiReply<Option<seq<Record>>>)
    requires id in AfterFetch(c, id, first).entries
    ensures AfterFetch(AfterFetch(c, id, first), id, later) == AfterFetch(c, id, first)
  {
  }

  /** `fetchDiagnoses`: a successful reply gives `data || []`, anything
      else gives []. */
  function DiagnosesAfter(reply: ApiReply<Option<seq<Record>>>): (diagnoses: seq<Record>)
    ensures reply.Succeeded? && reply.data.Some? ==> diagnoses == reply.data.value
    ensures !(reply.Succeeded? && reply.data.Some?) ==> diagnoses == []
  {
    if reply.Succeeded? then reply.data.GetOr([]) else []
  }

  /** The body of `GET /folders/{id}`; the patient record's id is its
      `patient_id` ("" when it has none). */
  datatype FolderData = FolderData(
    folder: Record, patient: Option<Record>,
    notes: Option<seq<Record>>, attachments: Option<seq<Record>>, tests: Option<seq<Record>>)

  /** `data.patient && data.patient.patient_id`. */
  predicate HasPatientId(d: FolderData)
  {
    d.patient.Some? && d.patient.value.id != ""
  }

  class FolderViewPage {
    var loading: bool
    var error: string
    var folder: Option<Record>
    var patient: Option<Record>
    var notes: seq<Record>
    var attachments: seq<Record>
    var tests: seq<Record>
    var diagnoses: seq<Record>
    var openPlanId: Option<string>
    var openTestId: Option<string>
    var openDiagnosisId: Option<string>
    var activities: Cache
    var results: Cache

    constructor ()
      ensures loading && error == "" && folder.None? && patient.None?
      ensures notes == [] && attachments == [] && tests == [] && diagnoses == []
      ensures openPlanId.None? && openTestId.None? && openDiagnosisId.None?
      ensures activities == EmptyCache && results == EmptyCache
    {
      loading := true;
      error := "";
      folder := None;
      patient := None;
      notes := [];
      attachments := [];
      tests := [];
      diagnoses := [];
      openPlanId := None;
      openTestId := None;
      openDiagnosisId := None;
      activities := EmptyCache;
      results := EmptyCache;
    }

    /** `fetchFolder`. The diagnoses are fetched (and `diagnosesFor` names
        the patient) only when the folder's patient has an id; a refusal or
        a failed call sets the error and leaves the shown lists as they
        were. */
    method LoadFolder(reply: ApiReply<FolderData>, diagnosesReply: ApiReply<Option<seq<Record>>>)
      returns (diagnosesFor: Option<string>)
      modifies this
      ensures diagnosesFor.Some? <==> reply.Succeeded? && HasPatientId(reply.data)
      ensures diagnosesFor.Some? ==> (diagnosesFor.value == reply.data.patient.value.id
        && diagnoses == DiagnosesAfter(diagnosesReply))
      ensures diagnosesFor.None? ==> diagnoses == old(diagnoses)
      ensures reply.Succeeded? ==> (error == "" && folder == Some(reply.data.folder)
        && patient == reply.data.patient && notes == reply.data.notes.GetOr([])
        && attachments == reply.data.attachments.GetOr([]) && tests == reply.data.tests.GetOr([]))
      ensures !reply.Succeeded? ==> (folder == old(folder) && patient == old(patient)
        && notes == old(notes) && attachments == old(attachments) && tests == old(tests))
      ensures reply.Rejected? ==> error == OrElse(reply.error, "Failed to load folder")
      ensures reply.Unreachable? ==> error == "Error fetching folder"
      ensures !loading
      ensures openPlanId == old(openPlanId) && openTestId == old(openTestId) && openDiagnosisId == old(openDiagnosisId)
      ensures activities == old(activities) && results == old(results)
    {
      loading := true;
      error := "";
      diagnosesFor := None;
      match reply {
        case Succeeded(d) =>
          folder := Some(d.folder);
          patient := d.patient;
          notes := d.notes.GetOr([]);
          attachments := d.attachments.GetOr([]);
          tests := d.tests.GetOr([]);
          if HasPatientId(d) {
            diagnosesFor := Some(d.patient.value.id);
            diagnoses := DiagnosesAfter(diagnosesReply);
          }
        case Rejected(e) =>
          error := OrElse(e, "Failed to load folder");
        case Unreachable =>
          error := "Error fetching folder";
      }
      loading := false;
    }

    /** `fetchActivities`. */
    method FetchActivities(planId: string, reply: ApiReply<Option<seq<Record>>>)
      modifies this
      ensures activities == AfterFetch(old(activities), planId, reply)
      ensures results == old(results) && diagnoses == old(diagnoses) && tests == old(tests)
      ensures openPlanId == old(openPlanId) && openTestId == old(openTestId) && openDiagnosisId == old(openDiagnosisId)
      ensures loading == old(loading) && error == old(error) && folder == old(folder) && patient == old(patient)
      ensures notes == old(notes) && attachments == old(attachments)
    {
      if planId in activities.entries {
        return;
      }
      activities := activities.(loading := activities.loading[planId := true]);
      match reply {
        case Succeeded(data) =>
          activities := activities.(entries := activities.entries[planId := data.GetOr([])]);
        case Rejected(_) =>
        case Unreachable =>
          activities := activities.(entries := activities.entries[planId := []]);
      }
      activities := activities.(loading := activities.loading[planId := false]);
    }

    /** `fetchTestResults`. */
    method FetchTestResults(testId: string, reply: ApiReply<Option<seq<Record>>>)
      modifies this
      ensures results == AfterFetch(old(results), testId, reply)
      ensures activities == old(activities) && diagnoses == old(diagnoses) && tests == old(tests)
      ensures openPlanId == old(openPlanId) && openTestId == old(openTestId) && openDiagnosisId == old(openDiagnosisId)
      ensures loading == old(loading) && error == old(error) && folder == old(folder) && patient == old(patient)
      ensures notes == old(notes) && attachments == old(attachments)
    {
      if testId in results.entries {
        return;
      }
      results := results.(loading := results.loading[testId := true]);
      match reply {
        case Succeeded(data) =>
          results := results.(entries := results.entries[testId := data.GetOr([])]);
        case Rejected(_) =>
        case Unreachable =>
          results := results.(entries := results.entries[testId := []]);
      }
      results := results.(loading := results.loading[testId := false]);
    }

    /** A plan's "Show activities" button: closing fetches nothing;
        opening fetches the plan's activities unless they are cached. */
    method ClickPlan(planId: string, reply: ApiReply<Option<seq<Record>>>)
      modifies this
      ensures openPlanId == Toggle(old(openPlanId), planId)
      ensures activities == if old(openPlanId) == Some(planId) then old(activities)
                            else AfterFetch(old(activities), planId, reply)
      ensures results == old(results) && openTestId == old(openTestId) && openDiagnosisId == old(openDiagnosisId)
      ensures loading == old(loading) && error == old(error) && folder == old(folder) && patient == old(patient)
      ensures notes == old(notes) && attachments == old(attachments)
      ensures tests == old(tests) && diagnoses == old(diagnoses)
    {
      if openPlanId == Some(planId) {
        openPlanId := None;
      } else {
        openPlanId := Some(planId);
        FetchActivities(planId, reply);
      }
    }

    /** A test's "Results" button, the same way over test results. */
    method ClickTest(testId: string, reply: ApiReply<Option<seq<Record>>>)
      modifies this
      ensures openTestId == Toggle(old(openTestId), testId)
      ensures results == if old(openTestId) == Some(testId) then old(results)
                         else AfterFetch(old(results), testId, reply)
      ensures activities == old(activities) && openPlanId == old(openPlanId) && openDiagnosisId == old(openDiagnosisId)
      ensures loading == old(loading) && error == old(error) && folder == old(folder) && patient == old(patient)
      ensures notes == old(notes) && attachments == old(attachments)
      ensures tests == old(tests) && diagnoses == old(diagnoses)
    {
      if openTestId == Some(testId) {
        openTestId := None;
      } else {
        openTestId := Some(testId);
        FetchTestResults(testId, reply);
      }
    }

    /** A diagnosis's "View / Hide Description" button. */
    method ClickDiagnosis(diagnosisId: string)
      modifies this
      ensures openDiagnosisId == Toggle(old(openDiagnosisId), diagnosisId)
      ensures openPlanId == old(openPlanId) && openTestId == old(openTestId)
      ensures activities == old(activities) && results == old(results)
      ensures loading == old(loading) && error == old(error) && folder == old(folder) && patient == old(patient)
      ensures notes == old(notes) && attachments == old(attachments)
      ensures tests == old(tests) && diagnoses == old(diagnoses)
    {
      openDiagnosisId := Toggle(openDiagnosisId, diagnosisId);
    }
  }
}
