/** The folder list page (pages/Folders.tsx): folders are shown joined with
    their patient, searched by the patient's names or id, and a new folder
    is created for a chosen patient by the signed-in staff member. */
module Folders {
  import opened Common
  import Transport
  import Patients

  /** A patient folder as the server returns it. */
  datatype Folder = Folder(folderId: string, patientId: string, createdBy: string, status: string, createdAt: string)

  /** `patients.find(p => p.patient_id === id)`: the first patient with
      that id, or none when no patient has it. */
  function FindPatient(patients: seq<Patients.Patient>, id: string): (found: Option<Patients.Patient>)
    ensures found.Some? ==> found.value in patients && found.value.patientId == id
    ensures found.None? <==> forall p :: p in patients ==> p.patientId != id
    ensures found.Some? && patients != [] && patients[0].patientId == id ==> found.value == patients[0]
    ensures found.Some? ==> exists i :: 0 <= i < |patients| && patients[i] == found.value
                                        && forall j :: 0 <= j < i ==> patients[j].patientId != id
  {
    if patients == [] then None
    else if patients[0].patientId == id then Some(patients[0])
    else
      var rest := FindPatient(patients[1..], id);
      if rest.Some? then
        var k :| 0 <= k < |patients[1..]| && patients[1..][k] == rest.value
                 && forall j :: 0 <= j < k ==> patients[1..][j].patientId != id;
        assert patients[k + 1] == rest.value;
        assert forall j :: 0 <= j < k + 1 ==> patients[j].patientId != id by {
          forall j | 0 <= j < k + 1 ensures patients[j].patientId != id {
            if j > 0 { assert patients[j] == patients[1..][j - 1]; }
          }
        }
        rest
      else rest
  }

  /** The search box over a folder: its patient's first or last name, or
      its patient id, case-insensitively; a folder whose patient is not in
      the list never matches. */
  predicate FolderMatches(patients: seq<Patients.Patient>, term: string, f: Folder)
    ensures FolderMatches(patients, term, f) ==> HasPatient(patients, f)
    ensures term == "" ==> (FolderMatches(patients, term, f) <==> HasPatient(patients, f))
  {
    match FindPatient(patients, f.patientId)
    case None => false
    case Some(p) =>
      EmptyContained(Lower(p.firstName));
      var t := Lower(term);
      Contains(Lower(p.firstName), t) || Contains(Lower(p.lastName), t) || Contains(Lower(f.patientId), t)
  }

  function Matches(patients: seq<Patients.Patient>, term: string): Folder -> bool
  {
    f => FolderMatches(patients, term, f)
  }

  /** A folder whose patient is in the list. */
  predicate HasPatient(patients: seq<Patients.Patient>, f: Folder)
  {
    exists p :: p in patients && p.patientId == f.patientId
  }

  /** `filteredFolders`: the folders the search keeps, in list order; every
      one of them belongs to a listed patient, and with an empty search they
      are exactly the folders that do. */
  function FilteredFolders(folders: seq<Folder>, patients: seq<Patients.Patient>, term: string): (shown: seq<Folder>)
    ensures forall f :: f in shown <==> f in folders && FolderMatches(patients, term, f)
    ensures Subsequence(shown, folders)
    ensures forall f :: multiset(shown)[f] == if FolderMatches(patients, term, f) then multiset(folders)[f] else 0
    ensures forall f :: f in shown ==> HasPatient(patients, f)
    ensures term == "" ==> forall f :: f in shown <==> f in folders && HasPatient(patients, f)
  {
    FilterIsSubsequence(folders, Matches(patients, term));
    Filter(folders, Matches(patients, term))
  }

  /** `getStatusColor`: the badge colour of a folder status. */
  function StatusColor(status: string): (colour: string)
    ensures colour == "bg-green-100 text-green-800" <==> status == "active"
    ensures colour == "bg-gray-100 text-gray-800" <==> status == "inactive"
    ensures colour == "bg-yellow-100 text-yellow-800" <==> status == "archived"
    ensures colour == "bg-blue-100 text-blue-800" <==> status !in {"active", "inactive", "archived"}
  {
    match status
    case "active" => "bg-green-100 text-green-800"
    case "inactive" => "bg-gray-100 text-gray-800"
    case "archived" => "bg-yellow-100 text-yellow-800"
    case _ => "bg-blue-100 text-blue-800"
  }

  /** The body of a `POST /folders` request. */
  datatype FolderRequest = FolderRequest(patientId: string, createdBy: string, status: string)

  const NoPatientMessage := "Please select a patient"
  const NoStaffMessage := "Staff ID not found. Please try again."

  class FoldersPage {
    var folders: seq<Folder>
    var selectedPatient: string
    var folderStatus: string
    var error: string
    var createDialogOpen: bool
    var isLoading: bool

    constructor ()
      ensures folders == [] && selectedPatient == "" && folderStatus == "active"
      ensures error == "" && !createDialogOpen && !isLoading
    {
      folders := [];
      selectedPatient := "";
      folderStatus := "active";
      error := "";
      createDialogOpen := false;
      isLoading := false;
    }

    /** `createFolder`: a patient must be chosen and the signed-in user must
        have an id; then the request is sent. Success appends the returned
        folder and resets the dialog; a refusal or a failed call only sets
        the error. */
    method CreateFolder(user: Option<Transport.User>, reply: ApiReply<Folder>) returns (sent: Option<FolderRequest>)
      modifies this
      ensures old(selectedPatient) == "" ==> sent.None? && error == NoPatientMessage
      ensures old(selectedPatient) != "" && (user.None? || user.value.id == "") ==>
        sent.None? && error == NoStaffMessage
      ensures sent.Some? <==> old(selectedPatient) != "" && user.Some? && user.value.id != ""
      ensures sent.Some? ==> sent.value == FolderRequest(old(selectedPatient), user.value.id, old(folderStatus))
      ensures sent.None? ==> (folders == old(folders) && selectedPatient == old(selectedPatient)
        && folderStatus == old(folderStatus) && createDialogOpen == old(createDialogOpen) && isLoading == old(isLoading))
      ensures sent.Some? && reply.Succeeded? ==>
        folders == old(folders) + [reply.data] && !createDialogOpen
        && selectedPatient == "" && folderStatus == "active" && error == ""
      ensures sent.Some? && reply.Rejected? ==> error == OrElse(reply.error, "Failed to create folder")
      ensures sent.Some? && reply.Unreachable? ==> error == "Error creating folder"
      ensures sent.Some? && !reply.Succeeded? ==>
        folders == old(folders) && createDialogOpen == old(createDialogOpen)
        && selectedPatient == old(selectedPatient) && folderStatus == old(folderStatus)
      ensures sent.Some? ==> !isLoading
    {
      if selectedPatient == "" {
        error := NoPatientMessage;
        return None;
      }
      if user.None? || user.value.id == "" {
        error := NoStaffMessage;
        return None;
      }
      isLoading := true;
      sent := Some(FolderRequest(selectedPatient, user.value.id, folderStatus));
      match reply {
        case Succeeded(folder) =>
          folders := folders + [folder];
          createDialogOpen := false;
          selectedPatient := "";
          folderStatus := "active";
          error := "";
        case Rejected(e) =>
          error := OrElse(e, "Failed to create folder");
        case Unreachable =>
          error := "Error creating folder";
      }
      isLoading := false;
    }
  }
}
