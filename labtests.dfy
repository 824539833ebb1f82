/** The lab test order page (pages/Test.tsx): open to lab technicians and
    administrators only; a test is ordered for a patient through a form
    whose patient and orderer survive each successful submission. */
module LabTests {
  import opened Common
  import Transport

  /** `!user || (role !== 'Lab Technician' && role !== 'admin')` sends the
      visitor to the dashboard and renders "Access denied.". */
  predicate CanOrderTests(user: Option<Transport.User>)
  {
    user.Some? && (user.value.role == "Lab Technician" || user.value.role == "admin")
  }

  const DeniedRedirect := "/dashboard"

  /** Where the page sends the visitor on mount: nowhere when allowed, the
      dashboard otherwise. */
  function Redirect(user: Option<Transport.User>): (target: Option<string>)
    ensures target.None? <==> user.Some? && user.value.role in {"Lab Technician", "admin"}
    ensures target.Some? ==> target.value == DeniedRedirect
  {
    if CanOrderTests(user) then None else Some(DeniedRedirect)
  }

  datatype TestForm = TestForm(
    patientId: string, testType: string, testName: string, orderedDate: string,
    orderedBy: string, testDescription: string, status: string)

  /** The form's inputs, named as `e.target.name` names them. */
  datatype Field = PatientId | TestType | TestName | OrderedDate | OrderedBy | TestDescription | Status

  function Get(f: TestForm, field: Field): string
  {
    match field
    case PatientId => f.patientId
    case TestType => f.testType
    case TestName => f.testName
    case OrderedDate => f.orderedDate
    case OrderedBy => f.orderedBy
    case TestDescription => f.testDescription
    case Status => f.status
  }

  /** `{ ...form, [name]: value }`: that field takes the value, every other
      field keeps its own. */
  function SetField(f: TestForm, field: Field, value: string): (g: TestForm)
    ensures Get(g, field) == value
    ensures forall other :: other != field ==> Get(g, other) == Get(f, other)
  {
    match field
    case PatientId => f.(patientId := value)
    case TestType => f.(testType := value)
    case TestName => f.(testName := value)
    case OrderedDate => f.(orderedDate := value)
    case OrderedBy => f.(orderedBy := value)
    case TestDescription => f.(testDescription := value)
    case Status => f.(status := value)
  }

  /** The form on first render: ordered by the signed-in user's id ("" when
      nobody is signed in), status "pending", everything else empty. */
  function InitialForm(user: Option<Transport.User>): (f: TestForm)
    ensures user.Some? ==> f.orderedBy == user.value.id
    ensures user.None? ==> f.orderedBy == ""
    ensures f.status == "pending"
    ensures forall field :: field !in {OrderedBy, Status} ==> Get(f, field) == ""
  {
    TestForm("", "", "", "", if user.Some? then user.value.id else "", "", "pending")
  }

  const RequiredFields := {PatientId, TestType, TestName, OrderedDate}

  /** The check `handleSubmit` makes before sending. */
  predicate ReadyToSubmit(f: TestForm)
  {
    f.patientId != "" && f.testType != "" && f.testName != "" && f.orderedDate != ""
  }

  /** The check is exactly "every required field is filled in". */
  lemma ReadyMeansRequiredFilled(f: TestForm)
    ensures ReadyToSubmit(f) <==> forall field :: field in RequiredFields ==> Get(f, field) != ""
  {
  }

  /** The form after a test is created: patient and orderer stay, the test's
      own fields are cleared and the status returns to "pending". */
  function AfterCreate(f: TestForm): (g: TestForm)
    ensures g.patientId == f.patientId && g.orderedBy == f.orderedBy
    ensures forall field :: field in {TestType, TestName, OrderedDate, TestDescription} ==> Get(g, field) == ""
    ensures g.status == "pending"
  {
    f.(testType := "", testName := "", orderedDate := "", testDescription := "", status := "pending")
  }

  /** A second test for the same patient needs only the test's own fields:
      filling them in makes the reset form ready again. */
  lemma NextTestNeedsOnlyTestFields(f: TestForm, testType: string, testName: string, orderedDate: string)
    requires f.patientId != "" && testType != "" && testName != "" && orderedDate != ""
    ensures ReadyToSubmit(SetField(SetField(SetField(AfterCreate(f), TestType, testType), TestName, testName), OrderedDate, orderedDate))
  {
  }

  const MissingFieldsMessage := "Please fill all required fields"

  class TestPage {
    var form: TestForm
    var loading: bool

    constructor (user: Option<Transport.User>)
      ensures form == InitialForm(user) && !loading
    {
      form := InitialForm(user);
      loading := false;
    }

    /** `handleChange` / `handleSelect`. */
    method HandleChange(field: Field, value: string)
      modifies this
      ensures form == SetField(old(form), field, value)
      ensures loading == old(loading)
    {
      form := SetField(form, field, value);
    }

    /** `handleSubmit`: an incomplete form is not sent; a complete one is
        sent as it stands, and on success reset with `AfterCreate`. */
    method HandleSubmit(reply: ApiReply<()>) returns (sent: Option<TestForm>, error: Option<string>)
      modifies this
      ensures !ReadyToSubmit(old(form)) ==> (sent.None? && error == Some(MissingFieldsMessage)
        && form == old(form) && loading == old(loading))
      ensures ReadyToSubmit(old(form)) ==> sent == Some(old(form)) && !loading
      ensures ReadyToSubmit(old(form)) && reply.Succeeded? ==> form == AfterCreate(old(form)) && error.None?
      ensures ReadyToSubmit(old(form)) && !reply.Succeeded? ==>
        form == old(form) && error == Some(ErrorText(reply, "Failed to create test"))
    {
      if !ReadyToSubmit(form) {
        return None, Some(MissingFieldsMessage);
      }
      loading := true;
      sent := Some(form);
      if reply.Succeeded? {
        form := AfterCreate(form);
        error := None;
      } else {
        error := Some(ErrorText(reply, "Failed to create test"));
      }
      loading := false;
    }
  }
}
