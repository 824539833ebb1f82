/** The patient list page (pages/Patients.tsx): age from date of birth, the
    search and status filter over the list, the required-field check before
    a create or an update, and the form resets that follow them. */
module Patients {
  import opened Common

  /** A calendar date as (year, month, day); parsing dates is not modelled. */
  datatype Date = Date(year: int, month: int, day: int)

  /** `a`'s (month, day) comes before `b`'s in the calendar year. */
  predicate BeforeInYear(a: Date, b: Date)
  {
    a.month < b.month || (a.month == b.month && a.day < b.day)
  }

  /** `a` is the same day as `b` or an earlier one. */
  predicate OnOrBefore(a: Date, b: Date)
  {
    a.year < b.year || (a.year == b.year && !BeforeInYear(b, a))
  }

  /** The `years`-th anniversary of `birth` (February 29 is not special-cased). */
  function Anniversary(birth: Date, years: int): Date
  {
    Date(birth.year + years, birth.month, birth.day)
  }

  /** `calculateAge`: the year difference, one less when today's (month,
      day) is before the birthday's. That is the number of birthdays
      reached by `today`: the age-th anniversary is on or before today and
      the next one is after it. */
  function CalculateAge(birth: Date, today: Date): (age: int)
    ensures OnOrBefore(Anniversary(birth, age), today)
    ensures !OnOrBefore(Anniversary(birth, age + 1), today)
  {
    var age := today.year - birth.year;
    if BeforeInYear(today, birth) then age - 1 else age
  }

  /** Anniversaries move forward with the number of years. */
  lemma AnniversaryMonotone(birth: Date, i: int, j: int, today: Date)
    requires i <= j
    requires OnOrBefore(Anniversary(birth, j), today)
    ensures OnOrBefore(Anniversary(birth, i), today)
  {
  }

  /** The age is the only number with the two properties above. */
  lemma AgeIsUnique(birth: Date, today: Date, k: int)
    requires OnOrBefore(Anniversary(birth, k), today)
    requires !OnOrBefore(Anniversary(birth, k + 1), today)
    ensures k == CalculateAge(birth, today)
  {
  }

  /** A birth date not after today never gives a negative age. */
  lemma AgeNonNegative(birth: Date, today: Date)
    requires OnOrBefore(birth, today)
    ensures CalculateAge(birth, today) >= 0
  {
  }

  datatype Contact = Contact(name: string, relationship: string, phone: string)
  datatype Address = Address(street: string, city: string, state: string, country: string, postalCode: string)

  const BlankContact := Contact("", "", "")
  const BlankAddress := Address("", "", "", "", "")

  /** A patient as the server lists it; optional fields may be missing. */
  datatype Patient = Patient(
    patientId: string, firstName: string, lastName: string, dateOfBirth: string,
    bloodGroup: Option<string>, phone: Option<string>, email: Option<string>,
    emergencyContact: Option<Contact>, address: Option<Address>,
    currentStatus: Option<string>, currentDiagnosis: Option<string>,
    medicalHistory: Option<string>, assignedProvider: Option<string>)

  /** The add / edit dialog's form. */
  datatype PatientForm = PatientForm(
    firstName: string, lastName: string, dateOfBirth: string,
    bloodGroup: string, phone: string, email: string,
    emergencyContact: Contact, address: Address,
    currentStatus: string, currentDiagnosis: string, medicalHistory: string,
    assignedProvider: Option<string>)

  /** The form as the page starts and as every successful save leaves it. */
  const BlankForm := PatientForm("", "", "", "", "", "", BlankContact, BlankAddress, "stable", "", "", None)

  /** The search box: case-insensitive on "first last" and on the email,
      case-sensitive on the phone; a missing email or phone never matches. */
  predicate MatchesSearch(p: Patient, term: string)
    ensures term == "" ==> MatchesSearch(p, term)
  {
    EmptyContained(Lower(p.firstName + " " + p.lastName));
    var t := Lower(term);
    || Contains(Lower(p.firstName + " " + p.lastName), t)
    || (p.email.Some? && Contains(Lower(p.email.value), t))
    || (p.phone.Some? && Contains(p.phone.value, term))
  }

  /** The status filter: "all", or exactly the patient's current status. */
  predicate MatchesStatus(p: Patient, statusFilter: string)
  {
    statusFilter == "all" || p.currentStatus == Some(statusFilter)
  }

  /** The row test `filteredPatients` applies. */
  function Shown(term: string, statusFilter: string): Patient -> bool
  {
    p => MatchesSearch(p, term) && MatchesStatus(p, statusFilter)
  }

  /** An empty search with the "all" filter hides nobody. */
  lemma EmptySearchShowsAll(patients: seq<Patient>)
    ensures Filter(patients, Shown("", "all")) == patients
  {
    forall p | p in patients ensures Shown("", "all")(p) {
      EmptyContained(Lower(p.firstName + " " + p.lastName));
    }
    FilterKeepsAll(patients, Shown("", "all"));
  }

  /** `filteredPatients`: the patients the search and the filter both keep,
      in list order; an empty search with "all" keeps every patient. */
  function FilteredPatients(patients: seq<Patient>, term: string, statusFilter: string): (shown: seq<Patient>)
    ensures forall p :: p in shown <==> p in patients && MatchesSearch(p, term) && MatchesStatus(p, statusFilter)
    ensures Subsequence(shown, patients)
    ensures forall p :: multiset(shown)[p] == if MatchesSearch(p, term) && MatchesStatus(p, statusFilter) then multiset(patients)[p] else 0
    ensures term == "" && statusFilter == "all" ==> shown == patients
  {
    FilterIsSubsequence(patients, Shown(term, statusFilter));
    if term == "" && statusFilter == "all" then
      EmptySearchShowsAll(patients);
      Filter(patients, Shown(term, statusFilter))
    else
      Filter(patients, Shown(term, statusFilter))
  }

  /** For a patient without a phone the search ignores the case of the
      term: only the phone is compared case-sensitively. */
  lemma SearchIgnoresCaseWithoutPhone(p: Patient, term: string)
    requires p.phone.None?
    ensures MatchesSearch(p, term) == MatchesSearch(p, Lower(term))
  {
    LowerIdempotent(term);
  }

  const RequiredLabels := ["First Name", "Last Name", "Date of Birth"]

  /** The missing required fields, in the order First Name, Last Name,
      Date of Birth; empty exactly when all three are filled in. */
  function MissingFields(f: PatientForm): (missing: seq<string>)
    ensures Subsequence(missing, RequiredLabels)
    ensures "First Name" in missing <==> f.firstName == ""
    ensures "Last Name" in missing <==> f.lastName == ""
    ensures "Date of Birth" in missing <==> f.dateOfBirth == ""
    ensures missing == [] <==> f.firstName != "" && f.lastName != "" && f.dateOfBirth != ""
  {
    (if f.firstName == "" then ["First Name"] else [])
    + (if f.lastName == "" then ["Last Name"] else [])
    + (if f.dateOfBirth == "" then ["Date of Birth"] else [])
  }

  /** `missingFields.join(', ')`: the labels separated by a comma and a
      space. */
  function JoinLabels(labels: seq<string>): (text: string)
    ensures labels == [] ==> text == ""
    ensures |labels| == 1 ==> text == labels[0]
    ensures |labels| >= 2 ==> |text| >= |labels[0]| + 2 && text[..|labels[0]| + 2] == labels[0] + ", "
  {
    if labels == [] then ""
    else if |labels| == 1 then labels[0]
    else labels[0] + ", " + JoinLabels(labels[1..])
  }

  /** Joining two non-empty runs of labels puts one separator between
      them; with the one-label case this fixes the whole joined text. */
  lemma {:induction false} JoinSplit(a: seq<string>, b: seq<string>)
    requires a != [] && b != []
    ensures JoinLabels(a + b) == JoinLabels(a) + ", " + JoinLabels(b)
    decreases |a|
  {
    if |a| > 1 {
      assert (a + b)[1..] == a[1..] + b;
      JoinSplit(a[1..], b);
    } else {
      assert (a + b)[1..] == b;
    }
  }

  /** The missing-fields toast, naming the fields in form order. */
  function MissingFieldsToast(missing: seq<string>): string
  {
    "Please fill in: " + JoinLabels(missing)
  }

  const InvalidDateMessage := "Please enter a valid date of birth"

  /** `assigned_provider || null`: an empty provider is sent as none. */
  function NormaliseProvider(provider: Option<string>): (r: Option<string>)
    ensures r != Some("")
    ensures provider != Some("") ==> r == provider
  {
    if provider == Some("") then None else provider
  }

  /** `split('T')[0]`: the text before the first 'T'. */
  function DatePart(s: string): (r: string)
    ensures |r| <= |s| && r == s[..|r|]
    ensures 'T' !in r
    ensures |r| < |s| ==> s[|r|] == 'T'
  {
    if s == [] || s[0] == 'T' then [] else [s[0]] + DatePart(s[1..])
  }

  /** The edit form filled from a patient: missing text becomes "", a
      missing or empty status becomes "stable". */
  function FormFromPatient(p: Patient): (f: PatientForm)
    ensures f.firstName == p.firstName && f.lastName == p.lastName
    ensures f.dateOfBirth == DatePart(p.dateOfBirth)
    ensures f.bloodGroup == p.bloodGroup.GetOr("") && f.phone == p.phone.GetOr("") && f.email == p.email.GetOr("")
    ensures f.emergencyContact == p.emergencyContact.GetOr(BlankContact) && f.address == p.address.GetOr(BlankAddress)
    ensures f.currentDiagnosis == p.currentDiagnosis.GetOr("") && f.medicalHistory == p.medicalHistory.GetOr("")
    ensures f.currentStatus != ""
    ensures p.currentStatus.Some? && p.currentStatus.value != "" ==> f.currentStatus == p.currentStatus.value
    ensures p.currentStatus.None? || p.currentStatus == Some("") ==> f.currentStatus == "stable"
    ensures f.assignedProvider != Some("")
    ensures p.assignedProvider != Some("") ==> f.assignedProvider == p.assignedProvider
  {
    PatientForm(
      p.firstName, p.lastName, DatePart(p.dateOfBirth),
      p.bloodGroup.GetOr(""), p.phone.GetOr(""), p.email.GetOr(""),
      p.emergencyContact.GetOr(BlankContact), p.address.GetOr(BlankAddress),
      OrElse(p.currentStatus.GetOr(""), "stable"),
      p.currentDiagnosis.GetOr(""), p.medicalHistory.GetOr(""),
      NormaliseProvider(p.assignedProvider))
  }

  /** The body of a create request: the form with the provider normalised,
      stamped with the admission date. */
  datatype NewPatient = NewPatient(form: PatientForm, admissionDate: string)

  /** The body of an update request, sent to the selected patient's id. */
  datatype PatientUpdate = PatientUpdate(patientId: string, form: PatientForm)

  class PatientsPage {
    var form: PatientForm
    var selected: Option<Patient>
    var addDialogOpen: bool
    var editDialogOpen: bool

    constructor ()
      ensures form == BlankForm && selected.None? && !addDialogOpen && !editDialogOpen
    {
      form := BlankForm;
      selected := None;
      addDialogOpen := false;
      editDialogOpen := false;
    }

    /** "Edit Patient" in a row's menu. */
    method OpenEdit(p: Patient)
      modifies this
      ensures selected == Some(p) && form == FormFromPatient(p) && editDialogOpen
      ensures addDialogOpen == old(addDialogOpen)
    {
      selected := Some(p);
      form := FormFromPatient(p);
      editDialogOpen := true;
    }

    /** `handleCreatePatient`. `dateParses` says whether the date of birth
        reads as a date; `reply` is the server's answer to the create and
        `message` the message of the error the call rejects with. The
        destructive toast, if any, is returned as `toast`. */
    method CreatePatient(dateParses: bool, admissionDate: string, reply: ApiReply<()>, message: string)
      returns (missing: seq<string>, sent: Option<NewPatient>, toast: Option<string>)
      modifies this
      ensures missing == MissingFields(old(form))
      ensures sent.Some? <==> missing == [] && dateParses
      ensures sent.Some? ==> (sent.value.admissionDate == admissionDate
        && sent.value.form == old(form).(assignedProvider := NormaliseProvider(old(form).assignedProvider)))
      ensures missing != [] ==> toast == Some(MissingFieldsToast(missing))
      ensures missing == [] && !dateParses ==> toast == Some(InvalidDateMessage)
      ensures sent.Some? ==> (toast.None? <==> reply.Succeeded?)
      ensures sent.Some? && !reply.Succeeded? ==> toast == Some(ErrorText(reply, message))
      ensures if sent.Some? && reply.Succeeded? then form == BlankForm && !addDialogOpen
              else form == old(form) && addDialogOpen == old(addDialogOpen)
      ensures selected == old(selected) && editDialogOpen == old(editDialogOpen)
    {
      missing := MissingFields(form);
      if missing != [] {
        return missing, None, Some(MissingFieldsToast(missing));
      }
      if !dateParses {
        return missing, None, Some(InvalidDateMessage);
      }
      sent := Some(NewPatient(form.(assignedProvider := NormaliseProvider(form.assignedProvider)), admissionDate));
      if reply.Succeeded? {
        addDialogOpen := false;
        form := BlankForm;
        toast := None;
      } else {
        toast := Some(ErrorText(reply, message));
      }
    }

    /** `handleUpdatePatient`: nothing at all without a selected patient;
        otherwise the same checks and toasts as a create. */
    method UpdatePatient(dateParses: bool, reply: ApiReply<()>, message: string)
      returns (missing: seq<string>, sent: Option<PatientUpdate>, toast: Option<string>)
      modifies this
      ensures old(selected).None? ==> (missing == [] && sent.None? && toast.None?
        && form == old(form) && selected == old(selected) && editDialogOpen == old(editDialogOpen))
      ensures old(selected).Some? ==> missing == MissingFields(old(form))
      ensures sent.Some? <==> old(selected).Some? && missing == [] && dateParses
      ensures sent.Some? ==> sent.value == PatientUpdate(old(selected).value.patientId, old(form))
      ensures missing != [] ==> toast == Some(MissingFieldsToast(missing))
      ensures old(selected).Some? && missing == [] && !dateParses ==> toast == Some(InvalidDateMessage)
      ensures sent.Some? ==> (toast.None? <==> reply.Succeeded?)
      ensures sent.Some? && !reply.Succeeded? ==> toast == Some(ErrorText(reply, message))
      ensures if sent.Some? && reply.Succeeded? then form == BlankForm && selected.None? && !editDialogOpen
              else form == old(form) && selected == old(selected) && editDialogOpen == old(editDialogOpen)
      ensures addDialogOpen == old(addDialogOpen)
    {
      if selected.None? {
        return [], None, None;
      }
      missing := MissingFields(form);
      if missing != [] {
        return missing, None, Some(MissingFieldsToast(missing));
      }
      if !dateParses {
        return missing, None, Some(InvalidDateMessage);
      }
      sent := Some(PatientUpdate(selected.value.patientId, form));
      if reply.Succeeded? {
        editDialogOpen := false;
        selected := None;
        form := BlankForm;
        toast := None;
      } else {
        toast := Some(ErrorText(reply, message));
      }
    }
  }
}
