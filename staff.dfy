/** The administrator's staff page (pages/ManageStaff.tsx): only an admin
    sees it; the list never shows the signed-in admin; a member is
    activated or deactivated through a confirmation dialog. */
module ManageStaff {
  import opened Common
  import Transport

  /** A staff member as the server lists it. */
  datatype Staff = Staff(
    id: string, name: string, email: string, role: string,
    department: string, isActive: bool, lastLogin: Option<string>)

  /** `user?.role !== "admin"` denies the page, so it is shown exactly to a
      signed-in user whose role is "admin". */
  predicate IsAdmin(user: Option<Transport.User>)
  {
    user.Some? && user.value.role == "admin"
  }

  /** `s.id !== user?.id`: with nobody signed in every member passes. */
  predicate NotMe(s: Staff, me: Option<Transport.User>)
  {
    me.None? || s.id != me.value.id
  }

  /** The search box, case-insensitive over name, email and department. */
  predicate MatchesSearch(s: Staff, term: string)
    ensures term == "" ==> MatchesSearch(s, term)
  {
    EmptyContained(Lower(s.name));
    var t := Lower(term);
    Contains(Lower(s.name), t) || Contains(Lower(s.email), t) || Contains(Lower(s.department), t)
  }

  function Others(me: Option<Transport.User>): Staff -> bool
  {
    s => NotMe(s, me)
  }

  function Searched(term: string): Staff -> bool
  {
    s => MatchesSearch(s, term)
  }

  function OthersSearched(me: Option<Transport.User>, term: string): Staff -> bool
  {
    s => NotMe(s, me) && MatchesSearch(s, term)
  }

  /** An empty search keeps every member. */
  lemma EmptySearchKeepsAll(staff: seq<Staff>)
    ensures Filter(staff, Searched("")) == staff
  {
    forall s | s in staff ensures Searched("")(s) {
      EmptyContained(Lower(s.name));
    }
    FilterKeepsAll(staff, Searched(""));
  }

  /** `filteredStaff`: first drop the signed-in user, then apply the
      search. The result is the members that pass both tests, in list
      order; the signed-in user is never among them, and with an empty
      search it is every other member. */
  function FilteredStaff(staff: seq<Staff>, me: Option<Transport.User>, term: string): (shown: seq<Staff>)
    ensures shown == Filter(staff, OthersSearched(me, term))
    ensures forall s :: s in shown <==> s in staff && NotMe(s, me) && MatchesSearch(s, term)
    ensures me.Some? ==> forall s :: s in shown ==> s.id != me.value.id
    ensures Subsequence(shown, staff)
    ensures term == "" ==> shown == Filter(staff, Others(me))
  {
    FilterTwice(staff, Others(me), Searched(term), OthersSearched(me, term));
    FilterIsSubsequence(staff, OthersSearched(me, term));
    if term == "" then
      EmptySearchKeepsAll(Filter(staff, Others(me)));
      Filter(Filter(staff, Others(me)), Searched(term))
    else
      Filter(Filter(staff, Others(me)), Searched(term))
  }

  datatype Action = Activate | Deactivate

  function ActionName(a: Action): string
  {
    match a
    case Activate => "activate"
    case Deactivate => "deactivate"
  }

  /** The row menu offers "Deactivate" for an active member and
      "Activate" for an inactive one. */
  function MenuAction(s: Staff): (a: Action)
    ensures a == Deactivate <==> s.isActive
  {
    if s.isActive then Deactivate else Activate
  }

  /** `is_active: actionType === "activate"`. */
  function StatusPayload(a: Action): (isActive: bool)
    ensures isActive <==> a == Activate
  {
    a == Activate
  }

  /** Confirming the action the menu offered always asks for the opposite
      of the member's current status. */
  lemma MenuActionFlipsStatus(s: Staff)
    ensures StatusPayload(MenuAction(s)) == !s.isActive
  {
  }

  datatype StaffForm = StaffForm(name: string, email: string, password: string, role: string, department: string)

  /** The add form at start and after a successful add: role "staff". */
  const BlankStaffForm := StaffForm("", "", "", "staff", "")

  /** A `PUT /staff/{id}` request. */
  datatype StatusUpdate = StatusUpdate(staffId: string, isActive: bool)

  class StaffPage {
    var form: StaffForm
    var selected: Option<Staff>
    var action: Action
    var addDialogOpen: bool
    var statusDialogOpen: bool

    constructor ()
      ensures form == BlankStaffForm && selected.None? && action == Deactivate
      ensures !addDialogOpen && !statusDialogOpen
    {
      form := BlankStaffForm;
      selected := None;
      action := Deactivate;
      addDialogOpen := false;
      statusDialogOpen := false;
    }

    /** `openStatusDialog`. */
    method OpenStatusDialog(member: Staff, a: Action)
      modifies this
      ensures selected == Some(member) && action == a && statusDialogOpen
      ensures form == old(form) && addDialogOpen == old(addDialogOpen)
    {
      selected := Some(member);
      action := a;
      statusDialogOpen := true;
    }

    /** `handleAddStaff`: the form is sent as it stands (no client-side
        check); on success the dialog closes and the form is reset. */
    method AddStaff(reply: ApiReply<()>) returns (sent: StaffForm, error: Option<string>)
      modifies this
      ensures sent == old(form)
      ensures reply.Succeeded? ==> form == BlankStaffForm && !addDialogOpen && error.None?
      ensures !reply.Succeeded? ==> (form == old(form) && addDialogOpen == old(addDialogOpen)
        && error == Some(ErrorText(reply, "Failed to add staff member")))
      ensures selected == old(selected) && action == old(action) && statusDialogOpen == old(statusDialogOpen)
    {
      sent := form;
      if reply.Succeeded? {
        addDialogOpen := false;
        form := BlankStaffForm;
        error := None;
      } else {
        error := Some(ErrorText(reply, "Failed to add staff member"));
      }
    }

    /** `handleToggleStaffStatus`: nothing without a selected member;
        otherwise the chosen action is sent for that member and the dialog
        closes on success. */
    method ToggleStaffStatus(reply: ApiReply<()>) returns (sent: Option<StatusUpdate>, error: Option<string>)
      modifies this
      ensures old(selected).None? ==> sent.None? && error.None?
      ensures old(selected).Some? ==> sent == Some(StatusUpdate(old(selected).value.id, StatusPayload(old(action))))
      ensures if old(selected).Some? && reply.Succeeded? then !statusDialogOpen
              else statusDialogOpen == old(statusDialogOpen)
      ensures old(selected).Some? && !reply.Succeeded? ==>
        error == Some(ErrorText(reply, "Failed to " + ActionName(old(action)) + " staff member"))
      ensures reply.Succeeded? ==> error.None?
      ensures selected == old(selected) && action == old(action)
      ensures form == old(form) && addDialogOpen == old(addDialogOpen)
    {
      if selected.None? {
        return None, None;
      }
      sent := Some(StatusUpdate(selected.value.id, StatusPayload(action)));
      if reply.Succeeded? {
        statusDialogOpen := false;
        error := None;
      } else {
        error := Some(ErrorText(reply, "Failed to " + ActionName(action) + " staff member"));
      }
    }
  }
}
