/**
 * The "Add Event" dialog (components/CreateEventDialog.tsx): its form
 * state, the member and payer pickers, the rule that disables the submit
 * button, the per-person preview and the submit handler.
 */
module CreateEventDialog {
  import opened Records
  import opened Selection
  import opened Attribution
  import opened EventsHook

  /** The form the dialog opens with and returns to after a create: empty
      texts, a Food event at the current time, bill 0, nobody selected. */
  function DefaultForm(now: Timestamp): EventForm
  {
    EventForm("", Food, now, Some(""), Some(""), Some(""), Some(0.0), Some(""), Some(""), Some(""), [])
  }

  /** `users.filter(u => u.displayName).map(u => u.displayName)` over the
      first `n` users. */
  function NamedUsersUpTo(users: seq<UserProfile>, n: nat): seq<string>
    requires n <= |users|
  {
    if n == 0 then []
    else
      NamedUsersUpTo(users, n - 1) +
      (if users[n - 1].displayName != "" then [users[n - 1].displayName] else [])
  }

  function NamedUsers(users: seq<UserProfile>): seq<string>
  {
    NamedUsersUpTo(users, |users|)
  }

  /** The names are the non-empty display names of the first `n` users, no
      more of them than users. */
  lemma {:induction false} NamedUsersUpToSpec(users: seq<UserProfile>, n: nat)
    requires n <= |users|
    ensures forall x :: x in NamedUsersUpTo(users, n) <==>
      x != "" && exists i :: 0 <= i < n && users[i].displayName == x
    ensures |NamedUsersUpTo(users, n)| <= n
  {
    if n > 0 {
      NamedUsersUpToSpec(users, n - 1);
      forall x | x in NamedUsersUpTo(users, n)
        ensures x != "" && exists i :: 0 <= i < n && users[i].displayName == x
      {
        if x !in NamedUsersUpTo(users, n - 1) {
          assert users[n - 1].displayName == x;
        }
      }
    }
  }

  /** "Select all" selects every user with a display name, and selects
      someone as soon as one user has one. */
  lemma NamedUsersSpec(users: seq<UserProfile>)
    ensures forall x :: x in NamedUsers(users) <==>
      x != "" && exists i :: 0 <= i < |users| && users[i].displayName == x
    ensures |NamedUsers(users)| <= |users|
    ensures (exists i :: 0 <= i < |users| && users[i].displayName != "") ==> |NamedUsers(users)| > 0
  {
    NamedUsersUpToSpec(users, |users|);
    if exists i :: 0 <= i < |users| && users[i].displayName != "" {
      var i :| 0 <= i < |users| && users[i].displayName != "";
      assert users[i].displayName in NamedUsers(users);
    }
  }

  /** The submit button's `disabled`: while saving, with nobody selected, or
      with a positive bill and no payer. */
  predicate SubmitDisabled(loading: bool, form: EventForm)
  {
    loading || |form.selectedMembers| == 0 || (PositiveBill(form.totalBill) && !Truthy(form.payer))
  }

  /** The "Per Person" line: the bill over the number selected, shown only
      when both are positive. */
  function PerPersonPreview(form: EventForm): Option<real>
  {
    if |form.selectedMembers| > 0 && PositiveBill(form.totalBill)
    then Some(form.totalBill.value / (|form.selectedMembers| as real))
    else None
  }

  /** The preview is exactly the share the created event charges each
      attendee, and is absent exactly when that share is 0. */
  lemma PreviewMatchesCharge(form: EventForm, dayPlanId: string, ownerId: string, ownerEmail: string, id: string, stamp: Timestamp)
    ensures var e := CreateEvent(form, dayPlanId, ownerId, ownerEmail, id, stamp);
      (PerPersonPreview(form).Some? <==> PerPerson(e) > 0.0) &&
      (PerPersonPreview(form).Some? ==> PerPersonPreview(form).value == PerPerson(e))
  {
  }

  /** A form the enabled button submits creates an event with attendees,
      and, when its bill is positive, with a payer and a positive share. */
  lemma EnabledSubmitCreatesPayableEvent(form: EventForm, dayPlanId: string, ownerId: string, ownerEmail: string, id: string, stamp: Timestamp)
    requires !SubmitDisabled(false, form)
    ensures var e := CreateEvent(form, dayPlanId, ownerId, ownerEmail, id, stamp);
      |e.attendees| > 0 &&
      (PositiveBill(e.totalBill) ==> Truthy(e.payer) && PerPerson(e) > 0.0)
  {
    var e := CreateEvent(form, dayPlanId, ownerId, ownerEmail, id, stamp);
    if PositiveBill(e.totalBill) {
      assert PositiveBill(form.totalBill);
      assert Truthy(form.payer);
    }
  }

  /** The default form cannot be submitted: nobody is selected. */
  lemma DefaultFormDisabled(now: Timestamp)
    ensures SubmitDisabled(false, DefaultForm(now))
    ensures PerPersonPreview(DefaultForm(now)).None?
  {
  }

  /** The dialog's state. */
  class Dialog {
    var open: bool
    var loading: bool
    var form: EventForm

    constructor (now: Timestamp)
      ensures !open && !loading && form == DefaultForm(now)
    {
      open := false;
      loading := false;
      form := DefaultForm(now);
    }

    /** The "Add Event" trigger and the Cancel button. */
    method SetOpen(value: bool)
      modifies this`open
      ensures open == value
    {
      open := value;
    }

    /** Editing any field of the form. */
    method Edit(next: EventForm)
      modifies this`form
      ensures form == next
    {
      form := next;
    }

    /** `toggleMember`: only the selection changes. */
    method ToggleMember(name: string)
      modifies this`form
      ensures form == old(form).(selectedMembers := Toggle(old(form).selectedMembers, name))
    {
      form := form.(selectedMembers := Toggle(form.selectedMembers, name));
    }

    /** `selectAll`: the selection becomes every user with a display name,
      in user order. */
    method SelectAll(users: seq<UserProfile>)
      modifies this`form
      ensures form == old(form).(selectedMembers := NamedUsers(users))
    {
      form := form.(selectedMembers := NamedUsers(users));
    }

    /** `deselectAll`: the selection empties and the rest of the form
        stays. */
    method DeselectAll()
      modifies this`form
      ensures form == old(form).(selectedMembers := [])
      ensures SubmitDisabled(loading, form)
    {
      form := form.(selectedMembers := []);
    }

    /** Picking a payer writes the user's display name and email together. */
    method ChoosePayer(user: UserProfile)
      modifies this`form
      ensures form == old(form).(payer := Some(user.displayName), payerEmail := Some(user.email))
    {
      form := form.(payer := Some(user.displayName), payerEmail := Some(user.email));
    }

    /** `handleSubmit`: nothing happens without a signed-in user with an
        email. Otherwise the event is created from the form as it stands
        (the handler does not re-check the disabled rule); on success the
        dialog closes and the form resets, on failure both stay. Loading is
        off again either way. */
    method Submit(currentUser: Option<SessionUser>, dayPlanId: string, storeAccepts: bool,
                  now: Timestamp, id: string, stamp: Timestamp)
      returns (created: Option<Event>)
      modifies this
      ensures currentUser.None? || !Truthy(currentUser.value.email) ==>
        created.None? && open == old(open) && loading == old(loading) && form == old(form)
      ensures currentUser.Some? && Truthy(currentUser.value.email) && storeAccepts ==>
        created == Some(CreateEvent(old(form), dayPlanId, currentUser.value.uid, currentUser.value.email.value, id, stamp)) &&
        !open && !loading && form == DefaultForm(now)
      ensures currentUser.Some? && Truthy(currentUser.value.email) && !storeAccepts ==>
        created.None? && open == old(open) && !loading && form == old(form)
    {
      if currentUser.None? || currentUser.value.email.None? || currentUser.value.email.value == "" {
        return None;
      }
      var user := currentUser.value;
      loading := true;
      if storeAccepts {
        created := Some(CreateEvent(form, dayPlanId, user.uid, user.email.value, id, stamp));
        open := false;
        form := DefaultForm(now);
      } else {
        created := None;
      }
      loading := false;
    }
  }
}
