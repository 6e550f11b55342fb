/**
 * The bill-split panel of an event (components/BillSplitPanel.tsx): its
 * component state, the attendee selection it starts from, the share it
 * shows, and the bill write of its save button.
 */
module BillSplit {
  import opened Records
  import opened Selection
  import opened Polls
  import opened Attribution
  import opened EventsHook

  /** `members.filter((m) => rsvps[m.name] === 'yes').map((m) => m.name)`
      over the first `n` members. */
  function YesNamesUpTo(members: seq<Member>, rsvps: map<string, Rsvp>, n: nat): seq<string>
    requires n <= |members|
  {
    if n == 0 then []
    else
      YesNamesUpTo(members, rsvps, n - 1) +
      (if Lookup(rsvps, members[n - 1].name) == Some(Yes) then [members[n - 1].name] else [])
  }

  /** The selection the panel starts with. */
  function InitialSelection(members: seq<Member>, rsvps: map<string, Rsvp>): seq<string>
  {
    YesNamesUpTo(members, rsvps, |members|)
  }

  /** The first `n` members' names answered 'yes', in member order: one
      entry per such member, so as many as the poll's `coming` counter. */
  lemma {:induction false} YesNamesUpToSpec(members: seq<Member>, rsvps: map<string, Rsvp>, n: nat)
    requires n <= |members|
    ensures forall x :: x in YesNamesUpTo(members, rsvps, n) <==>
      exists i :: 0 <= i < n && members[i].name == x && Lookup(rsvps, x) == Some(Yes)
    ensures |YesNamesUpTo(members, rsvps, n)| == TallyUpTo(members, rsvps, n).coming
  {
    if n > 0 {
      YesNamesUpToSpec(members, rsvps, n - 1);
      var status := Lookup(rsvps, members[n - 1].name);
      CountOneCounter(TallyUpTo(members, rsvps, n - 1), status);
      forall x | x in YesNamesUpTo(members, rsvps, n)
        ensures exists i :: 0 <= i < n && members[i].name == x && Lookup(rsvps, x) == Some(Yes)
      {
        if x !in YesNamesUpTo(members, rsvps, n - 1) {
          assert members[n - 1].name == x && status == Some(Yes);
        }
      }
    }
  }

  /** The initial selection names exactly the members who answered 'yes',
      and holds as many names as the poll box counts as coming. */
  lemma InitialSelectionIsComing(members: seq<Member>, rsvps: map<string, Rsvp>)
    ensures forall x :: x in InitialSelection(members, rsvps) <==>
      x in rsvps && rsvps[x] == Yes && exists i :: 0 <= i < |members| && members[i].name == x
    ensures |InitialSelection(members, rsvps)| == Summary(members, rsvps).coming
  {
    YesNamesUpToSpec(members, rsvps, |members|);
  }

  /** `perPersonShare`: the amount over the number selected, and 0 with
      nobody selected. */
  function Share(amount: real, selected: seq<string>): real
  {
    if |selected| > 0 then amount / (|selected| as real) else 0.0
  }

  /** The shares of the selected people add up to the amount; with nobody
      selected the share is 0. */
  lemma ShareSplitsAmount(amount: real, selected: seq<string>)
    ensures |selected| > 0 ==> Share(amount, selected) * (|selected| as real) == amount
    ensures |selected| == 0 ==> Share(amount, selected) == 0.0
  {
  }

  /** For a positive amount and a selection equal to the stored attendee
      list, the panel's share is what each attendee is charged once the bill
      is saved. */
  lemma ShareMatchesCharge(e: Event, amount: real, stamp: Timestamp)
    requires amount > 0.0
    ensures Share(amount, e.attendees) == PerPerson(UpdateBill(e, amount, stamp))
  {
  }

  /** The selection is not stored, so the share the panel shows and the
      charge per attendee differ as soon as the two lists differ in length. */
  lemma ShareIgnoresStoredAttendees(e: Event, stamp: Timestamp)
    requires e.attendees == ["ali", "sara"]
    ensures Share(90.0, ["ali"]) == 90.0
    ensures PerPerson(UpdateBill(e, 90.0, stamp)) == 45.0
  {
  }

  /** The component's state. `totalBill` is the stored bill passed in. */
  class Panel {
    const totalBill: real
    var editMode: bool
    var billAmount: real
    var selected: seq<string>

    /** Edit mode starts on exactly when there is no bill yet; the attendees
        start as the members who answered 'yes'. */
    constructor (totalBill: real, members: seq<Member>, rsvps: map<string, Rsvp>)
      ensures this.totalBill == totalBill && billAmount == totalBill
      ensures editMode <==> totalBill == 0.0
      ensures selected == InitialSelection(members, rsvps)
      ensures !ShowsNoBillView()
    {
      this.totalBill := totalBill;
      editMode := totalBill == 0.0;
      billAmount := totalBill;
      selected := InitialSelection(members, rsvps);
    }

    /** The "No bill amount set yet" view. */
    predicate ShowsNoBillView()
      reads this
    {
      totalBill == 0.0 && !editMode
    }

    /** The share the panel shows. */
    function PerPersonShare(): real
      reads this
    {
      Share(billAmount, selected)
    }

    /** `toggleAttendee`. */
    method ToggleAttendee(name: string)
      modifies this`selected
      ensures selected == Toggle(old(selected), name)
    {
      selected := Toggle(selected, name);
    }

    /** Typing an amount into the bill field. */
    method EnterAmount(amount: real)
      modifies this`billAmount
      ensures billAmount == amount
    {
      billAmount := amount;
    }

    /** The "Set Bill Amount" and "Edit" buttons. */
    method StartEditing()
      modifies this`editMode
      ensures editMode
    {
      editMode := true;
    }

    /** `handleSaveBill`: only the amount is written, and edit mode ends once
        the write succeeds; a failed write leaves edit mode on. The
        selection is not part of the write. `totalBill` stays the value the
        panel was made with: the view after a save depends on the bill the
        enclosing card passes in again, which is not modelled. */
    method SaveBill(e: Event, stamp: Timestamp, storeAccepts: bool) returns (saved: Option<Event>)
      modifies this`editMode
      ensures storeAccepts ==> saved == Some(UpdateBill(e, billAmount, stamp)) && !editMode
      ensures !storeAccepts ==> saved.None? && editMode == old(editMode)
      ensures saved.Some? ==> saved.value.attendees == e.attendees
    {
      if !storeAccepts {
        return None;
      }
      saved := Some(UpdateBill(e, billAmount, stamp));
      editMode := false;
    }
  }
}
