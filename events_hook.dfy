/**
 * The event writes of hooks/useEvents.ts: the record `createEvent` stores,
 * the partial update `updateEvent` applies, the single-answer write
 * `updateRSVP`, the bill write `updateBill`, and which events the hook
 * lists for a plan.
 */
module EventsHook {
  import opened Text
  import opened Records
  import opened Seqs
  import opened Attribution

  /** `createEvent`: optional text fields default to '', the bill to 0, the
      attendees are the selected members and nobody has answered yet. The id
      and the server time stamp are supplied by the store. */
  function CreateEvent(form: EventForm, dayPlanId: string, ownerId: string, ownerEmail: string, id: string, stamp: Timestamp): (e: Event)
    ensures e.location == Some(OrElse(form.location, "")) && e.locationUrl == Some(OrElse(form.locationUrl, ""))
    ensures e.notes == Some(OrElse(form.notes, ""))
    ensures e.payer == Some(OrElse(form.payer, "")) && e.payerEmail == Some(OrElse(form.payerEmail, ""))
    ensures e.payerAccountDetails == Some(OrElse(form.payerAccountDetails, ""))
    ensures e.totalBill.Some? && (e.totalBill.value == 0.0 <==> form.totalBill.None? || form.totalBill.value == 0.0)
    ensures PositiveBill(e.totalBill) <==> PositiveBill(form.totalBill)
    ensures e.attendees == form.selectedMembers && e.rsvps == map[]
    ensures e.id == id && e.dayPlanId == dayPlanId && e.ownerId == ownerId && e.ownerEmail == ownerEmail
    ensures e.title == form.title && e.eventType == form.eventType && e.dateTime == Some(form.dateTime)
    ensures e.createdAt == stamp && e.updatedAt == stamp
  {
    var bill := if form.totalBill.Some? && form.totalBill.value != 0.0 then form.totalBill.value else 0.0;
    Event(id, dayPlanId, ownerId, ownerEmail, form.title, form.eventType, Some(form.dateTime),
      Some(OrElse(form.location, "")), Some(OrElse(form.locationUrl, "")), Some(OrElse(form.notes, "")),
      Some(bill), Some(OrElse(form.payer, "")), Some(OrElse(form.payerEmail, "")),
      Some(OrElse(form.payerAccountDetails, "")), form.selectedMembers, map[], stamp, stamp)
  }

  /** A new event is scheduled as soon as its plan is: its own date is set. */
  lemma CreatedEventHasDate(form: EventForm, dayPlanId: string, ownerId: string, ownerEmail: string, id: string, stamp: Timestamp)
    ensures CreateEvent(form, dayPlanId, ownerId, ownerEmail, id, stamp).dateTime.Some?
    ensures CreateEvent(form, dayPlanId, ownerId, ownerEmail, id, stamp).rsvps == map[]
  {
  }

  /** On a new event, a selected member who is not the payer owes exactly
      the bill divided by the number of selected members. */
  lemma CreatedEventShares(form: EventForm, dayPlanId: string, ownerId: string, ownerEmail: string, id: string, stamp: Timestamp, u: SessionUser, k: nat)
    requires PositiveBill(form.totalBill)
    requires k < |form.selectedMembers| && MatchesUser(form.selectedMembers[k], u)
    requires !IsPayer(CreateEvent(form, dayPlanId, ownerId, ownerEmail, id, stamp), u)
    ensures Contribution(CreateEvent(form, dayPlanId, ownerId, ownerEmail, id, stamp), u) ==
      form.totalBill.value / (|form.selectedMembers| as real)
  {
    var e := CreateEvent(form, dayPlanId, ownerId, ownerEmail, id, stamp);
    IsAttendeeIff(e.attendees, u);
  }

  /** `updateEvent`: `updateData` gains a field per condition. Title, type and
      date are written when truthy; location, notes, bill and payer whenever
      given; the attendees whenever a selection is given, even an empty one.
      No other field is written: the payer's email and account details, the
      map link, the plan and the owner stay as they were, whatever the patch
      holds. */
  method UpdateEvent(e: Event, patch: EventPatch, stamp: Timestamp) returns (updated: Event)
    ensures updated.title == (if Truthy(patch.title) then patch.title.value else e.title)
    ensures updated.eventType == (if patch.eventType.Some? then patch.eventType.value else e.eventType)
    ensures updated.dateTime == (if patch.dateTime.Some? then patch.dateTime else e.dateTime)
    ensures updated.location == (if patch.location.Some? then patch.location else e.location)
    ensures updated.notes == (if patch.notes.Some? then patch.notes else e.notes)
    ensures updated.totalBill == (if patch.totalBill.Some? then patch.totalBill else e.totalBill)
    ensures updated.payer == (if patch.payer.Some? then patch.payer else e.payer)
    ensures updated.attendees == (if patch.selectedMembers.Some? then patch.selectedMembers.value else e.attendees)
    ensures updated == e.(title := updated.title, eventType := updated.eventType, dateTime := updated.dateTime,
      location := updated.location, notes := updated.notes, totalBill := updated.totalBill,
      payer := updated.payer, attendees := updated.attendees, updatedAt := stamp)
  {
    var title := if patch.title.Some? && patch.title.value != "" then patch.title.value else e.title;
    var eventType := if patch.eventType.Some? then patch.eventType.value else e.eventType;
    var dateTime := if patch.dateTime.Some? then patch.dateTime else e.dateTime;
    var location := if patch.location.Some? then patch.location else e.location;
    var notes := if patch.notes.Some? then patch.notes else e.notes;
    var totalBill := if patch.totalBill.Some? then patch.totalBill else e.totalBill;
    var payer := if patch.payer.Some? then patch.payer else e.payer;
    var attendees := if patch.selectedMembers.Some? then patch.selectedMembers.value else e.attendees;
    updated := e.(title := title, eventType := eventType, dateTime := dateTime, location := location,
      notes := notes, totalBill := totalBill, payer := payer, attendees := attendees, updatedAt := stamp);
  }

  /** Changing the payer through an update leaves the previous payer's
      `payerEmail` in place, so the payer test can still match the previous
      payer by email. */
  method UpdatedPayerKeepsEmail(e: Event, newPayer: string, stamp: Timestamp) returns (updated: Event)
    ensures updated.payer == Some(newPayer) && updated.payerEmail == e.payerEmail
    ensures updated.attendees == e.attendees && updated.totalBill == e.totalBill
  {
    updated := UpdateEvent(e, EventPatch(None, None, None, None, None, None, None, Some(newPayer), None, None, None), stamp);
  }

  /** `updateRSVP` as intended: the answer is stored under the member's key,
      and only that entry and the time stamp change. */
  function UpdateRsvp(e: Event, memberId: string, status: Rsvp, stamp: Timestamp): (r: Event)
    ensures memberId in r.rsvps && r.rsvps[memberId] == status
    ensures forall k :: k != memberId ==> (k in r.rsvps <==> k in e.rsvps)
    ensures forall k :: k != memberId && k in e.rsvps ==> r.rsvps[k] == e.rsvps[k]
    ensures r == e.(rsvps := r.rsvps, updatedAt := stamp)
  {
    e.(rsvps := e.rsvps[memberId := status], updatedAt := stamp)
  }

  /** Answering twice with the same status is the same as answering once,
      and a later answer replaces an earlier one. */
  lemma UpdateRsvpIdempotent(e: Event, memberId: string, first: Rsvp, second: Rsvp, stamp: Timestamp)
    ensures UpdateRsvp(UpdateRsvp(e, memberId, first, stamp), memberId, first, stamp) == UpdateRsvp(e, memberId, first, stamp)
    ensures UpdateRsvp(UpdateRsvp(e, memberId, first, stamp), memberId, second, stamp) == UpdateRsvp(e, memberId, second, stamp)
  {
    var once := UpdateRsvp(e, memberId, first, stamp);
    assert once.rsvps[memberId := first] == once.rsvps;
    assert once.rsvps[memberId := second] == e.rsvps[memberId := second];
  }

  /** The text before the first '.': the top-level field a dotted update path
      names. */
  function FirstSegment(s: string): (r: string)
    ensures '.' !in r
    ensures |r| <= |s| && r == s[..|r|]
  {
    s[..IndexOf(s, '.')]
  }

  /** `updateRSVP` as written: the store reads the key `rsvps.<memberId>` as
      a path split at every '.', so for an id containing '.' the answer lands
      in a nested object under the id's first segment. That entry then holds
      an object, not a status, and the id itself gets no entry. */
  function UpdateRsvpAsWritten(e: Event, memberId: string, status: Rsvp, stamp: Timestamp): (r: Event)
    ensures '.' !in memberId ==> r == UpdateRsvp(e, memberId, status, stamp)
    ensures '.' in memberId ==> r.rsvps == e.rsvps - {FirstSegment(memberId)}
    ensures '.' in memberId ==> r == e.(rsvps := r.rsvps, updatedAt := stamp)
  {
    if '.' !in memberId then UpdateRsvp(e, memberId, status, stamp)
    else e.(rsvps := e.rsvps - {FirstSegment(memberId)}, updatedAt := stamp)
  }

  /** A member named after an email's local part, such as "john.doe", answers
      'yes' and the answer is not recorded under their name, while the
      intended write records it. */
  lemma DottedNameLosesAnswer(e: Event, stamp: Timestamp)
    requires e.rsvps == map[]
    ensures "john.doe" !in UpdateRsvpAsWritten(e, "john.doe", Yes, stamp).rsvps
    ensures UpdateRsvp(e, "john.doe", Yes, stamp).rsvps["john.doe"] == Yes
  {
    assert "john.doe"[4] == '.';
  }

  /** `updateBill`: only the bill and the time stamp change; the attendee
      list and the payer stay as they were. */
  function UpdateBill(e: Event, totalBill: real, stamp: Timestamp): (r: Event)
    ensures r.totalBill == Some(totalBill) && r.updatedAt == stamp
    ensures r.(totalBill := e.totalBill, updatedAt := e.updatedAt) == e
  {
    e.(totalBill := Some(totalBill), updatedAt := stamp)
  }

  /** After a bill is written, the user owes a positive bill's share exactly
      when they owed on the event with that bill before. */
  lemma UpdateBillAttribution(e: Event, totalBill: real, stamp: Timestamp, u: SessionUser)
    ensures Owes(UpdateBill(e, totalBill, stamp), u) <==>
      totalBill > 0.0 && |e.attendees| > 0 && IsAttendee(e.attendees, u) &&
      !IsPayer(e, u)
  {
  }

  /** The events the hook lists for a plan: none without a plan id (absent
      or ''), otherwise those of that plan. The query orders by `dateTime`,
      and the store leaves out of such a query every document without that
      field, so an event without a date is not listed. */
  function EventsOfPlan(dayPlanId: Option<string>, store: seq<Event>): (r: seq<Event>)
    ensures !Truthy(dayPlanId) ==> r == []
    ensures Truthy(dayPlanId) ==> forall e :: e in r <==>
      e in store && e.dayPlanId == dayPlanId.value && e.dateTime.Some?
  {
    if dayPlanId.None? || dayPlanId.value == "" then []
    else Filter(store, (e: Event) => e.dayPlanId == dayPlanId.value && e.dateTime.Some?)
  }
}
