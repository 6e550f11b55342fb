/**
 * The debt-attribution rule that MyBillsPage, Layout and DashboardPage each
 * write out inline: who matches an attendee name, who counts as the payer,
 * the per-person share, and whether a user owes on an event.
 */
module Attribution {
  import opened Text
  import opened Records
  import opened Seqs

  /** `currentUser?.displayName?.toLowerCase().trim() || ''`. */
  function UserName(u: SessionUser): string
  {
    match u.displayName
    case Some(d) => Normalize(d)
    case None => ""
  }

  /** `currentUser?.email?.split('@')[0].toLowerCase().trim() || ''`. */
  function UserEmailPrefix(u: SessionUser): (r: string)
    ensures u.email.None? ==> r == ""
    ensures u.email.Some? ==> r == Normalize(BeforeAt(u.email.value))
  {
    match u.email
    case Some(e) => Normalize(BeforeAt(e))
    case None => ""
  }

  /** One attendee name matches the user: its normal form equals the user's
      normalised display name or the normalised local part of the email. */
  predicate MatchesUser(name: string, u: SessionUser) {
    Normalize(name) == UserName(u) || Normalize(name) == UserEmailPrefix(u)
  }

  /** `attendees.some(name => ...)`. */
  predicate IsAttendee(attendees: seq<string>, u: SessionUser)
  {
    |attendees| > 0 && (MatchesUser(attendees[0], u) || IsAttendee(attendees[1..], u))
  }

  /** The attendee test holds exactly when some listed name matches. */
  lemma {:induction false} IsAttendeeIff(attendees: seq<string>, u: SessionUser)
    ensures IsAttendee(attendees, u) <==> exists i :: 0 <= i < |attendees| && MatchesUser(attendees[i], u)
  {
    if attendees != [] {
      IsAttendeeIff(attendees[1..], u);
      if IsAttendee(attendees[1..], u) {
        var i :| 0 <= i < |attendees| - 1 && MatchesUser(attendees[1..][i], u);
        assert MatchesUser(attendees[i + 1], u);
      }
      if exists i :: 0 <= i < |attendees| && MatchesUser(attendees[i], u) {
        var i :| 0 <= i < |attendees| && MatchesUser(attendees[i], u);
        if i > 0 {
          assert MatchesUser(attendees[1..][i - 1], u);
        }
      }
    }
  }

  /** `x?.toLowerCase().trim()`: an absent value stays absent. */
  function NormalizeOpt(o: Option<string>): (r: Option<string>)
    ensures r.Some? <==> o.Some?
    ensures o.Some? ==> r.value == Normalize(o.value)
  {
    match o
    case Some(s) => Some(Normalize(s))
    case None => None
  }

  /** The payer test: `payer` against the display name, `payerEmail` against
      the whole email, each after normalising; two absent values are equal. */
  predicate IsPayer(e: Event, u: SessionUser) {
    NormalizeOpt(e.payer) == NormalizeOpt(u.displayName) ||
    NormalizeOpt(e.payerEmail) == NormalizeOpt(u.email)
  }

  /** `attendees.length > 0 ? totalBill / attendees.length : 0`, taken where
      the bill is positive; no division happens for an empty list. */
  function PerPerson(e: Event): (r: real)
    ensures r >= 0.0
    ensures r > 0.0 <==> PositiveBill(e.totalBill) && |e.attendees| > 0
    ensures r > 0.0 ==> r * (|e.attendees| as real) == e.totalBill.value
  {
    if PositiveBill(e.totalBill) && |e.attendees| > 0
    then e.totalBill.value / (|e.attendees| as real)
    else 0.0
  }

  /** The user owes a share of `e`'s bill. */
  predicate Owes(e: Event, u: SessionUser) {
    PositiveBill(e.totalBill) && IsAttendee(e.attendees, u) && PerPerson(e) > 0.0 && !IsPayer(e, u)
  }

  /** The amount the user owes on `e`: the share when owing, else nothing. */
  function Contribution(e: Event, u: SessionUser): (r: real)
    ensures r >= 0.0
    ensures r > 0.0 <==> Owes(e, u)
  {
    if Owes(e, u) then PerPerson(e) else 0.0
  }

  /** The header badge total: the sum of the user's shares over `events`. */
  function TotalOwed(events: seq<Event>, u: SessionUser): real
  {
    SumBy(events, e => Contribution(e, u))
  }

  /** The attribution rule in closed form: the user owes on `e` exactly when
      the bill is positive, the attendee list is non-empty, some attendee
      name matches the user, and the user is not the payer; the amount is
      then the bill divided by the number of attendees. */
  lemma OwesIff(e: Event, u: SessionUser)
    ensures Owes(e, u) <==>
      && PositiveBill(e.totalBill)
      && |e.attendees| > 0
      && (exists i :: 0 <= i < |e.attendees| && MatchesUser(e.attendees[i], u))
      && !IsPayer(e, u)
    ensures Owes(e, u) ==> Contribution(e, u) == e.totalBill.value / (|e.attendees| as real)
  {
    IsAttendeeIff(e.attendees, u);
  }

  /** An absent or non-positive bill is never attributed. */
  lemma NoBillNoDebt(e: Event, u: SessionUser)
    requires !PositiveBill(e.totalBill)
    ensures !Owes(e, u) && Contribution(e, u) == 0.0
  {
  }

  /** No attendees: share zero, no debt, and no division by zero. */
  lemma NoAttendeesNoDebt(e: Event, u: SessionUser)
    requires e.attendees == []
    ensures PerPerson(e) == 0.0 && !Owes(e, u) && Contribution(e, u) == 0.0
  {
  }

  /** The payer never owes on their own event, even when listed. */
  lemma PayerIsExempt(e: Event, u: SessionUser)
    requires IsPayer(e, u)
    ensures !Owes(e, u) && Contribution(e, u) == 0.0
  {
  }

  /** One more event adds its contribution to the total. */
  lemma TotalOwedStep(events: seq<Event>, u: SessionUser, i: nat)
    requires i < |events|
    ensures TotalOwed(events[..i + 1], u) == TotalOwed(events[..i], u) + Contribution(events[i], u)
  {
    assert events[..i + 1][..i] == events[..i];
  }

  /** The header total is never negative. */
  lemma TotalOwedNonnegative(events: seq<Event>, u: SessionUser)
    ensures TotalOwed(events, u) >= 0.0
  {
    SumByNonnegative(events, e => Contribution(e, u));
  }

  /** The header total is zero when the user owes on no event. */
  lemma TotalOwedZero(events: seq<Event>, u: SessionUser)
    requires forall i :: 0 <= i < |events| ==> !Owes(events[i], u)
    ensures TotalOwed(events, u) == 0.0
  {
    SumByZero(events, e => Contribution(e, u));
  }

  /** The header total does not depend on the order the store returns events. */
  lemma TotalOwedPermutation(a: seq<Event>, b: seq<Event>, u: SessionUser)
    requires multiset(a) == multiset(b)
    ensures TotalOwed(a, u) == TotalOwed(b, u)
  {
    SumByPermutation(a, b, e => Contribution(e, u));
  }

  /** Restricting the events (to one plan, say) can only lower what is owed. */
  lemma TotalOwedFilterBound(events: seq<Event>, u: SessionUser, keep: Event -> bool)
    ensures TotalOwed(Filter(events, keep), u) <= TotalOwed(events, u)
  {
    SumByFilterBound(events, e => Contribution(e, u), keep);
  }
}
