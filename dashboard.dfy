/**
 * The dashboard's per-plan statistics (pages/DashboardPage.tsx): the
 * distinct event types, the RSVP statuses merged across a plan's events,
 * the money stats for the signed-in user, and the upcoming/past split.
 */
module Dashboard {
  import opened Records
  import opened Seqs
  import opened Attribution

  // ---------------------------------------------------------------------
  // eventTypes: [...new Set(events.map(e => e.type))]
  // ---------------------------------------------------------------------

  /** Drops repeats, keeping each value at its first occurrence. */
  function Distinct(s: seq<EventType>): (r: seq<EventType>)
    ensures forall x :: x in r <==> x in s
    ensures forall i, j :: 0 <= i < j < |r| ==> r[i] != r[j]
  {
    if |s| == 0 then []
    else
      var rest := Distinct(s[..|s| - 1]);
      var x := s[|s| - 1];
      assert s == s[..|s| - 1] + [x];
      if x in rest then rest else rest + [x]
  }

  /** The position at which `x` first occurs in `s`. */
  function FirstIndex(s: seq<EventType>, x: EventType): (i: nat)
    requires x in s
    ensures i < |s| && s[i] == x && x !in s[..i]
  {
    var prefix := s[..|s| - 1];
    assert s == prefix + [s[|s| - 1]];
    if x in prefix then
      var i := FirstIndex(prefix, x);
      assert s[..i] == prefix[..i];
      i
    else
      |s| - 1
  }

  /** The types of the events, in event order. */
  function TypesOf(events: seq<Event>): seq<EventType>
  {
    seq(|events|, i requires 0 <= i < |events| => events[i].eventType)
  }

  function EventTypes(events: seq<Event>): seq<EventType>
  {
    Distinct(TypesOf(events))
  }

  /** Every type of a plan's events is listed exactly once. */
  lemma EventTypesExactlyOnce(events: seq<Event>)
    ensures forall i :: 0 <= i < |events| ==> events[i].eventType in EventTypes(events)
    ensures forall t :: t in EventTypes(events) ==> exists i :: 0 <= i < |events| && events[i].eventType == t
    ensures forall i, j :: 0 <= i < j < |EventTypes(events)| ==> EventTypes(events)[i] != EventTypes(events)[j]
  {
    var ts := TypesOf(events);
    forall i | 0 <= i < |events|
      ensures events[i].eventType in EventTypes(events)
    {
      assert ts[i] == events[i].eventType;
    }
  }

  /** `Distinct` lists values in the order of their first occurrence. */
  lemma {:induction false} DistinctFirstOccurrenceOrder(s: seq<EventType>)
    ensures forall i, j :: 0 <= i < j < |Distinct(s)| ==>
      FirstIndex(s, Distinct(s)[i]) < FirstIndex(s, Distinct(s)[j])
  {
    if s != [] {
      var prefix := s[..|s| - 1];
      var x := s[|s| - 1];
      var rest := Distinct(prefix);
      DistinctFirstOccurrenceOrder(prefix);
      assert s == prefix + [x];
      forall y | y in prefix
        ensures FirstIndex(s, y) == FirstIndex(prefix, y)
      {
      }
      if x !in rest {
        forall i | 0 <= i < |rest|
          ensures FirstIndex(s, rest[i]) < FirstIndex(s, x)
        {
          assert rest[i] in prefix;
        }
      }
    }
  }

  // ---------------------------------------------------------------------
  // RSVP merge across a plan's events
  // ---------------------------------------------------------------------

  /** The order no < maybe < yes. */
  function Rank(s: Rsvp): nat
  {
    match s
    case No => 0
    case Maybe => 1
    case Yes => 2
  }

  /** The stronger of two answers. */
  function Stronger(a: Rsvp, b: Rsvp): (r: Rsvp)
    ensures Rank(a) <= Rank(r) && Rank(b) <= Rank(r)
    ensures r == a || r == b
  {
    if Rank(b) > Rank(a) then b else a
  }

  /** The page's update rule for one `(member, status)` entry: replace when
      nothing is recorded yet, when the new status is 'yes', or when it is
      'maybe' and the recorded one is not 'yes'. It keeps the stronger one. */
  function Update(current: Option<Rsvp>, status: Rsvp): (r: Rsvp)
    ensures current.None? ==> r == status
    ensures current.Some? ==> r == Stronger(current.value, status)
  {
    if current.None? || status == Yes || (status == Maybe && current.value != Yes) then status
    else current.value
  }

  /** `rsvpMap` after processing the entries of `r`, in any order. */
  function MergeMap(acc: map<string, Rsvp>, r: map<string, Rsvp>): map<string, Rsvp>
  {
    map k | k in acc.Keys + r.Keys ::
      if k in acc && k in r then Stronger(acc[k], r[k])
      else if k in acc then acc[k]
      else r[k]
  }

  /** `rsvpMap` after the events in order. */
  function MergedRsvps(events: seq<Event>): map<string, Rsvp>
  {
    if |events| == 0 then map[]
    else MergeMap(MergedRsvps(events[..|events| - 1]), events[|events| - 1].rsvps)
  }

  /** The entries of `r` whose key is in `keys`. */
  function Restrict(r: map<string, Rsvp>, keys: set<string>): map<string, Rsvp>
  {
    map k | k in keys && k in r :: r[k]
  }

  lemma MergeMapStep(acc: map<string, Rsvp>, r: map<string, Rsvp>, done: set<string>, k: string)
    requires k in r && k !in done
    ensures var m := MergeMap(acc, Restrict(r, done));
      MergeMap(acc, Restrict(r, done + {k})) ==
        m[k := Update(if k in m then Some(m[k]) else None, r[k])]
  {
  }

  lemma MergeNothing(m0: map<string, Rsvp>, r: map<string, Rsvp>)
    ensures MergeMap(m0, Restrict(r, {})) == m0
  {
    assert Restrict(r, {}) == map[];
  }

  lemma RestrictAll(r: map<string, Rsvp>, keys: set<string>)
    requires r.Keys <= keys
    ensures Restrict(r, keys) == r
  {
  }

  /** The inner loop: each entry of one event's `rsvps`, in whatever order
      the entries come, goes through the update rule. */
  method MergeEntries(m0: map<string, Rsvp>, r: map<string, Rsvp>) returns (m: map<string, Rsvp>)
    ensures m == MergeMap(m0, r)
  {
    m := m0;
    var todo := r.Keys;
    ghost var done: set<string> := {};
    MergeNothing(m0, r);
    while todo != {}
      invariant todo <= r.Keys && done == r.Keys - todo
      invariant m == MergeMap(m0, Restrict(r, done))
      decreases |todo|
    {
      var member :| member in todo;
      var current := if member in m then Some(m[member]) else None;
      MergeMapStep(m0, r, done, member);
      m := m[member := Update(current, r[member])];
      todo := todo - {member};
      done := done + {member};
    }
    RestrictAll(r, done);
  }

  /** The nested loops of `fetchPlanStats` that fill `rsvpMap`. */
  method MergeRsvps(events: seq<Event>) returns (m: map<string, Rsvp>)
    ensures m == MergedRsvps(events)
  {
    m := map[];
    var i := 0;
    while i < |events|
      invariant 0 <= i <= |events|
      invariant m == MergedRsvps(events[..i])
    {
      assert events[..i + 1][..i] == events[..i];
      m := MergeEntries(m, events[i].rsvps);
      i := i + 1;
    }
    assert events[..|events|] == events;
  }

  /** The merged map has a key exactly for the members some event has an
      answer for, and holds the strongest of their answers. */
  lemma {:induction false} MergedRsvpsIsMaximum(events: seq<Event>, k: string)
    ensures k in MergedRsvps(events) <==> exists i :: 0 <= i < |events| && k in events[i].rsvps
    ensures k in MergedRsvps(events) ==>
      (forall i :: 0 <= i < |events| && k in events[i].rsvps ==>
        Rank(events[i].rsvps[k]) <= Rank(MergedRsvps(events)[k])) &&
      (exists i :: 0 <= i < |events| && k in events[i].rsvps && events[i].rsvps[k] == MergedRsvps(events)[k])
  {
    if |events| > 0 {
      var prefix := events[..|events| - 1];
      var last := events[|events| - 1];
      MergedRsvpsIsMaximum(prefix, k);
      assert forall i :: 0 <= i < |prefix| ==> prefix[i] == events[i];
      if exists i :: 0 <= i < |events| && k in events[i].rsvps {
        var i :| 0 <= i < |events| && k in events[i].rsvps;
        if i < |prefix| {
          assert k in prefix[i].rsvps;
        }
      }
      if k in MergedRsvps(prefix) {
        var i :| 0 <= i < |prefix| && k in prefix[i].rsvps && prefix[i].rsvps[k] == MergedRsvps(prefix)[k];
        assert events[i] == prefix[i];
      }
    }
  }

  /** The merged map does not depend on the order in which events arrive. */
  lemma MergedRsvpsOrderIndependent(a: seq<Event>, b: seq<Event>)
    requires multiset(a) == multiset(b)
    ensures MergedRsvps(a) == MergedRsvps(b)
  {
    forall k
      ensures k in MergedRsvps(a) <==> k in MergedRsvps(b)
      ensures k in MergedRsvps(a) ==> MergedRsvps(a)[k] == MergedRsvps(b)[k]
    {
      MergedKeyAgrees(a, b, k);
    }
  }

  lemma MergedKeyAgrees(a: seq<Event>, b: seq<Event>, k: string)
    requires multiset(a) == multiset(b)
    ensures k in MergedRsvps(a) <==> k in MergedRsvps(b)
    ensures k in MergedRsvps(a) ==> MergedRsvps(a)[k] == MergedRsvps(b)[k]
  {
    MergedRsvpsIsMaximum(a, k);
    MergedRsvpsIsMaximum(b, k);
    if k in MergedRsvps(a) {
      var i :| 0 <= i < |a| && k in a[i].rsvps && a[i].rsvps[k] == MergedRsvps(a)[k];
      var j' := SameElement(a, b, i);
      assert k in MergedRsvps(b);
      var j :| 0 <= j < |b| && k in b[j].rsvps && b[j].rsvps[k] == MergedRsvps(b)[k];
      var i' := SameElement(b, a, j);
      assert Rank(MergedRsvps(a)[k]) == Rank(MergedRsvps(b)[k]);
    } else if k in MergedRsvps(b) {
      var j :| 0 <= j < |b| && k in b[j].rsvps;
      var i' := SameElement(b, a, j);
    }
  }

  /** Where `a[i]` sits in a permutation `b` of `a`. */
  lemma SameElement(a: seq<Event>, b: seq<Event>, i: nat) returns (j: nat)
    requires multiset(a) == multiset(b) && i < |a|
    ensures j < |b| && b[j] == a[i]
  {
    assert a[i] in multiset(a);
    assert a[i] in b;
    j :| 0 <= j < |b| && b[j] == a[i];
  }

  /** The number of members whose merged answer is `s`. */
  function CountStatus(m: map<string, Rsvp>, s: Rsvp): nat
  {
    |set k | k in m && m[k] == s|
  }

  /** coming + maybe + notComing is the number of distinct members. */
  lemma CountsPartition(m: map<string, Rsvp>)
    ensures CountStatus(m, Yes) + CountStatus(m, Maybe) + CountStatus(m, No) == |m|
  {
    var ys := set k | k in m && m[k] == Yes;
    var ms := set k | k in m && m[k] == Maybe;
    var ns := set k | k in m && m[k] == No;
    assert |ys + ms| == |ys| + |ms| by {
      assert ys * ms == {};
    }
    assert |ys + ms + ns| == |ys + ms| + |ns| by {
      assert (ys + ms) * ns == {};
    }
    assert ys + ms + ns == m.Keys;
  }

  /** `Object.entries(rsvpMap).filter(([_, s]) => s === 'yes')`, names only:
      each 'yes' member once, in the map's entry order. */
  method ComingEntries(m: map<string, Rsvp>) returns (coming: seq<string>)
    ensures forall k :: k in coming <==> k in m && m[k] == Yes
    ensures forall i, j :: 0 <= i < j < |coming| ==> coming[i] != coming[j]
    ensures |coming| == CountStatus(m, Yes)
  {
    coming := [];
    var todo := m.Keys;
    while todo != {}
      invariant todo <= m.Keys
      invariant forall k :: k in coming <==> k in m && m[k] == Yes && k !in todo
      invariant forall i, j :: 0 <= i < j < |coming| ==> coming[i] != coming[j]
      invariant |coming| == |set k | k in m && m[k] == Yes && k !in todo|
      decreases |todo|
    {
      var k :| k in todo;
      ghost var before := set x | x in m && m[x] == Yes && x !in todo;
      if m[k] == Yes {
        assert (set x | x in m && m[x] == Yes && x !in todo - {k}) == before + {k};
        coming := coming + [k];
      } else {
        assert (set x | x in m && m[x] == Yes && x !in todo - {k}) == before;
      }
      todo := todo - {k};
    }
    assert (set x | x in m && m[x] == Yes && x !in todo) == set x | x in m && m[x] == Yes;
  }

  /** `comingNames`: at most three members, all answering 'yes', no repeats,
      and as many as there are when fewer than three. */
  predicate ComingNamesOk(m: map<string, Rsvp>, names: seq<string>) {
    && |names| == (if CountStatus(m, Yes) < 3 then CountStatus(m, Yes) else 3)
    && (forall i :: 0 <= i < |names| ==> names[i] in m && m[names[i]] == Yes)
    && (forall i, j :: 0 <= i < j < |names| ==> names[i] != names[j])
  }

  // ---------------------------------------------------------------------
  // Money stats
  // ---------------------------------------------------------------------

  /** What an event adds to `totalPending`: its whole bill when positive,
      whoever attends or pays. */
  function PendingAmount(e: Event): (r: real)
    ensures r >= 0.0
    ensures r > 0.0 <==> PositiveBill(e.totalBill)
    ensures PositiveBill(e.totalBill) ==> r == e.totalBill.value
  {
    if PositiveBill(e.totalBill) then e.totalBill.value else 0.0
  }

  function TotalPending(events: seq<Event>): real
  {
    SumBy(events, PendingAmount)
  }

  predicate Billed(e: Event) { PositiveBill(e.totalBill) }

  function BillAmount(e: Event): real { if e.totalBill.Some? then e.totalBill.value else 0.0 }

  /** `totalPending` is the sum of the bills of the events that have a
      positive bill: every other event adds nothing. */
  lemma TotalPendingIsBilled(events: seq<Event>)
    ensures TotalPending(events) == SumBy(Filter(events, Billed), BillAmount)
  {
    SumByFilter(events, BillAmount, Billed, PendingAmount);
  }

  /** The last event, in iteration order, on which the user owes. */
  function LastOwing(events: seq<Event>, u: SessionUser): Option<nat>
  {
    LastIndex(events, e => Owes(e, u))
  }

  /** `moneyStats` for one plan. */
  datatype MoneyStats = MoneyStats(
    totalPending: real,
    currentUserOwes: real,
    owesTo: string,
    payerEmail: string,
    payerAccountDetails: string)

  /** The money stats the loop must end with: the pending and owed sums, and
      the payer fields of the last owing event ('' when there is none). */
  function ExpectedMoney(events: seq<Event>, u: SessionUser): MoneyStats
  {
    var owed := TotalOwed(events, u);
    match LastOwing(events, u)
    case None => MoneyStats(TotalPending(events), owed, "", "", "")
    case Some(i) =>
      var e := events[i];
      MoneyStats(TotalPending(events), owed, OrElse(e.payer, "organizer"),
        OrElse(e.payerEmail, ""), OrElse(e.payerAccountDetails, ""))
  }

  /** What one event does to the money stats: its positive bill joins the
      pending total, the user's share joins the owed total, and when the
      user owes on it its payer fields replace the previous ones. */
  function MoneyStep(acc: MoneyStats, e: Event, u: SessionUser): MoneyStats
  {
    var sums := acc.(totalPending := acc.totalPending + PendingAmount(e),
      currentUserOwes := acc.currentUserOwes + Contribution(e, u));
    if Owes(e, u) then
      sums.(owesTo := OrElse(e.payer, "organizer"), payerEmail := OrElse(e.payerEmail, ""),
        payerAccountDetails := OrElse(e.payerAccountDetails, ""))
    else sums
  }

  /** The expected stats are the stats of the events so far, stepped by the
      next event. */
  lemma ExpectedMoneyStep(events: seq<Event>, u: SessionUser, i: nat)
    requires i < |events|
    ensures ExpectedMoney(events[..i + 1], u) == MoneyStep(ExpectedMoney(events[..i], u), events[i], u)
  {
    TotalOwedStep(events, u, i);
    TotalPendingStep(events, i);
    LastOwingStep(events, u, i);
  }

  lemma TotalPendingStep(events: seq<Event>, i: nat)
    requires i < |events|
    ensures TotalPending(events[..i + 1]) == TotalPending(events[..i]) + PendingAmount(events[i])
  {
    assert events[..i + 1][..i] == events[..i];
  }

  lemma LastOwingStep(events: seq<Event>, u: SessionUser, i: nat)
    requires i < |events|
    ensures LastOwing(events[..i + 1], u) == if Owes(events[i], u) then Some(i) else LastOwing(events[..i], u)
  {
    assert events[..i + 1][..i] == events[..i];
  }

  /** The `forEach` callback on one event, updating the accumulators. */
  method VisitEvent(acc: MoneyStats, event: Event, u: SessionUser) returns (next: MoneyStats)
    ensures next == MoneyStep(acc, event, u)
  {
    next := acc;
    if PositiveBill(event.totalBill) {
      var perPerson := PerPerson(event);
      if IsAttendee(event.attendees, u) && perPerson > 0.0 && !IsPayer(event, u) {
        next := next.(currentUserOwes := next.currentUserOwes + perPerson,
          owesTo := OrElse(event.payer, "organizer"),
          payerEmail := OrElse(event.payerEmail, ""),
          payerAccountDetails := OrElse(event.payerAccountDetails, ""));
      }
      next := next.(totalPending := next.totalPending + event.totalBill.value);
    }
  }

  /** `events.forEach(...)` over the plan's events, the accumulators starting
      at 0 and ''. */
  method ComputeMoneyStats(events: seq<Event>, u: SessionUser) returns (s: MoneyStats)
    ensures s == ExpectedMoney(events, u)
  {
    s := MoneyStats(0.0, 0.0, "", "", "");
    var i := 0;
    while i < |events|
      invariant 0 <= i <= |events|
      invariant s == ExpectedMoney(events[..i], u)
    {
      ExpectedMoneyStep(events, u, i);
      s := VisitEvent(s, events[i], u);
      i := i + 1;
    }
    assert events[..|events|] == events;
  }

  /** A share is never more than the bill it is taken from. */
  lemma ShareAtMostBill(e: Event, u: SessionUser)
    ensures Contribution(e, u) <= PendingAmount(e)
  {
    if PositiveBill(e.totalBill) && |e.attendees| > 0 {
      QuotientAtMost(e.totalBill.value, |e.attendees| as real);
    }
  }

  lemma QuotientAtMost(b: real, n: real)
    requires b > 0.0 && n >= 1.0
    ensures b / n <= b
  {
    var q := b / n;
    assert q * n == b;
    assert q * (n - 1.0) >= 0.0;
  }

  /** What the user owes on a plan is at most the plan's pending total. */
  lemma OwesAtMostPending(events: seq<Event>, u: SessionUser)
    ensures 0.0 <= ExpectedMoney(events, u).currentUserOwes <= ExpectedMoney(events, u).totalPending
  {
    forall e | e in events
      ensures Contribution(e, u) <= PendingAmount(e)
    {
      ShareAtMostBill(e, u);
    }
    SumByMonotone(events, e => Contribution(e, u), PendingAmount);
    TotalOwedNonnegative(events, u);
  }

  /** The events the plan's query returns: those whose `dayPlanId` is the plan's. */
  function PlanEvents(store: seq<Event>, planId: string): (r: seq<Event>)
    ensures forall e :: e in r <==> e in store && e.dayPlanId == planId
  {
    Filter(store, (e: Event) => e.dayPlanId == planId)
  }

  /** The dashboard's figure for one plan never exceeds the header's total
      over all events. */
  lemma PlanOwesAtMostHeader(store: seq<Event>, planId: string, u: SessionUser)
    ensures ExpectedMoney(PlanEvents(store, planId), u).currentUserOwes <= TotalOwed(store, u)
  {
    TotalOwedFilterBound(store, u, (e: Event) => e.dayPlanId == planId);
  }

  // ---------------------------------------------------------------------
  // Per-plan stats and the loop over plans
  // ---------------------------------------------------------------------

  /** `DayPlanStats`. */
  datatype PlanStats = PlanStats(
    planId: string,
    eventCount: nat,
    eventTypes: seq<EventType>,
    coming: nat,
    maybe: nat,
    notComing: nat,
    comingNames: seq<string>,
    money: MoneyStats)

  /** What a plan's stats entry holds, given the plan's events. */
  predicate StatsOf(plan: DayPlan, events: seq<Event>, u: SessionUser, s: PlanStats) {
    var m := MergedRsvps(events);
    && s.planId == plan.id
    && s.eventCount == |events|
    && s.eventTypes == EventTypes(events)
    && s.coming == CountStatus(m, Yes)
    && s.maybe == CountStatus(m, Maybe)
    && s.notComing == CountStatus(m, No)
    && ComingNamesOk(m, s.comingNames)
    && s.money == ExpectedMoney(events, u)
  }

  /** The body of the `try` block once the plan's events are fetched. */
  method ComputePlanStats(plan: DayPlan, events: seq<Event>, u: SessionUser) returns (s: PlanStats)
    ensures StatsOf(plan, events, u, s)
    ensures s.coming + s.maybe + s.notComing == |MergedRsvps(events)|
  {
    var rsvpMap := MergeRsvps(events);
    var coming := ComingEntries(rsvpMap);
    var comingNames := if |coming| < 3 then coming else coming[..3];
    var money := ComputeMoneyStats(events, u);
    s := PlanStats(plan.id, |events|, EventTypes(events), |coming|,
      CountStatus(rsvpMap, Maybe), CountStatus(rsvpMap, No), comingNames, money);
    CountsPartition(rsvpMap);
  }

  /** A fetch of one plan's events: `None` when the query throws. */
  datatype PlanFetch = PlanFetch(plan: DayPlan, events: Option<seq<Event>>)

  predicate Fetched(f: PlanFetch, id: string) {
    f.plan.id == id && f.events.Some?
  }

  /** The last successful fetch for plan `id`: the one whose entry survives
      in `statsMap`. */
  function LastFetched(fetches: seq<PlanFetch>, id: string): Option<nat>
  {
    LastIndex(fetches, f => Fetched(f, id))
  }

  /** An entry is right for a fetch when the fetch succeeded and the entry
      holds the stats of the fetched events. */
  predicate EntryOk(f: PlanFetch, u: SessionUser, s: PlanStats) {
    f.events.Some? && StatsOf(f.plan, f.events.value, u, s)
  }

  /** `statsMap` holds an entry exactly for the plans fetched without error,
      and each entry holds the stats of the last successful fetch for it. */
  ghost predicate StatsMapOk(fetches: seq<PlanFetch>, u: SessionUser, statsMap: map<string, PlanStats>) {
    forall id :: EntryRight(fetches, u, statsMap, id)
  }

  /** Maps "no signed-in user" to an account with neither name nor email,
      which every optional-chained test treats the same way. */
  function AsUser(currentUser: Option<SessionUser>): (u: SessionUser)
    ensures currentUser.Some? ==> u == currentUser.value
    ensures currentUser.None? ==> u.displayName.None? && u.email.None?
  {
    match currentUser
    case Some(u) => u
    case None => SessionUser("", None, None)
  }

  /** `fetchPlanStats`: one `try` per plan, in order. */
  method FetchPlanStats(fetches: seq<PlanFetch>, currentUser: Option<SessionUser>)
    returns (statsMap: map<string, PlanStats>)
    ensures StatsMapOk(fetches, AsUser(currentUser), statsMap)
  {
    var u := AsUser(currentUser);
    statsMap := map[];
    var i := 0;
    while i < |fetches|
      invariant 0 <= i <= |fetches|
      invariant StatsMapOk(fetches[..i], u, statsMap)
    {
      var update := TryPlan(fetches[i], u);
      StatsMapStep(fetches, i, u, statsMap, update);
      if update.Some? {
        statsMap := statsMap[fetches[i].plan.id := update.value];
      }
      i := i + 1;
    }
    assert fetches[..|fetches|] == fetches;
  }

  /** The `try` block for one plan: its stats when the fetch succeeded,
      nothing when it threw. */
  method TryPlan(f: PlanFetch, u: SessionUser) returns (update: Option<PlanStats>)
    ensures update.Some? <==> f.events.Some?
    ensures update.Some? ==> EntryOk(f, u, update.value)
  {
    if f.events.None? {
      return None;
    }
    var s := ComputePlanStats(f.plan, f.events.value, u);
    update := Some(s);
  }

  lemma LastFetchedStep(fetches: seq<PlanFetch>, i: nat, id: string)
    requires i < |fetches|
    ensures LastFetched(fetches[..i + 1], id) ==
      if Fetched(fetches[i], id) then Some(i) else LastFetched(fetches[..i], id)
  {
    assert fetches[..i + 1][..i] == fetches[..i];
  }

  /** `statsMap` has an entry for `id` exactly when some fetch of that plan
      succeeded, and the entry is right for the last such fetch. */
  ghost predicate EntryRight(fetches: seq<PlanFetch>, u: SessionUser, statsMap: map<string, PlanStats>, id: string) {
    (id in statsMap <==> LastFetched(fetches, id).Some?) &&
    (id in statsMap ==> EntryOk(fetches[LastFetched(fetches, id).value], u, statsMap[id]))
  }

  /** One more iteration of the loop over plans, for one plan id: a
      successful fetch writes its entry, a failed one writes nothing. */
  lemma EntryStep(fetches: seq<PlanFetch>, i: nat, u: SessionUser, m: map<string, PlanStats>, update: Option<PlanStats>, id: string)
    requires i < |fetches|
    requires EntryRight(fetches[..i], u, m, id)
    requires update.Some? <==> fetches[i].events.Some?
    requires update.Some? ==> EntryOk(fetches[i], u, update.value)
    ensures EntryRight(fetches[..i + 1], u, if update.Some? then m[fetches[i].plan.id := update.value] else m, id)
  {
    LastFetchedStep(fetches, i, id);
    if !Fetched(fetches[i], id) && id in m {
      var k := LastFetched(fetches[..i], id).value;
      assert fetches[..i + 1][k] == fetches[..i][k];
    }
  }

  /** One more iteration of the loop over plans keeps every entry right. */
  lemma StatsMapStep(fetches: seq<PlanFetch>, i: nat, u: SessionUser, m: map<string, PlanStats>, update: Option<PlanStats>)
    requires i < |fetches|
    requires StatsMapOk(fetches[..i], u, m)
    requires update.Some? <==> fetches[i].events.Some?
    requires update.Some? ==> EntryOk(fetches[i], u, update.value)
    ensures StatsMapOk(fetches[..i + 1], u, if update.Some? then m[fetches[i].plan.id := update.value] else m)
  {
    var after := if update.Some? then m[fetches[i].plan.id := update.value] else m;
    var next := fetches[..i + 1];
    forall id
      ensures EntryRight(next, u, after, id)
    {
      assert EntryRight(fetches[..i], u, m, id);
      EntryStep(fetches, i, u, m, update, id);
    }
  }

  /** A fetch that fails for one plan leaves every other plan's entry as it
      would have been. */
  lemma FailureIsIsolated(fetches: seq<PlanFetch>, i: nat, id: string)
    requires i < |fetches| && fetches[i].plan.id != id
    ensures LastFetched(fetches[i := PlanFetch(fetches[i].plan, None)], id) == LastFetched(fetches, id)
  {
    var g := fetches[i := PlanFetch(fetches[i].plan, None)];
    assert forall k :: 0 <= k < |fetches| ==> (Fetched(g[k], id) <==> Fetched(fetches[k], id));
    var a := LastFetched(g, id);
    var b := LastFetched(fetches, id);
    if a.Some? && b.Some? {
      assert !(a.value < b.value) && !(b.value < a.value);
    }
  }

  // ---------------------------------------------------------------------
  // Upcoming and past plans
  // ---------------------------------------------------------------------

  function UpcomingPlans(plans: seq<DayPlan>, now: int): (r: seq<DayPlan>)
    ensures forall p :: p in r <==> p in plans && p.date.millis >= now
  {
    Filter(plans, (p: DayPlan) => p.date.millis >= now)
  }

  function PastPlans(plans: seq<DayPlan>, now: int): (r: seq<DayPlan>)
    ensures forall p :: p in r <==> p in plans && p.date.millis < now
  {
    Filter(plans, (p: DayPlan) => p.date.millis < now)
  }

  /** With one reading of the clock, each plan is upcoming or past, never
      both, and the two lists together are as long as the plan list. */
  lemma UpcomingPastPartition(plans: seq<DayPlan>, now: int)
    ensures forall p :: p in plans ==> (p in UpcomingPlans(plans, now) <==> p !in PastPlans(plans, now))
    ensures |UpcomingPlans(plans, now)| + |PastPlans(plans, now)| == |plans|
  {
    FilterPartition(plans, (p: DayPlan) => p.date.millis >= now, (p: DayPlan) => p.date.millis < now);
  }

  /** The upcoming list reads the clock before the past list does. With the
      later reading `t2` for the past list, no plan is missing from both
      lists, and a plan is in both exactly when it falls between the two
      readings. */
  lemma UpcomingPastTwoReadings(plans: seq<DayPlan>, t1: int, t2: int)
    requires t1 <= t2
    ensures forall p :: p in plans ==> p in UpcomingPlans(plans, t1) || p in PastPlans(plans, t2)
    ensures forall p :: p in plans ==>
      (p in UpcomingPlans(plans, t1) && p in PastPlans(plans, t2) <==> t1 <= p.date.millis < t2)
  {
  }
}
