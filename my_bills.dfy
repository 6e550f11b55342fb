/**
 * The "My Bills" page (pages/MyBillsPage.tsx): one bill per event on which
 * the signed-in user owes and whose day plan exists, urgent bills first,
 * with the page's filters and totals.
 */
module MyBills {
  import opened Records
  import opened Seqs
  import opened Attribution
  import opened Plans

  /** `BillDetail`. */
  datatype Bill = Bill(
    dayPlanId: string,
    dayPlanTitle: string,
    dayPlanDate: Timestamp,
    eventId: string,
    eventTitle: string,
    eventType: EventType,
    totalBill: real,
    amountOwed: real,
    payerName: string,
    payerEmail: string,
    payerAccountDetails: string,
    isUrgent: bool)

  /** Due today or tomorrow, compared by calendar day, not by instant. */
  predicate IsUrgent(planDate: Timestamp, today: int) {
    planDate.day == today || planDate.day == today + 1
  }

  /** The bill one event yields for the user, if any. */
  function BillFor(e: Event, index: map<string, DayPlan>, u: SessionUser, today: int): (r: Option<Bill>)
    ensures r.Some? <==> Owes(e, u) && e.dayPlanId in index
    ensures r.Some? ==>
      var b := r.value;
      var plan := index[e.dayPlanId];
      && b.amountOwed == PerPerson(e) && b.amountOwed > 0.0
      && b.eventId == e.id && b.dayPlanId == plan.id && b.dayPlanDate == plan.date
      && b.dayPlanTitle == plan.title && b.eventTitle == e.title && b.eventType == e.eventType
      && b.totalBill == e.totalBill.value
      && (b.isUrgent <==> plan.date.day == today || plan.date.day == today + 1)
      && b.payerName == OrElse(e.payer, "Unknown")
      && b.payerEmail == OrElse(e.payerEmail, "")
      && b.payerAccountDetails == OrElse(e.payerAccountDetails, "")
  {
    if Owes(e, u) && e.dayPlanId in index then
      var plan := index[e.dayPlanId];
      Some(Bill(
        plan.id, plan.title, plan.date, e.id, e.title, e.eventType, e.totalBill.value,
        PerPerson(e), OrElse(e.payer, "Unknown"), OrElse(e.payerEmail, ""),
        OrElse(e.payerAccountDetails, ""), IsUrgent(plan.date, today)))
    else None
  }

  /** `billsList` before sorting: the bills in event order. */
  function CollectBills(events: seq<Event>, index: map<string, DayPlan>, u: SessionUser, today: int): (r: seq<Bill>)
    ensures |r| <= |events|
  {
    if |events| == 0 then []
    else
      var rest := CollectBills(events[..|events| - 1], index, u, today);
      match BillFor(events[|events| - 1], index, u, today)
      case Some(b) => rest + [b]
      case None => rest
  }

  /** Every collected bill comes from an owing event whose plan exists, and
      carries a positive amount. */
  lemma {:induction false} CollectedBillsOwed(events: seq<Event>, index: map<string, DayPlan>, u: SessionUser, today: int)
    ensures forall b :: b in CollectBills(events, index, u, today) ==>
      b.amountOwed > 0.0 &&
      exists i :: 0 <= i < |events| && BillFor(events[i], index, u, today) == Some(b)
  {
    if events != [] {
      var prefix := events[..|events| - 1];
      CollectedBillsOwed(prefix, index, u, today);
      forall b | b in CollectBills(events, index, u, today)
        ensures b.amountOwed > 0.0
        ensures exists i :: 0 <= i < |events| && BillFor(events[i], index, u, today) == Some(b)
      {
        if b in CollectBills(prefix, index, u, today) {
          var i :| 0 <= i < |prefix| && BillFor(prefix[i], index, u, today) == Some(b);
          assert events[i] == prefix[i];
        } else {
          assert BillFor(events[|events| - 1], index, u, today) == Some(b);
        }
      }
    }
  }

  /** Every event that yields a bill has it in the list, right after the
      bills of the events before it: no bill is lost and the list keeps the
      events' order. */
  lemma {:induction false} CollectBillsComplete(events: seq<Event>, index: map<string, DayPlan>, u: SessionUser, today: int, i: nat)
    requires i < |events| && BillFor(events[i], index, u, today).Some?
    ensures var before := |CollectBills(events[..i], index, u, today)|;
      before < |CollectBills(events, index, u, today)| &&
      CollectBills(events, index, u, today)[before] == BillFor(events[i], index, u, today).value
  {
    var prefix := events[..|events| - 1];
    if i == |events| - 1 {
      assert events[..i] == prefix;
    } else {
      assert prefix[..i] == events[..i];
      assert prefix[i] == events[i];
      CollectBillsComplete(prefix, index, u, today, i);
    }
  }

  /** The list holds the bill of every owing event whose plan exists. */
  lemma EveryBillCollected(events: seq<Event>, index: map<string, DayPlan>, u: SessionUser, today: int)
    ensures forall i :: 0 <= i < |events| && Owes(events[i], u) && events[i].dayPlanId in index ==>
      BillFor(events[i], index, u, today).value in CollectBills(events, index, u, today)
  {
    forall i | 0 <= i < |events| && Owes(events[i], u) && events[i].dayPlanId in index
      ensures BillFor(events[i], index, u, today).value in CollectBills(events, index, u, today)
    {
      CollectBillsComplete(events, index, u, today, i);
    }
  }

  /** The sum of the amounts owed on a list of bills (`reduce` over `amountOwed`). */
  function BillsTotal(bills: seq<Bill>): real
  {
    SumBy(bills, AmountOwed)
  }

  function AmountOwed(b: Bill): real { b.amountOwed }

  /** The page's total never exceeds the header's: they agree except that
      the page drops events whose day plan is missing. */
  lemma {:induction false} BillsTotalVersusHeader(events: seq<Event>, index: map<string, DayPlan>, u: SessionUser, today: int)
    ensures BillsTotal(CollectBills(events, index, u, today)) <= TotalOwed(events, u)
    ensures (forall i :: 0 <= i < |events| ==> events[i].dayPlanId in index) ==>
      BillsTotal(CollectBills(events, index, u, today)) == TotalOwed(events, u)
  {
    if events != [] {
      var prefix := events[..|events| - 1];
      var last := events[|events| - 1];
      BillsTotalVersusHeader(prefix, index, u, today);
      var rest := CollectBills(prefix, index, u, today);
      match BillFor(last, index, u, today)
      case Some(b) =>
        SumByAppend(rest, [b], AmountOwed);
        assert [b][..0] == [];
      case None =>
    }
  }

  /** The sort order: urgent before non-urgent, then earlier plan first. */
  predicate BillLe(a: Bill, b: Bill) {
    (a.isUrgent && !b.isUrgent) ||
    (a.isUrgent == b.isUrgent && a.dayPlanDate.millis <= b.dayPlanDate.millis)
  }

  /** No non-urgent bill precedes an urgent one, and bills of equal urgency
      appear in non-decreasing date order. */
  predicate BillsOrdered(s: seq<Bill>) {
    forall i, j :: 0 <= i < j < |s| ==> BillLe(s[i], s[j])
  }

  lemma BillLeTotalPreorder(a: Bill, b: Bill, c: Bill)
    ensures BillLe(a, b) || BillLe(b, a)
    ensures BillLe(a, b) && BillLe(b, c) ==> BillLe(a, c)
  {
  }

  /** Exchanges `a[j]` and `a[j + 1]`. */
  method SwapAdjacent(a: array<Bill>, j: nat)
    requires j + 1 < a.Length
    modifies a
    ensures a[j] == old(a[j + 1]) && a[j + 1] == old(a[j])
    ensures forall k :: 0 <= k < a.Length && k != j && k != j + 1 ==> a[k] == old(a[k])
    ensures multiset(a[..]) == multiset(old(a[..]))
  {
    a[j], a[j + 1] := a[j + 1], a[j];
  }

  /** `billsList.sort(...)`, in place: insertion by adjacent swaps. */
  method SortBills(a: array<Bill>)
    modifies a
    ensures BillsOrdered(a[..])
    ensures multiset(a[..]) == multiset(old(a[..]))
  {
    var i := 0;
    while i < a.Length
      invariant 0 <= i <= a.Length
      invariant forall k, l :: 0 <= k < l < i ==> BillLe(a[k], a[l])
      invariant multiset(a[..]) == multiset(old(a[..]))
    {
      var j := i;
      while j > 0 && !BillLe(a[j - 1], a[j])
        invariant 0 <= j <= i
        invariant multiset(a[..]) == multiset(old(a[..]))
        invariant forall k, l :: 0 <= k < l <= i && k != j && l != j ==> BillLe(a[k], a[l])
        invariant forall l :: j < l <= i ==> BillLe(a[j], a[l])
      {
        BillLeTotalPreorder(a[j - 1], a[j], a[j]);
        SwapAdjacent(a, j - 1);
        j := j - 1;
      }
      forall k, l | 0 <= k < l <= i
        ensures BillLe(a[k], a[l])
      {
        if l == j && k < j - 1 {
          BillLeTotalPreorder(a[k], a[j - 1], a[j]);
        }
      }
      i := i + 1;
    }
  }

  /** One more event adds its bill, if it yields one, at the end. */
  lemma CollectBillsStep(events: seq<Event>, index: map<string, DayPlan>, u: SessionUser, today: int, i: nat)
    requires i < |events|
    ensures CollectBills(events[..i + 1], index, u, today) ==
      CollectBills(events[..i], index, u, today) +
        (match BillFor(events[i], index, u, today) case Some(b) => [b] case None => [])
  {
    assert events[..i + 1][..i] == events[..i];
  }

  /** The `forEach` over the events that pushes each bill onto `billsList`. */
  method PushBills(events: seq<Event>, index: map<string, DayPlan>, u: SessionUser, today: int)
    returns (list: seq<Bill>)
    ensures list == CollectBills(events, index, u, today)
  {
    list := [];
    var i := 0;
    while i < |events|
      invariant 0 <= i <= |events|
      invariant list == CollectBills(events[..i], index, u, today)
    {
      CollectBillsStep(events, index, u, today, i);
      var bill := BillFor(events[i], index, u, today);
      if bill.Some? {
        list := list + [bill.value];
      }
      i := i + 1;
    }
    assert events[..|events|] == events;
  }

  /** `fetchAllBills`: without a user nothing is fetched and the list stays
      empty; otherwise it holds exactly the collected bills, sorted. */
  method FetchAllBills(currentUser: Option<SessionUser>, plans: seq<DayPlan>, events: seq<Event>, today: int)
    returns (bills: seq<Bill>)
    ensures currentUser.None? ==> bills == []
    ensures currentUser.Some? ==>
      multiset(bills) == multiset(CollectBills(events, PlanIndex(plans), currentUser.value, today))
    ensures currentUser.Some? ==>
      BillsTotal(bills) == BillsTotal(CollectBills(events, PlanIndex(plans), currentUser.value, today))
    ensures BillsOrdered(bills)
  {
    if currentUser.None? {
      return [];
    }
    var u := currentUser.value;
    var index := IndexPlans(plans);
    var list := PushBills(events, index, u, today);
    var a := new Bill[|list|](k requires 0 <= k < |list| => list[k]);
    assert a[..] == list;
    SortBills(a);
    bills := a[..];
    SumByPermutation(bills, list, AmountOwed);
  }

  /** The page's filter tabs. */
  datatype BillFilter = All | UrgentOnly | Paid

  predicate Shown(filter: BillFilter, b: Bill) {
    match filter
    case UrgentOnly => b.isUrgent
    case Paid => false
    case All => true
  }

  /** `filteredBills`. */
  function FilterBills(bills: seq<Bill>, filter: BillFilter): (r: seq<Bill>)
    ensures forall b :: b in r <==> b in bills && Shown(filter, b)
  {
    Filter(bills, b => Shown(filter, b))
  }

  /** 'all' shows every bill in order, 'paid' shows none, 'urgent' shows
      exactly the urgent ones. */
  lemma {:induction false} FilterTabs(bills: seq<Bill>)
    ensures FilterBills(bills, All) == bills
    ensures FilterBills(bills, Paid) == []
    ensures forall b :: b in FilterBills(bills, UrgentOnly) <==> b in bills && b.isUrgent
  {
    if bills != [] {
      FilterTabs(bills[..|bills| - 1]);
      assert bills == bills[..|bills| - 1] + [bills[|bills| - 1]];
    }
  }

  /** `urgentTotal`. */
  function UrgentTotal(bills: seq<Bill>): real
  {
    BillsTotal(FilterBills(bills, UrgentOnly))
  }

  /** With non-negative amounts (as every fetched bill has), the urgent total
      is at most the grand total. */
  lemma UrgentTotalBounded(bills: seq<Bill>)
    requires forall b :: b in bills ==> b.amountOwed >= 0.0
    ensures 0.0 <= UrgentTotal(bills) <= BillsTotal(bills)
  {
    SumByFilterBound(bills, AmountOwed, b => Shown(UrgentOnly, b));
    SumByNonnegative(FilterBills(bills, UrgentOnly), AmountOwed);
  }
}
