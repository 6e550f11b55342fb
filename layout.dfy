/**
 * The header of every page (components/Layout.tsx): the "you owe" badge and
 * the unscheduled-events counter, both recomputed from all stored events.
 */
module Layout {
  import opened Records
  import opened Attribution
  import opened Plans

  /** `fetchTotalOwed`'s loop: `total += perPerson` for each owing event. */
  method ComputeTotalOwed(events: seq<Event>, u: SessionUser) returns (total: real)
    ensures total == TotalOwed(events, u)
    ensures total >= 0.0
  {
    total := 0.0;
    var i := 0;
    while i < |events|
      invariant 0 <= i <= |events|
      invariant total == TotalOwed(events[..i], u)
    {
      var event := events[i];
      TotalOwedStep(events, u, i);
      if PositiveBill(event.totalBill) {
        var perPerson := PerPerson(event);
        if IsAttendee(event.attendees, u) && perPerson > 0.0 && !IsPayer(event, u) {
          total := total + perPerson;
        }
      }
      i := i + 1;
    }
    assert events[..|events|] == events;
    TotalOwedNonnegative(events, u);
  }

  /** `fetchUnscheduledCount`: build the plan map, then `count++` for each
      unscheduled event. */
  method CountUnscheduled(plans: seq<DayPlan>, events: seq<Event>) returns (count: nat)
    ensures count == |Unscheduled(events, PlanIndex(plans))|
    ensures count <= |events|
  {
    var index := IndexPlans(plans);
    count := 0;
    var i := 0;
    while i < |events|
      invariant 0 <= i <= |events|
      invariant count == |Unscheduled(events[..i], index)|
    {
      UnscheduledStep(events, index, i);
      if IsUnscheduled(events[i], index) {
        count := count + 1;
      }
      i := i + 1;
    }
    assert events[..|events|] == events;
  }

  /** The header's two counters, both starting at 0 (`useState(0)`). */
  class HeaderBadges {
    var totalOwed: real
    var unscheduledCount: nat

    constructor ()
      ensures totalOwed == 0.0 && unscheduledCount == 0
    {
      totalOwed := 0.0;
      unscheduledCount := 0;
    }

    /** Without a signed-in user nothing is fetched and the badge keeps its
        value; otherwise it becomes the user's total over all events. Day
        plans play no part. */
    method FetchTotalOwed(currentUser: Option<SessionUser>, events: seq<Event>)
      modifies this`totalOwed
      ensures currentUser.None? ==> totalOwed == old(totalOwed)
      ensures currentUser.Some? ==> totalOwed == TotalOwed(events, currentUser.value)
    {
      if currentUser.None? {
        return;
      }
      totalOwed := ComputeTotalOwed(events, currentUser.value);
    }

    /** Without a signed-in user the counter keeps its value; otherwise it
        becomes the number of unscheduled events. */
    method FetchUnscheduledCount(currentUser: Option<SessionUser>, plans: seq<DayPlan>, events: seq<Event>)
      modifies this`unscheduledCount
      ensures currentUser.None? ==> unscheduledCount == old(unscheduledCount)
      ensures currentUser.Some? ==> unscheduledCount == |Unscheduled(events, PlanIndex(plans))|
    {
      if currentUser.None? {
        return;
      }
      unscheduledCount := CountUnscheduled(plans, events);
    }
  }

  /** A header mounted with nobody signed in shows 0 owed and 0 unscheduled. */
  method HeaderWithoutUser(plans: seq<DayPlan>, events: seq<Event>) returns (owed: real, unscheduled: nat)
    ensures owed == 0.0 && unscheduled == 0
  {
    var header := new HeaderBadges();
    header.FetchTotalOwed(None, events);
    header.FetchUnscheduledCount(None, plans, events);
    owed, unscheduled := header.totalOwed, header.unscheduledCount;
  }
}
