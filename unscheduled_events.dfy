/**
 * The unscheduled-events page (pages/UnscheduledEventsPage.tsx): every
 * stored event the shared classifier calls unscheduled, in store order.
 */
module UnscheduledEvents {
  import opened Records
  import opened Seqs
  import opened Plans
  import opened Layout

  /** `fetchUnscheduledEvents`: without a user nothing is fetched and the list
      stays empty; otherwise the loop pushes each unscheduled event. */
  method FetchUnscheduledEvents(currentUser: Option<SessionUser>, plans: seq<DayPlan>, events: seq<Event>)
    returns (unscheduled: seq<Event>)
    ensures currentUser.None? ==> unscheduled == []
    ensures currentUser.Some? ==> unscheduled == Unscheduled(events, PlanIndex(plans))
  {
    unscheduled := [];
    if currentUser.None? {
      return;
    }
    var index := IndexPlans(plans);
    var i := 0;
    while i < |events|
      invariant 0 <= i <= |events|
      invariant unscheduled == Unscheduled(events[..i], index)
    {
      UnscheduledStep(events, index, i);
      var event := events[i];
      if IsUnscheduled(event, index) {
        unscheduled := unscheduled + [event];
      }
      i := i + 1;
    }
    assert events[..|events|] == events;
  }

  /** The list keeps store order: its k-th event sits at the k-th of an
      ascending run of positions in the store. */
  lemma UnscheduledKeepsOrder(events: seq<Event>, index: map<string, DayPlan>)
    ensures var pos := FilterPositions(events, e => IsUnscheduled(e, index));
      && |pos| == |Unscheduled(events, index)|
      && (forall k :: 0 <= k < |pos| ==> pos[k] < |events| && events[pos[k]] == Unscheduled(events, index)[k])
      && (forall k, l :: 0 <= k < l < |pos| ==> pos[k] < pos[l])
  {
    FilterKeepsOrder(events, e => IsUnscheduled(e, index));
  }

  /** For a signed-in user the page lists exactly as many events as the
      header's counter shows. */
  method PageAgreesWithHeader(u: SessionUser, plans: seq<DayPlan>, events: seq<Event>)
    returns (listed: seq<Event>, counted: nat)
    ensures |listed| == counted
  {
    listed := FetchUnscheduledEvents(Some(u), plans, events);
    counted := CountUnscheduled(plans, events);
  }
}
