/**
 * The day-plan lookup every page builds (`dayPlansMap`, filled with
 * `Map.set` in snapshot order) and the "unscheduled" classification that
 * Layout and UnscheduledEventsPage share word for word.
 */
module Plans {
  import opened Records
  import opened Seqs

  /** The map `dayPlansMap` holds after `set(doc.id, ...)` for each plan in
      order: a later plan with the same id replaces an earlier one. */
  function PlanIndex(plans: seq<DayPlan>): (m: map<string, DayPlan>)
    ensures forall id :: id in m <==> exists i :: 0 <= i < |plans| && plans[i].id == id
    ensures forall id :: id in m ==> m[id] in plans && m[id].id == id
  {
    if |plans| == 0 then map[]
    else
      var last := plans[|plans| - 1];
      var m := PlanIndex(plans[..|plans| - 1]);
      assert forall i :: 0 <= i < |plans| - 1 ==> plans[..|plans| - 1][i] == plans[i];
      m[last.id := last]
  }

  /** The looked-up plan is the last one carrying that id. */
  lemma {:induction false} PlanIndexLast(plans: seq<DayPlan>, i: nat)
    requires i < |plans|
    requires forall j :: i < j < |plans| ==> plans[j].id != plans[i].id
    ensures PlanIndex(plans)[plans[i].id] == plans[i]
  {
    if i < |plans| - 1 {
      PlanIndexLast(plans[..|plans| - 1], i);
    }
  }

  /** The loop that fills `dayPlansMap`. */
  method IndexPlans(plans: seq<DayPlan>) returns (m: map<string, DayPlan>)
    ensures m == PlanIndex(plans)
  {
    m := map[];
    var i := 0;
    while i < |plans|
      invariant 0 <= i <= |plans|
      invariant m == PlanIndex(plans[..i])
    {
      assert plans[..i + 1][..i] == plans[..i];
      m := m[plans[i].id := plans[i]];
      i := i + 1;
    }
    assert plans[..|plans|] == plans;
  }

  /** Years at or past this one mark "no date chosen yet". */
  const SentinelYear := 2099

  /** An event is unscheduled when its plan is missing, the plan's year is the
      sentinel or later, its own date is missing, or its own year is the
      sentinel or later. */
  predicate IsUnscheduled(e: Event, index: map<string, DayPlan>) {
    || e.dayPlanId !in index
    || index[e.dayPlanId].date.year >= SentinelYear
    || e.dateTime.None?
    || e.dateTime.value.year >= SentinelYear
  }

  /** The unscheduled events, in input order. */
  function Unscheduled(events: seq<Event>, index: map<string, DayPlan>): (r: seq<Event>)
    ensures |r| <= |events|
    ensures forall e :: e in r <==> e in events && IsUnscheduled(e, index)
  {
    Filter(events, e => IsUnscheduled(e, index))
  }

  lemma UnscheduledStep(events: seq<Event>, index: map<string, DayPlan>, i: nat)
    requires i < |events|
    ensures Unscheduled(events[..i + 1], index) ==
      Unscheduled(events[..i], index) + (if IsUnscheduled(events[i], index) then [events[i]] else [])
  {
    assert events[..i + 1][..i] == events[..i];
  }

  /** An event whose plan does not exist is always unscheduled. */
  lemma OrphanIsUnscheduled(e: Event, index: map<string, DayPlan>)
    requires e.dayPlanId !in index
    ensures IsUnscheduled(e, index)
  {
  }

  /** The sentinel is inclusive, and an event whose plan exists and whose two
      dates are both present and before the sentinel is scheduled. */
  lemma SentinelBoundary(e: Event, index: map<string, DayPlan>)
    requires e.dayPlanId in index && e.dateTime.Some?
    ensures index[e.dayPlanId].date.year == SentinelYear ==> IsUnscheduled(e, index)
    ensures e.dateTime.value.year == SentinelYear ==> IsUnscheduled(e, index)
    ensures !IsUnscheduled(e, index) <==>
      index[e.dayPlanId].date.year < SentinelYear && e.dateTime.value.year < SentinelYear
  {
  }
}
