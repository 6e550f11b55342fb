/**
 * The poll box of an event (components/PollControls.tsx): the tally of
 * answers over the plan's members, and the key an answer is stored under.
 */
module Polls {
  import opened Records
  import opened EventsHook

  /** `{ coming, notComing, maybe }`. */
  datatype Tally = Tally(coming: nat, notComing: nat, maybe: nat)

  function Total(t: Tally): nat
  {
    t.coming + t.notComing + t.maybe
  }

  function Plus(a: Tally, b: Tally): Tally
  {
    Tally(a.coming + b.coming, a.notComing + b.notComing, a.maybe + b.maybe)
  }

  /** `rsvps[member.name]`: undefined when the member has not answered. */
  function Lookup(rsvps: map<string, Rsvp>, name: string): Option<Rsvp>
  {
    if name in rsvps then Some(rsvps[name]) else None
  }

  /** The `reduce` callback: the counter named by the status goes up by one;
      an absent status changes nothing. */
  function Count(acc: Tally, status: Option<Rsvp>): Tally
  {
    match status
    case Some(Yes) => acc.(coming := acc.coming + 1)
    case Some(No) => acc.(notComing := acc.notComing + 1)
    case Some(Maybe) => acc.(maybe := acc.maybe + 1)
    case None => acc
  }

  /** `members.reduce(...)` over the first `n` members, left to right. */
  function TallyUpTo(members: seq<Member>, rsvps: map<string, Rsvp>, n: nat): Tally
    requires n <= |members|
  {
    if n == 0 then Tally(0, 0, 0)
    else Count(TallyUpTo(members, rsvps, n - 1), Lookup(rsvps, members[n - 1].name))
  }

  /** The summary the poll box shows. */
  function Summary(members: seq<Member>, rsvps: map<string, Rsvp>): Tally
  {
    TallyUpTo(members, rsvps, |members|)
  }

  /** The number of the first `n` members that have an answer. */
  function Answered(members: seq<Member>, rsvps: map<string, Rsvp>, n: nat): nat
    requires n <= |members|
  {
    if n == 0 then 0
    else Answered(members, rsvps, n - 1) + (if members[n - 1].name in rsvps then 1 else 0)
  }

  /** Each member adds to at most one counter: exactly the one their answer
      names, and none when they have no answer. */
  lemma CountOneCounter(acc: Tally, status: Option<Rsvp>)
    ensures Total(Count(acc, status)) == Total(acc) + (if status.Some? then 1 else 0)
    ensures Count(acc, status).coming == acc.coming + (if status == Some(Yes) then 1 else 0)
    ensures Count(acc, status).notComing == acc.notComing + (if status == Some(No) then 1 else 0)
    ensures Count(acc, status).maybe == acc.maybe + (if status == Some(Maybe) then 1 else 0)
  {
  }

  /** The counters of the first `n` members add up to the number of them
      that answered. */
  lemma {:induction false} TallyUpToTotal(members: seq<Member>, rsvps: map<string, Rsvp>, n: nat)
    requires n <= |members|
    ensures Total(TallyUpTo(members, rsvps, n)) == Answered(members, rsvps, n)
  {
    if n > 0 {
      TallyUpToTotal(members, rsvps, n - 1);
      CountOneCounter(TallyUpTo(members, rsvps, n - 1), Lookup(rsvps, members[n - 1].name));
    }
  }

  /** At most `n` of the first `n` members answered, and exactly `n` iff each
      of them did. */
  lemma {:induction false} AnsweredBounds(members: seq<Member>, rsvps: map<string, Rsvp>, n: nat)
    requires n <= |members|
    ensures Answered(members, rsvps, n) <= n
    ensures Answered(members, rsvps, n) == n <==> forall i :: 0 <= i < n ==> members[i].name in rsvps
  {
    if n > 0 {
      AnsweredBounds(members, rsvps, n - 1);
      if forall i :: 0 <= i < n ==> members[i].name in rsvps {
        assert members[n - 1].name in rsvps;
      }
    }
  }

  /** The three counters add up to the number of members that answered, so
      never more than the number of members, and exactly that many iff every
      member has an answer. */
  lemma SummaryBounds(members: seq<Member>, rsvps: map<string, Rsvp>)
    ensures Total(Summary(members, rsvps)) == Answered(members, rsvps, |members|) <= |members|
    ensures Total(Summary(members, rsvps)) == |members| <==>
      forall i :: 0 <= i < |members| ==> members[i].name in rsvps
  {
    TallyUpToTotal(members, rsvps, |members|);
    AnsweredBounds(members, rsvps, |members|);
  }

  /** Counting into a running sum is counting into the right operand. */
  lemma CountPlus(a: Tally, b: Tally, status: Option<Rsvp>)
    ensures Count(Plus(a, b), status) == Plus(a, Count(b, status))
  {
  }

  /** Over the first `n` positions, `a + b` tallies as `a`. */
  lemma {:induction false} TallyUpToPrefix(a: seq<Member>, b: seq<Member>, rsvps: map<string, Rsvp>, n: nat)
    requires n <= |a|
    ensures TallyUpTo(a + b, rsvps, n) == TallyUpTo(a, rsvps, n)
  {
    if n > 0 {
      TallyUpToPrefix(a, b, rsvps, n - 1);
      assert (a + b)[n - 1] == a[n - 1];
    }
  }

  /** Past `a`, the tally of `a + b` is the tally of `a` plus that of the
      first `n` members of `b`. */
  lemma {:induction false} TallyUpToAppend(a: seq<Member>, b: seq<Member>, rsvps: map<string, Rsvp>, n: nat)
    requires n <= |b|
    ensures TallyUpTo(a + b, rsvps, |a| + n) == Plus(Summary(a, rsvps), TallyUpTo(b, rsvps, n))
  {
    if n == 0 {
      TallyUpToPrefix(a, b, rsvps, |a|);
    } else {
      TallyUpToAppend(a, b, rsvps, n - 1);
      assert (a + b)[|a| + n - 1] == b[n - 1];
      CountPlus(Summary(a, rsvps), TallyUpTo(b, rsvps, n - 1), Lookup(rsvps, b[n - 1].name));
    }
  }

  /** The tally of a concatenation is the sum of the tallies: a member listed
      twice is counted twice. */
  lemma SummaryAppend(a: seq<Member>, b: seq<Member>, rsvps: map<string, Rsvp>)
    ensures Summary(a + b, rsvps) == Plus(Summary(a, rsvps), Summary(b, rsvps))
  {
    TallyUpToAppend(a, b, rsvps, |b|);
  }

  /** A member listed twice with an answer counts two towards the total. */
  lemma DuplicateCountsTwice(m: Member, rsvps: map<string, Rsvp>)
    requires m.name in rsvps
    ensures Total(Summary([m, m], rsvps)) == 2
  {
    SummaryBounds([m, m], rsvps);
  }

  /** Only the first `n` members' names are looked up: entries under any
      other key do not change the tally. */
  lemma {:induction false} TallyIgnoresOtherKeys(members: seq<Member>, rsvps: map<string, Rsvp>, extra: map<string, Rsvp>, n: nat)
    requires n <= |members|
    requires forall k :: k in extra ==> forall i :: 0 <= i < |members| ==> members[i].name != k
    ensures TallyUpTo(members, rsvps + extra, n) == TallyUpTo(members, rsvps, n)
  {
    if n > 0 {
      TallyIgnoresOtherKeys(members, rsvps, extra, n - 1);
      assert members[n - 1].name !in extra;
      assert Lookup(rsvps + extra, members[n - 1].name) == Lookup(rsvps, members[n - 1].name);
    }
  }

  /** Entries whose key is no member's name are not counted. */
  lemma SummaryIgnoresOtherKeys(members: seq<Member>, rsvps: map<string, Rsvp>, extra: map<string, Rsvp>)
    requires forall k :: k in extra ==> forall i :: 0 <= i < |members| ==> members[i].name != k
    ensures Summary(members, rsvps + extra) == Summary(members, rsvps)
  {
    TallyIgnoresOtherKeys(members, rsvps, extra, |members|);
  }

  /** `handleRSVP`: `updateRSVP` as written, keyed by the member's name. A
      name without '.' gets the answer under itself, the key the tally looks
      up. For a dotted name the write goes to the name's first segment:
      the member's own entry stays as it was, and the first segment's entry
      no longer holds a status. */
  function Respond(e: Event, m: Member, status: Rsvp, stamp: Timestamp): (r: Event)
    ensures '.' !in m.name ==> Lookup(r.rsvps, m.name) == Some(status)
    ensures '.' !in m.name ==> forall k :: k != m.name ==> Lookup(r.rsvps, k) == Lookup(e.rsvps, k)
    ensures '.' in m.name ==>
      Lookup(r.rsvps, m.name) == Lookup(e.rsvps, m.name) && Lookup(r.rsvps, FirstSegment(m.name)) == None
    ensures '.' in m.name ==>
      forall k :: k != FirstSegment(m.name) ==> Lookup(r.rsvps, k) == Lookup(e.rsvps, k)
  {
    UpdateRsvpAsWritten(e, m.name, status, stamp)
  }

  /** Counting two answers in either order gives the same tally. */
  lemma CountCommutes(acc: Tally, s: Option<Rsvp>, t: Option<Rsvp>)
    ensures Count(Count(acc, s), t) == Count(Count(acc, t), s)
  {
  }

  /** Writing `status` under the `i`-th member's name, when nobody else in
      the list has that name and it had no answer, counts it once among the
      first `n` members as soon as `n` covers them. */
  lemma {:induction false} TallyAfterAnswer(members: seq<Member>, rsvps: map<string, Rsvp>, i: nat, status: Rsvp, n: nat)
    requires i < |members| && n <= |members| && members[i].name !in rsvps
    requires forall j :: 0 <= j < |members| && j != i ==> members[j].name != members[i].name
    ensures TallyUpTo(members, rsvps[members[i].name := status], n) ==
      if i < n then Count(TallyUpTo(members, rsvps, n), Some(status)) else TallyUpTo(members, rsvps, n)
  {
    if n > 0 {
      var name := members[i].name;
      var after := rsvps[name := status];
      var last := members[n - 1].name;
      TallyAfterAnswer(members, rsvps, i, status, n - 1);
      if n - 1 == i {
        assert Lookup(after, last) == Some(status);
        assert Lookup(rsvps, last) == None;
      } else {
        assert last != name;
        assert Lookup(after, last) == Lookup(rsvps, last);
        if i < n - 1 {
          CountCommutes(TallyUpTo(members, rsvps, n - 1), Some(status), Lookup(rsvps, last));
        }
      }
    }
  }

  /** After a member not yet answered answers, the tally over a list naming
      them once grows by one in the counter of that answer, as long as the
      name holds no '.' (see `RespondDottedCounts` for the other case). */
  lemma RespondCounts(members: seq<Member>, e: Event, i: nat, status: Rsvp, stamp: Timestamp)
    requires i < |members| && members[i].name !in e.rsvps && '.' !in members[i].name
    requires forall j :: 0 <= j < |members| && j != i ==> members[j].name != members[i].name
    ensures Summary(members, Respond(e, members[i], status, stamp).rsvps) ==
      Count(Summary(members, e.rsvps), Some(status))
  {
    TallyAfterAnswer(members, e.rsvps, i, status, |members|);
  }

  /** The tally of the first `n` members depends only on their own
      entries. */
  lemma {:induction false} TallyCongruent(members: seq<Member>, r1: map<string, Rsvp>, r2: map<string, Rsvp>, n: nat)
    requires n <= |members|
    requires forall j :: 0 <= j < n ==> Lookup(r1, members[j].name) == Lookup(r2, members[j].name)
    ensures TallyUpTo(members, r1, n) == TallyUpTo(members, r2, n)
  {
    if n > 0 {
      TallyCongruent(members, r1, r2, n - 1);
    }
  }

  /** A member whose name holds a '.' answers: as the write is made, the
      answer is lost, and the tally over a list in which nobody is named
      after the name's first segment does not move at all. */
  lemma RespondDottedCounts(members: seq<Member>, e: Event, i: nat, status: Rsvp, stamp: Timestamp)
    requires i < |members| && '.' in members[i].name
    requires forall j :: 0 <= j < |members| ==> members[j].name != FirstSegment(members[i].name)
    ensures Summary(members, Respond(e, members[i], status, stamp).rsvps) == Summary(members, e.rsvps)
  {
    TallyCongruent(members, Respond(e, members[i], status, stamp).rsvps, e.rsvps, |members|);
  }
}
