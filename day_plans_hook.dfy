/**
 * The day-plan writes of hooks/useDayPlans.ts: parsing the comma-separated
 * member list, the record `createDayPlan` stores, and the partial update
 * `updateDayPlan` applies.
 */
module DayPlansHook {
  import opened Text
  import opened Records

  /** One piece of the member list: trimmed; when it contains an email-like
      match it is named by its text before the first '@' and keeps the
      trimmed piece as email, otherwise it is the name. */
  function ParseMember(piece: string): (m: Member)
    ensures m.email.Some? <==> LooksLikeEmail(Trim(piece))
    ensures |m.name| <= |Trim(piece)| && m.name == Trim(piece)[..|m.name|]
    ensures m.email.Some? ==>
      m.email.value == Trim(piece) && '@' !in m.name && Trim(piece)[|m.name|] == '@'
    ensures m.email.None? ==> m.name == Trim(piece)
  {
    var trimmed := Trim(piece);
    if LooksLikeEmail(trimmed) then
      BeforeAtOfEmail(trimmed);
      Member(BeforeAt(trimmed), Some(trimmed))
    else Member(trimmed, None)
  }

  /** A string that looks like an email has an '@', so the name stops short
      of its end. */
  lemma BeforeAtOfEmail(s: string)
    requires LooksLikeEmail(s)
    ensures |BeforeAt(s)| < |s|
  {
    var i, j :| 0 <= i < j < |s| && EmailMatchAt(s, i, j);
    assert s[i] == '@';
  }

  /** `membersList.split(',').map(...)`. */
  function ParseMembers(list: string): (r: seq<Member>)
    ensures |r| == |Split(list, ',')|
    ensures forall k :: 0 <= k < |r| ==> r[k] == ParseMember(Split(list, ',')[k])
  {
    var pieces := Split(list, ',');
    seq(|pieces|, k requires 0 <= k < |pieces| => ParseMember(pieces[k]))
  }

  /** One member per comma-separated piece: the list has one more member
      than it has commas. */
  lemma MemberCount(list: string)
    ensures |ParseMembers(list)| == Occurrences(list, ',') + 1
  {
    SplitCount(list, ',');
  }

  /** No member name or email ever contains the separator. */
  lemma NoCommaInMembers(list: string)
    ensures forall k :: 0 <= k < |ParseMembers(list)| ==>
      ',' !in ParseMembers(list)[k].name &&
      (ParseMembers(list)[k].email.Some? ==> ',' !in ParseMembers(list)[k].email.value)
  {
    var pieces := Split(list, ',');
    forall k | 0 <= k < |pieces|
      ensures ',' !in ParseMember(pieces[k]).name
      ensures ParseMember(pieces[k]).email.Some? ==> ',' !in ParseMember(pieces[k]).email.value
    {
      var t := Trim(pieces[k]);
      assert forall c :: c in t ==> c in pieces[k];
      var m := ParseMember(pieces[k]);
      assert forall c :: c in m.name ==> c in t;
    }
  }

  /** The empty string is one empty piece: it yields a single member with an
      empty name and no email. */
  lemma EmptyListOneMember()
    ensures ParseMembers("") == [Member("", None)]
  {
    assert Split("", ',') == [""];
    assert ParseMember("") == Member("", None) by {
      assert Trim("") == "";
    }
    assert |ParseMembers("")| == 1;
  }

  /** `createDayPlan`: the stored record. An absent or empty member list
      gives no members; an absent description is stored as ''. The id and the
      server time stamp are supplied by the store. */
  function CreateDayPlan(form: DayPlanForm, userId: string, userEmail: string, id: string, stamp: Timestamp): (p: DayPlan)
    ensures !Truthy(form.membersList) ==> p.members == []
    ensures Truthy(form.membersList) ==> p.members == ParseMembers(form.membersList.value)
    ensures p.description == Some(OrElse(form.description, ""))
    ensures p.id == id && p.ownerId == userId && p.ownerEmail == userEmail
    ensures p.title == form.title && p.date == form.date
    ensures p.createdAt == stamp && p.updatedAt == stamp
  {
    var members := if form.membersList.Some? && form.membersList.value != "" then ParseMembers(form.membersList.value) else [];
    DayPlan(id, userId, userEmail, form.title, form.date, Some(OrElse(form.description, "")), members, stamp, stamp)
  }

  /** `updateDayPlan`: `updateData` starts with the time stamp and gains one
      field per condition; the store then overwrites exactly those fields. */
  method UpdateDayPlan(plan: DayPlan, patch: DayPlanPatch, stamp: Timestamp) returns (updated: DayPlan)
    ensures updated.title == (if Truthy(patch.title) then patch.title.value else plan.title)
    ensures updated.date == (if patch.date.Some? then patch.date.value else plan.date)
    ensures updated.description == (if patch.description.Some? then patch.description else plan.description)
    ensures updated.members == (if patch.membersList.Some? then ParseMembers(patch.membersList.value) else plan.members)
    ensures updated == plan.(title := updated.title, date := updated.date, description := updated.description,
      members := updated.members, updatedAt := stamp)
  {
    updated := plan.(updatedAt := stamp);
    if patch.title.Some? && patch.title.value != "" {
      updated := updated.(title := patch.title.value);
    }
    if patch.date.Some? {
      updated := updated.(date := patch.date.value);
    }
    if patch.description.Some? {
      updated := updated.(description := patch.description);
    }
    if patch.membersList.Some? {
      updated := updated.(members := ParseMembers(patch.membersList.value));
    }
  }

  /** Updating with an empty member list stores one empty-named member,
      where creating with it stores none. */
  method EmptyListCreateVersusUpdate(form: DayPlanForm, userId: string, userEmail: string, id: string, stamp: Timestamp)
    returns (created: DayPlan, updated: DayPlan)
    requires form.membersList == Some("")
    ensures created.members == []
    ensures updated.members == [Member("", None)]
  {
    created := CreateDayPlan(form, userId, userEmail, id, stamp);
    updated := UpdateDayPlan(created, DayPlanPatch(None, None, None, Some("")), stamp);
    EmptyListOneMember();
  }
}
