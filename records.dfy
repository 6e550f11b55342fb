/**
 * The planner's stored records (treat-planner/src/types/index.ts) as values.
 * Fields the TypeScript marks optional, and fields the code tests for
 * absence, are `Option`s; "absent" and "present" stay distinguishable because
 * the payer test compares optional values directly.
 */
module Records {

  datatype Option<+T> = None | Some(value: T)

  /** `RSVPStatus`: 'yes' | 'no' | 'maybe'. */
  datatype Rsvp = No | Maybe | Yes

  /** `EventType`: 'Cricket' | 'Food' | 'Movie' | 'Other'. */
  datatype EventType = Cricket | Food | Movie | Other

  /** A stored instant, together with the two local-time readings the pages
      take of it: the calendar day (`toDateString`) and the year
      (`getFullYear`). The time zone that relates them is outside the model. */
  datatype Timestamp = Timestamp(millis: int, day: int, year: int)

  /** A member of a day plan: a display name and perhaps an email. */
  datatype Member = Member(name: string, email: Option<string>)

  datatype DayPlan = DayPlan(
    id: string,
    ownerId: string,
    ownerEmail: string,
    title: string,
    date: Timestamp,
    description: Option<string>,
    members: seq<Member>,
    createdAt: Timestamp,
    updatedAt: Timestamp)

  /** An event ("treat"). `attendees` are display names sharing the bill;
      `rsvps` maps a display name to its poll answer. */
  datatype Event = Event(
    id: string,
    dayPlanId: string,
    ownerId: string,
    ownerEmail: string,
    title: string,
    eventType: EventType,
    dateTime: Option<Timestamp>,
    location: Option<string>,
    locationUrl: Option<string>,
    notes: Option<string>,
    totalBill: Option<real>,
    payer: Option<string>,
    payerEmail: Option<string>,
    payerAccountDetails: Option<string>,
    attendees: seq<string>,
    rsvps: map<string, Rsvp>,
    createdAt: Timestamp,
    updatedAt: Timestamp)

  /** The signed-in account as the identity provider hands it over; its
      display name and email may be missing. */
  datatype SessionUser = SessionUser(uid: string, displayName: Option<string>, email: Option<string>)

  /** A registered user's profile document. */
  datatype UserProfile = UserProfile(id: string, displayName: string, email: string)

  /** JavaScript truthiness of an optional string: present and non-empty. */
  predicate Truthy(o: Option<string>) {
    o.Some? && o.value != ""
  }

  /** `o || fallback` on an optional string. */
  function OrElse(o: Option<string>, fallback: string): (r: string)
    ensures Truthy(o) ==> r == o.value
    ensures !Truthy(o) ==> r == fallback
  {
    if o.Some? && o.value != "" then o.value else fallback
  }

  /** `bill && bill > 0` on an optional amount. */
  predicate PositiveBill(bill: Option<real>) {
    bill.Some? && bill.value > 0.0
  }
  /** `DayPlanFormData`, and its `Partial` form for updates (every field
      optional). */
  datatype DayPlanForm = DayPlanForm(
    title: string,
    date: Timestamp,
    description: Option<string>,
    membersList: Option<string>)

  datatype DayPlanPatch = DayPlanPatch(
    title: Option<string>,
    date: Option<Timestamp>,
    description: Option<string>,
    membersList: Option<string>)

  /** `EventFormData`, and its `Partial` form for updates. */
  datatype EventForm = EventForm(
    title: string,
    eventType: EventType,
    dateTime: Timestamp,
    location: Option<string>,
    locationUrl: Option<string>,
    notes: Option<string>,
    totalBill: Option<real>,
    payer: Option<string>,
    payerEmail: Option<string>,
    payerAccountDetails: Option<string>,
    selectedMembers: seq<string>)

  datatype EventPatch = EventPatch(
    title: Option<string>,
    eventType: Option<EventType>,
    dateTime: Option<Timestamp>,
    location: Option<string>,
    locationUrl: Option<string>,
    notes: Option<string>,
    totalBill: Option<real>,
    payer: Option<string>,
    payerEmail: Option<string>,
    payerAccountDetails: Option<string>,
    selectedMembers: Option<seq<string>>)
}
