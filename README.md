# treat-planner: bill attribution and event classification

treat-planner is a small web app where a group plans "day plans" made of
events (treats). Each event may carry a bill, a payer and a list of
attendees, and members answer a poll for each event. This project models in
Dafny the app's core, the rules that decide money and scheduling:

- **Attribution.** Three screens decide whether the signed-in user owes on an
  event: the "My Bills" page, the header of every page and the dashboard.
  Each of them writes the rule out inline. The rule: the bill is positive; an
  attendee name, lower-cased and trimmed, equals the user's display name or
  the local part of their email; and the user is not the payer. The user
  then owes the bill divided by the number of attendees. Module
  `Attribution` states the rule once; `MyBills`, `Layout` and `Dashboard` run
  their own loops over it and are proved to agree with it.
- **Scheduling.** An event is *unscheduled* when its day plan is missing,
  the plan's year is 2099 or later, the event has no date, or the event's
  year is 2099 or later (`Plans`). The header's counter and the
  unscheduled page use this same test (`Layout`, `UnscheduledEvents`).
- **Dashboard statistics** (`Dashboard`):
  - the distinct event types;
  - the strongest RSVP per member across a plan's events, with the
    coming/maybe/no counts;
  - the money owed on each plan;
  - per-plan error isolation;
  - the upcoming/past split.
- **Writes.** The record `createDayPlan` stores, with its comma-separated
  member parsing, and the partial update `updateDayPlan` applies
  (`DayPlansHook`). Likewise `createEvent`, `updateEvent`, `updateRSVP` and
  `updateBill` (`EventsHook`).
- **Components.**
  - The poll tally (`Polls`).
  - The attendee selection toggle (`Selection`).
  - The bill-split panel (`BillSplit`).
  - The create-event dialog, with its submit rule and per-person preview
    (`CreateEventDialog`).

Money is `real`. A timestamp is its instant in milliseconds together with
its local calendar day number and year. The current time and "today" are
parameters. Store reads are sequences of documents, and store writes return
the new record. An optional field is `Option`. JavaScript truthiness of an
optional string or bill is `Truthy` / `PositiveBill` in `Records`.

Where the written description of the app and the code disagree, the model
follows the code. The description says the payer test matches the payer's
name against the user's name or email local part. The code compares the
payer name with the display name only, and the payer email with the whole
email (`IsPayer`).

## Model

| member | source | states |
|---|---|---|
| Records.OrElse | treat-planner/src/pages/MyBillsPage.tsx:92-94 | `x \|\| fallback` on an optional string: a present non-empty value is kept, an absent or empty one gives the fallback |
| Text.LowerChar | treat-planner/src/pages/MyBillsPage.tsx:59 | an upper-case ASCII letter becomes the lower-case letter at the same place in the alphabet; every other character is unchanged, and whitespace stays whitespace |
| Text.TextStart | treat-planner/src/pages/MyBillsPage.tsx:59 | the scan from the left stops at the first non-whitespace character or at the end, and everything it passes is whitespace |
| Text.TextEnd | treat-planner/src/pages/MyBillsPage.tsx:59 | the scan from the right stops after the last non-whitespace character or at the left bound, and everything it passes is whitespace |
| Text.Trim | treat-planner/src/pages/MyBillsPage.tsx:59 | `trim` yields the contiguous slice of the input with no whitespace at either end, and everything cut off before and after it is whitespace |
| Text.TrimIdempotent | treat-planner/src/pages/MyBillsPage.tsx:59 | trimming a trimmed string changes nothing |
| Text.NormalizeShape | treat-planner/src/pages/MyBillsPage.tsx:59 | `toLowerCase().trim()` leaves no upper-case letter and no whitespace at either end |
| Text.BeforeAt | treat-planner/src/pages/MyBillsPage.tsx:61 | `split('@')[0]` is the longest prefix without '@', and the next character (if any) is the '@' |
| Text.Split | treat-planner/src/hooks/useDayPlans.ts:58 | `split(',')` always yields at least one piece, and no piece contains the separator |
| Text.SplitJoin | treat-planner/src/hooks/useDayPlans.ts:58 | joining the pieces with the separator gives back the input: splitting loses nothing |
| Text.SplitCount | treat-planner/src/hooks/useDayPlans.ts:58 | there is one more piece than there are separators |
| Text.LooksLikeEmail | treat-planner/src/hooks/useDayPlans.ts:60-61 | the `\S+@\S+\.\S+` test, written out as a match position; no contract of its own, see `Text.EmailShape` and `DayPlansHook.BeforeAtOfEmail` |
| Text.EmailShape | treat-planner/src/hooks/useDayPlans.ts:60-61 | an accepted string has an '@', a '.' and at least five characters |
| Attribution.UserEmailPrefix | treat-planner/src/pages/MyBillsPage.tsx:61 | the user's normalised email local part, '' when there is no email |
| Attribution.IsAttendeeIff | treat-planner/src/pages/MyBillsPage.tsx:58-63 | the attendee test holds exactly when some attendee name, normalised, equals the user's normalised display name or email local part |
| Attribution.NormalizeOpt | treat-planner/src/pages/MyBillsPage.tsx:66-68 | `x?.toLowerCase().trim()` stays absent when `x` is absent and is normalised otherwise |
| Attribution.IsPayer | treat-planner/src/pages/MyBillsPage.tsx:65-67 | the payer test; no contract of its own, its effect is stated by `Attribution.PayerIsExempt` and `Attribution.OwesIff` |
| Attribution.Owes | treat-planner/src/pages/MyBillsPage.tsx:70 | the owing condition; no contract of its own, its closed form is `Attribution.OwesIff` |
| Attribution.PerPerson | treat-planner/src/pages/MyBillsPage.tsx:53-55 | the share is never negative; it is positive exactly when the bill is positive and there is an attendee; then the shares add back up to the bill |
| Attribution.Contribution | treat-planner/src/components/Layout.tsx:49-50 | what an event adds to the user's total is never negative, and positive exactly when the user owes on it |
| Attribution.TotalOwed | treat-planner/src/components/Layout.tsx:29-53 | the header's sum of shares; no contract of its own, stated by the `TotalOwed…` lemmas and proved equal to the three loops |
| Attribution.TotalOwedStep | treat-planner/src/components/Layout.tsx:49-50 | each event adds exactly its own share to the running total |
| Attribution.OwesIff | treat-planner/src/pages/MyBillsPage.tsx:53-71 | the user owes iff the bill is positive, there are attendees, some attendee name matches the user and the user is not the payer; the amount is the bill over the attendee count |
| Attribution.NoBillNoDebt | treat-planner/src/pages/MyBillsPage.tsx:53 | an absent, zero or negative bill is attributed to nobody |
| Attribution.NoAttendeesNoDebt | treat-planner/src/pages/MyBillsPage.tsx:54-55 | with no attendees the share is 0 and nobody owes |
| Attribution.PayerIsExempt | treat-planner/src/pages/MyBillsPage.tsx:66-71 | the payer never owes on their own event, even when listed as an attendee |
| Attribution.TotalOwedNonnegative | treat-planner/src/components/Layout.tsx:29-53 | the header's total is never negative |
| Attribution.TotalOwedZero | treat-planner/src/components/Layout.tsx:29-53 | when the user owes on no event the total is 0 |
| Attribution.TotalOwedPermutation | treat-planner/src/components/Layout.tsx:31-53 | the total does not depend on the order the store returns events in |
| Attribution.TotalOwedFilterBound | treat-planner/src/pages/DashboardPage.tsx:54-57 | the total over any subset of the events, such as one plan's query, is at most the total over all events |
| Plans.PlanIndex | treat-planner/src/pages/MyBillsPage.tsx:41-44 | the plan map has a key exactly for each plan id, and maps it to a plan with that id |
| Plans.IsUnscheduled | treat-planner/src/components/Layout.tsx:83-87 | the four-way unscheduled test; no contract of its own, see `Plans.OrphanIsUnscheduled` and `Plans.SentinelBoundary` |
| Plans.PlanIndexLast | treat-planner/src/pages/MyBillsPage.tsx:42-44 | a plan whose id no later plan repeats is the one the map holds under that id |
| Plans.IndexPlans | treat-planner/src/pages/MyBillsPage.tsx:41-44 | the `forEach` filling the map builds exactly `PlanIndex` |
| Plans.Unscheduled | treat-planner/src/pages/UnscheduledEventsPage.tsx:43-51 | the unscheduled list holds exactly the events meeting the four-way unscheduled test, and no more events than were read |
| Plans.OrphanIsUnscheduled | treat-planner/src/pages/UnscheduledEventsPage.tsx:44 | an event whose day plan is missing is always unscheduled |
| Plans.SentinelBoundary | treat-planner/src/pages/UnscheduledEventsPage.tsx:43-47 | the year 2099 itself counts as a placeholder; an event with an existing plan and a date is scheduled iff both years are before 2099 |
| Layout.ComputeTotalOwed | treat-planner/src/components/Layout.tsx:29-53 | the loop's total is the sum of the user's shares over all events, and is not negative |
| Layout.CountUnscheduled | treat-planner/src/components/Layout.tsx:72-90 | the counter is the number of unscheduled events, at most the number of events |
| Layout.HeaderBadges.constructor | treat-planner/src/components/Layout.tsx:19-20 | both badges start at 0 |
| Layout.HeaderBadges.FetchTotalOwed | treat-planner/src/components/Layout.tsx:24-59 | without a user the badge keeps its value; otherwise it becomes the user's total owed |
| Layout.HeaderBadges.FetchUnscheduledCount | treat-planner/src/components/Layout.tsx:65-92 | without a user the badge keeps its value; otherwise it becomes the number of unscheduled events |
| Layout.HeaderWithoutUser | treat-planner/src/components/Layout.tsx:19-25 | signed out, the header shows nothing owed and nothing unscheduled |
| MyBills.BillFor | treat-planner/src/pages/MyBillsPage.tsx:53-99 | an event yields a bill exactly when the user owes on it and its plan exists; the bill carries the share, the plan's id and date, urgency for today or tomorrow, and the payer fields with their defaults |
| MyBills.IsUrgent | treat-planner/src/pages/MyBillsPage.tsx:79-81 | due today or tomorrow by calendar day; no contract of its own, the bill's flag is tied to it by `MyBills.BillFor` |
| MyBills.CollectBills | treat-planner/src/pages/MyBillsPage.tsx:50-100 | at most one bill per event |
| MyBills.CollectBillsStep | treat-planner/src/pages/MyBillsPage.tsx:50-100 | each event appends its own bill, if any, to the list built so far |
| MyBills.PushBills | treat-planner/src/pages/MyBillsPage.tsx:50-100 | the `forEach` that pushes bills builds exactly the collected list, in event order |
| MyBills.CollectedBillsOwed | treat-planner/src/pages/MyBillsPage.tsx:71-96 | every listed bill has a positive amount and comes from an owing event of the input |
| MyBills.CollectBillsComplete | treat-planner/src/pages/MyBillsPage.tsx:50-100 | the bill of event i sits in the list right after the bills of the events before it: nothing is dropped and event order is kept |
| MyBills.EveryBillCollected | treat-planner/src/pages/MyBillsPage.tsx:50-100 | every owing event whose plan exists has its bill in the list |
| MyBills.BillsTotalVersusHeader | treat-planner/src/pages/MyBillsPage.tsx:126 | the page's total never exceeds the header's, and equals it when every event's plan exists |
| MyBills.BillLeTotalPreorder | treat-planner/src/pages/MyBillsPage.tsx:103-107 | the comparator is total and transitive, so sorting by it is well defined |
| MyBills.BillLe | treat-planner/src/pages/MyBillsPage.tsx:103-107 | the sort comparator; no contract of its own, see `MyBills.BillLeTotalPreorder` and `MyBills.SortBills` |
| MyBills.SortBills | treat-planner/src/pages/MyBillsPage.tsx:103-107 | after the in-place sort, urgent bills precede non-urgent ones, equal urgency is in date order, and the bills are a permutation of the input |
| MyBills.FetchAllBills | treat-planner/src/pages/MyBillsPage.tsx:35-109 | signed out, no bills; otherwise a sorted permutation of the collected bills with the same total |
| MyBills.FilterBills | treat-planner/src/pages/MyBillsPage.tsx:120-124 | a bill is shown exactly when it is listed and the tab admits it |
| MyBills.FilterTabs | treat-planner/src/pages/MyBillsPage.tsx:120-124 | 'all' shows the list unchanged, 'paid' shows nothing, 'urgent' shows exactly the urgent bills |
| MyBills.UrgentTotal | treat-planner/src/pages/MyBillsPage.tsx:127-128 | the urgent bills' sum; no contract of its own, see `MyBills.UrgentTotalBounded` |
| MyBills.UrgentTotalBounded | treat-planner/src/pages/MyBillsPage.tsx:126-128 | the urgent total lies between 0 and the grand total |
| Dashboard.Distinct | treat-planner/src/pages/DashboardPage.tsx:65 | `[...new Set(..)]` keeps exactly the values of the input, each once |
| Dashboard.EventTypes | treat-planner/src/pages/DashboardPage.tsx:65 | `[...new Set(events.map(e => e.type))]`; no contract of its own, see `Dashboard.EventTypesExactlyOnce` and `Dashboard.DistinctFirstOccurrenceOrder` |
| Dashboard.EventTypesExactlyOnce | treat-planner/src/pages/DashboardPage.tsx:65 | every event's type is listed, only those types are listed, and none twice |
| Dashboard.DistinctFirstOccurrenceOrder | treat-planner/src/pages/DashboardPage.tsx:65 | the types appear in the order of their first occurrence among the events |
| Dashboard.Update | treat-planner/src/pages/DashboardPage.tsx:72-76 | the replace condition writes the new status when none is recorded and otherwise keeps the stronger of the two (no < maybe < yes) |
| Dashboard.MergeEntries | treat-planner/src/pages/DashboardPage.tsx:70-77 | processing one event's entries in any order gives the merge of that event into the map |
| Dashboard.MergeRsvps | treat-planner/src/pages/DashboardPage.tsx:68-78 | the nested loops build exactly the merged map of all events |
| Dashboard.MergedRsvps | treat-planner/src/pages/DashboardPage.tsx:68-78 | the merged answer map; no contract of its own, see `Dashboard.MergedRsvpsIsMaximum` and `Dashboard.MergedRsvpsOrderIndependent` |
| Dashboard.MergedRsvpsIsMaximum | treat-planner/src/pages/DashboardPage.tsx:68-78 | a member is in the merged map iff some event has their answer, and then holds the strongest of their answers |
| Dashboard.MergedRsvpsOrderIndependent | treat-planner/src/pages/DashboardPage.tsx:69-78 | reordering the events does not change the merged map |
| Dashboard.CountsPartition | treat-planner/src/pages/DashboardPage.tsx:80-82 | coming + maybe + not-coming is the number of distinct members who answered |
| Dashboard.ComingEntries | treat-planner/src/pages/DashboardPage.tsx:80 | the 'yes' names, each once, exactly those answering 'yes', as many as the coming count |
| Dashboard.PendingAmount | treat-planner/src/pages/DashboardPage.tsx:93-117 | an event adds its whole bill to the pending total when the bill is positive, and nothing otherwise |
| Dashboard.TotalPendingIsBilled | treat-planner/src/pages/DashboardPage.tsx:93-117 | `totalPending` is the sum of the bills of the events whose bill is positive |
| Dashboard.ComputeMoneyStats | treat-planner/src/pages/DashboardPage.tsx:86-119 | the loop ends with the pending total, the user's total owed, and the payer fields of the last event the user owes on ('' when none, 'organizer' for an unnamed payer) |
| Dashboard.ExpectedMoney | treat-planner/src/pages/DashboardPage.tsx:86-118 | the money stats in closed form; no contract of its own, the loop is proved to reach it by `Dashboard.ComputeMoneyStats` |
| Dashboard.ExpectedMoneyStep | treat-planner/src/pages/DashboardPage.tsx:92-119 | each event moves the money stats by its own pending amount and share, and an owing event takes over the payer fields |
| Dashboard.VisitEvent | treat-planner/src/pages/DashboardPage.tsx:93-118 | the loop body updates the stats exactly as one step of the money fold |
| Dashboard.ShareAtMostBill | treat-planner/src/pages/DashboardPage.tsx:95-117 | one event's share is never more than what it adds to the pending total |
| Dashboard.OwesAtMostPending | treat-planner/src/pages/DashboardPage.tsx:86-119 | what the user owes on a plan is between 0 and the plan's pending total |
| Dashboard.PlanEvents | treat-planner/src/pages/DashboardPage.tsx:54-62 | the plan's query returns exactly the events whose plan id is the plan's |
| Dashboard.PlanOwesAtMostHeader | treat-planner/src/pages/DashboardPage.tsx:54-62 | a plan card never shows the user owing more than the header's total |
| Dashboard.ComputePlanStats | treat-planner/src/pages/DashboardPage.tsx:64-138 | a plan's entry holds its event count, distinct types, merged RSVP counts (summing to the member count), at most three coming names and its money stats |
| Dashboard.FetchPlanStats | treat-planner/src/pages/DashboardPage.tsx:49-142 | the stats map has an entry exactly for each plan whose fetch succeeded, computed from the events fetched for that plan (the last successful fetch when a plan id repeats) |
| Dashboard.TryPlan | treat-planner/src/pages/DashboardPage.tsx:52-141 | a plan yields an entry exactly when its events were fetched, and the entry holds the stats of those events |
| Dashboard.StatsMapStep | treat-planner/src/pages/DashboardPage.tsx:121-141 | one pass of the loop keeps the map right: a success writes its entry, a failure writes nothing |
| Dashboard.EntryStep | treat-planner/src/pages/DashboardPage.tsx:121-141 | for each plan id, one pass keeps that id's entry right: present iff some fetch of it succeeded, holding the last such fetch's stats |
| Dashboard.FailureIsIsolated | treat-planner/src/pages/DashboardPage.tsx:139-141 | a failed fetch of one plan leaves the entry for every other plan unchanged |
| Dashboard.UpcomingPlans | treat-planner/src/pages/DashboardPage.tsx:203 | upcoming plans are exactly those dated now or later |
| Dashboard.PastPlans | treat-planner/src/pages/DashboardPage.tsx:204 | past plans are exactly those dated before now |
| Dashboard.UpcomingPastPartition | treat-planner/src/pages/DashboardPage.tsx:203-204 | with one reading of the clock each plan is in exactly one of the two lists |
| Dashboard.UpcomingPastTwoReadings | treat-planner/src/pages/DashboardPage.tsx:203-204 | with the clock read later for the past list, no plan is missing from both lists, and a plan is in both exactly when its date falls between the two readings |
| UnscheduledEvents.FetchUnscheduledEvents | treat-planner/src/pages/UnscheduledEventsPage.tsx:17-54 | signed out, the list stays empty; otherwise it is exactly the unscheduled events in store order |
| UnscheduledEvents.UnscheduledKeepsOrder | treat-planner/src/pages/UnscheduledEventsPage.tsx:33-52 | the k-th listed event is the store's event at the k-th of an increasing run of positions |
| UnscheduledEvents.PageAgreesWithHeader | treat-planner/src/pages/UnscheduledEventsPage.tsx:43-47 | the page lists as many events as the header's counter shows |
| DayPlansHook.ParseMember | treat-planner/src/hooks/useDayPlans.ts:58-65 | a piece gets an email exactly when its trimmed text looks like an email; its name is then the text before the first '@', otherwise the trimmed text |
| DayPlansHook.ParseMembers | treat-planner/src/hooks/useDayPlans.ts:57-66 | one member per comma-separated piece, in order |
| DayPlansHook.MemberCount | treat-planner/src/hooks/useDayPlans.ts:58 | a list has one more member than it has commas |
| DayPlansHook.NoCommaInMembers | treat-planner/src/hooks/useDayPlans.ts:58-64 | no parsed name or email contains a comma |
| DayPlansHook.EmptyListOneMember | treat-planner/src/hooks/useDayPlans.ts:92-100 | parsing '' yields one member with an empty name and no email |
| DayPlansHook.CreateDayPlan | treat-planner/src/hooks/useDayPlans.ts:55-77 | an absent or empty member list stores no members; otherwise the parsed members; the description defaults to ''; the other fields come from the form, the owner and the store |
| DayPlansHook.UpdateDayPlan | treat-planner/src/hooks/useDayPlans.ts:83-104 | the title changes only when given non-empty; date, description and members whenever given; nothing else but the time stamp changes |
| DayPlansHook.EmptyListCreateVersusUpdate | treat-planner/src/hooks/useDayPlans.ts:57-100 | the empty member list creates a plan with no members but updates a plan to one empty-named member |
| EventsHook.CreateEvent | treat-planner/src/hooks/useEvents.ts:55-78 | optional texts default to '', the bill to 0 (positive iff the form's is), the attendees are the selection, nobody has answered, the date is set |
| EventsHook.CreatedEventHasDate | treat-planner/src/hooks/useEvents.ts:62-71 | a created event has a date and no answers |
| EventsHook.CreatedEventShares | treat-planner/src/hooks/useEvents.ts:66-70 | on a new event, a selected member who is not the payer owes the bill over the number selected |
| EventsHook.UpdateEvent | treat-planner/src/hooks/useEvents.ts:80-96 | title when non-empty; type, date, location, notes, bill, payer and attendees whenever given; no other field changes but the time stamp |
| EventsHook.UpdatedPayerKeepsEmail | treat-planner/src/hooks/useEvents.ts:92 | changing the payer leaves the old payer email, attendees and bill in place |
| EventsHook.UpdateRsvp | treat-planner/src/hooks/useEvents.ts:98-104 | the answer is stored under the member's key; other entries and fields do not change |
| EventsHook.UpdateRsvpIdempotent | treat-planner/src/hooks/useEvents.ts:98-104 | answering twice the same way is answering once, and a later answer replaces an earlier one |
| EventsHook.UpdateRsvpAsWritten | treat-planner/src/hooks/useEvents.ts:101 | a member id without '.' is written under its key; one with '.' writes under its first segment, which then holds no status |
| EventsHook.DottedNameLosesAnswer | treat-planner/src/hooks/useEvents.ts:98-104 | member "john.doe" answering 'yes' gets no entry as written, but does with the intended write |
| EventsHook.UpdateBill | treat-planner/src/hooks/useEvents.ts:106-112 | only the bill and the time stamp change |
| EventsHook.UpdateBillAttribution | treat-planner/src/hooks/useEvents.ts:106-112 | after a bill write the user owes iff the new bill is positive, there are attendees, the user is one, and is not the payer |
| EventsHook.EventsOfPlan | treat-planner/src/hooks/useEvents.ts:22-42 | no plan id lists no events; otherwise exactly the events of that plan that have a date, since the query orders by `dateTime` and the store drops documents without it |
| Polls.Count | treat-planner/src/components/PollControls.tsx:24-28 | the `reduce` callback; no contract of its own, see `Polls.CountOneCounter` and `Polls.CountCommutes` |
| Polls.CountOneCounter | treat-planner/src/components/PollControls.tsx:24-28 | each member adds one to exactly the counter their answer names, and nothing without an answer |
| Polls.TallyUpToTotal | treat-planner/src/components/PollControls.tsx:22-31 | the counters over the first n members add up to how many of them answered |
| Polls.AnsweredBounds | treat-planner/src/components/PollControls.tsx:22-31 | at most n of the first n members answered, and exactly n iff all did |
| Polls.SummaryBounds | treat-planner/src/components/PollControls.tsx:22-31 | the counters sum to the number of members who answered, at most the member count, and equal to it iff everyone answered |
| Polls.SummaryAppend | treat-planner/src/components/PollControls.tsx:22-31 | the tally of two member lists together is the sum of their tallies |
| Polls.DuplicateCountsTwice | treat-planner/src/components/PollControls.tsx:22-31 | a member listed twice with an answer counts twice |
| Polls.SummaryIgnoresOtherKeys | treat-planner/src/components/PollControls.tsx:24 | answers under keys that are no member's name do not change the tally |
| Polls.Respond | treat-planner/src/components/PollControls.tsx:18-20 | `handleRSVP` goes through `updateRSVP` as written: a name without '.' gets the answer under the key the tally looks up and no other key changes; a dotted name keeps its old entry and its first segment loses its entry |
| Polls.CountCommutes | treat-planner/src/components/PollControls.tsx:25-27 | counting two answers in either order gives the same tally |
| Polls.RespondCounts | treat-planner/src/components/PollControls.tsx:18-31 | once a member listed once, with no '.' in their name, answers for the first time, the tally is the old one plus one in that answer's counter |
| Polls.TallyCongruent | treat-planner/src/components/PollControls.tsx:25-31 | the tally depends only on the entries under the members' own names |
| Polls.RespondDottedCounts | treat-planner/src/components/PollControls.tsx:18-31 | a member whose name holds '.' answers and, when nobody is named after the name's first segment, the tally does not change: the answer is lost |
| Selection.WithoutCounts | treat-planner/src/components/BillSplitPanel.tsx:35 | removing a name drops all its occurrences and keeps every other name as often as before |
| Selection.Toggle | treat-planner/src/components/BillSplitPanel.tsx:33-37 | the include/filter/append toggle; no contract of its own, see `Selection.ToggleFlips` and the two toggle-twice lemmas |
| Selection.ToggleFlips | treat-planner/src/components/BillSplitPanel.tsx:33-37 | toggling flips whether the name is selected, appends an absent name at the end, and leaves other names as they were |
| Selection.WithoutAbsent | treat-planner/src/components/BillSplitPanel.tsx:35 | removing an absent name changes nothing |
| Selection.ToggleTwiceAbsent | treat-planner/src/components/BillSplitPanel.tsx:33-37 | toggling an unselected name twice restores the selection |
| Selection.ToggleTwicePresent | treat-planner/src/components/BillSplitPanel.tsx:33-37 | toggling a selected name twice moves it, once, to the end |
| BillSplit.YesNamesUpToSpec | treat-planner/src/components/BillSplitPanel.tsx:24-26 | the names of the first n members answering 'yes', one per such member, as many as the poll's coming count over them |
| BillSplit.InitialSelectionIsComing | treat-planner/src/components/BillSplitPanel.tsx:24-26 | the panel starts with exactly the members answering 'yes', as many as the poll box counts as coming |
| BillSplit.Share | treat-planner/src/components/BillSplitPanel.tsx:39 | `perPersonShare`; no contract of its own, see `BillSplit.ShareSplitsAmount` and `BillSplit.ShareMatchesCharge` |
| BillSplit.ShareSplitsAmount | treat-planner/src/components/BillSplitPanel.tsx:39 | the selected people's shares add up to the amount, and with nobody selected the share is 0 |
| BillSplit.ShareMatchesCharge | treat-planner/src/components/BillSplitPanel.tsx:39 | when the selection is the stored attendee list, the shown share is what each attendee owes after saving |
| BillSplit.ShareIgnoresStoredAttendees | treat-planner/src/components/BillSplitPanel.tsx:28-31 | the selection is not saved, so the shown share (90 for one name) and the charge per stored attendee (45 for two) can differ |
| BillSplit.Panel.constructor | treat-planner/src/components/BillSplitPanel.tsx:22-26 | edit mode starts on exactly when there is no bill, the amount is the stored bill, and the selection is the 'yes' members |
| BillSplit.Panel.ToggleAttendee | treat-planner/src/components/BillSplitPanel.tsx:33-37 | only the selection changes, by the toggle |
| BillSplit.Panel.EnterAmount | treat-planner/src/components/BillSplitPanel.tsx:74 | only the typed amount changes |
| BillSplit.Panel.StartEditing | treat-planner/src/components/BillSplitPanel.tsx:47 | the buttons turn edit mode on |
| BillSplit.Panel.SaveBill | treat-planner/src/components/BillSplitPanel.tsx:28-31 | a successful write stores the amount alone and leaves edit mode; a failed one leaves edit mode as it was; the attendees are never written |
| CreateEventDialog.NamedUsersUpToSpec | treat-planner/src/components/CreateEventDialog.tsx:78 | the names are exactly the non-empty display names of the first n users, no more of them than users |
| CreateEventDialog.NamedUsersSpec | treat-planner/src/components/CreateEventDialog.tsx:75-80 | "select all" selects exactly the users with a display name, and selects someone as soon as one user has one |
| CreateEventDialog.SubmitDisabled | treat-planner/src/components/CreateEventDialog.tsx:409-413 | the submit button's disabled rule; no contract of its own, see `CreateEventDialog.EnabledSubmitCreatesPayableEvent` and `CreateEventDialog.DefaultFormDisabled` |
| CreateEventDialog.PerPersonPreview | treat-planner/src/components/CreateEventDialog.tsx:388-391 | the per-person line; no contract of its own, see `CreateEventDialog.PreviewMatchesCharge` |
| CreateEventDialog.PreviewMatchesCharge | treat-planner/src/components/CreateEventDialog.tsx:388-391 | the per-person preview shows exactly when the created event charges a positive share, and shows that share |
| CreateEventDialog.EnabledSubmitCreatesPayableEvent | treat-planner/src/components/CreateEventDialog.tsx:409-413 | a form the enabled button submits creates an event with attendees, and with a payer and positive share when the bill is positive |
| CreateEventDialog.DefaultFormDisabled | treat-planner/src/components/CreateEventDialog.tsx:23-35 | the initial form cannot be submitted and shows no preview |
| CreateEventDialog.Dialog.constructor | treat-planner/src/components/CreateEventDialog.tsx:22-36 | the dialog starts closed, not loading, with the default form |
| CreateEventDialog.Dialog.SetOpen | treat-planner/src/components/CreateEventDialog.tsx:402 | only the open flag changes |
| CreateEventDialog.Dialog.Edit | treat-planner/src/components/CreateEventDialog.tsx:129 | only the form changes, to the edited one |
| CreateEventDialog.Dialog.ToggleMember | treat-planner/src/components/CreateEventDialog.tsx:66-73 | only the selection changes, by the toggle |
| CreateEventDialog.Dialog.SelectAll | treat-planner/src/components/CreateEventDialog.tsx:75-80 | only the selection changes, to the named users in user order |
| CreateEventDialog.Dialog.DeselectAll | treat-planner/src/components/CreateEventDialog.tsx:82-87 | only the selection changes, to empty, which disables submit |
| CreateEventDialog.Dialog.ChoosePayer | treat-planner/src/components/CreateEventDialog.tsx:247-251 | the payer's name and email are set together from one user |
| CreateEventDialog.Dialog.Submit | treat-planner/src/components/CreateEventDialog.tsx:38-64 | nothing happens without a user with an email; a successful create stores the event built from the form, closes and resets; a failed one keeps the dialog and form; loading ends either way |

## Left out

- Store I/O: reads are the documents passed in, writes return the new record. Network failures appear only as "the write was accepted or not" and as a failed per-plan fetch on the dashboard. Snapshot listeners, unsubscription, loading flags and re-fetching on a route change are not modelled.
- Query ordering: the queries behind the header total, the "My Bills" page and the dashboard's per-plan events have no `orderBy`, so their store order is unspecified; the model takes whatever order the caller passes, and the totals are proved independent of it (`TotalOwedPermutation`), and so are the merged answers as long as every stored value is a status (`MergedRsvpsOrderIndependent`; see the `Dashboard.MergedRsvps` line below). The two ordered queries (`orderBy('dateTime', 'asc')` in useEvents.ts and `orderBy('date', 'desc')` in useDayPlans.ts) are modelled for which documents they return, not for their order.
- `Object.entries` order: the loops over a map pick entries in an unspecified order. Hence the three coming names are specified by what they are (at most three, distinct, all 'yes', as many as exist up to three), not by which three.
- Dates and clocks: "today", "now" and the server time stamp are parameters. Calendar day and year come with each timestamp, so time zones and `Date` arithmetic are not modelled.
- Dashboard.UpcomingPastPartition: the page calls `new Date()` inside each filter callback, once per plan and per list, so a plan dated between two readings can land in both lists. The partition holds only under a single reading. `UpcomingPastTwoReadings` covers one reading per list, not one per plan.
- `toLowerCase` is modelled on ASCII letters only; other Unicode case mappings are not.
- `Number(billAmount)` parsing of the typed text is not modelled: the panel holds the amount as a number. `NaN` and the `toFixed`/'K' display formatting are left out as well.
- An event document without an `attendees` field reads as an empty list (`event.attendees || []`): the model's attendee list is always present.
- A day plan document without a `date` field is not modelled: a plan always has a date.
- EventsHook.UpdateRsvpAsWritten: the store rejects a field path with an empty segment (an id that starts or ends with '.', or holds '..') and a path holding '~', '*', '/', '[' or ']'; in all those cases the write fails and nothing changes. The model does not reject them: it deletes the entry under the first segment, which is the key "" for an id starting with '.', and for ids without '.' it writes the answer under the id.
- Dashboard.MergedRsvps: an `rsvps` value that is not a status is modelled as absent. Two such values reach the page: the nested object a dotted `updateRSVP` leaves under the first segment, and an inherited `Object.prototype` property ("constructor", "toString"), which makes `rsvpMap[member]` truthy before any answer. In the page such a value is kept in `rsvpMap` and blocks a later 'no' (and "__proto__" is never recorded), so with those values the merged counts depend on event order; the model's merge, and `MergedRsvpsOrderIndependent`, hold only for status-valued maps.
- Sign-in, the allow-list check (`isAuthorized`) and the buttons it hides are not modelled. `AuthContext.tsx`, `useRegisteredUsers.ts` and `EventCard.tsx` are not part of this model; users are passed in.
- The create-day-plan dialog and the remaining pages (all treats, plan detail, login) only display or forward to the operations modelled here, and are not part of this model.
- MyBills.SortBills: does not state stability. `Array.prototype.sort` is stable, so bills with the same urgency and plan date (two events of one plan) keep their collection order in the page; the model's contract allows any order among such ties.
- Dashboard.FetchPlanStats: with no plans at all the page leaves the previous stats in place, while the model returns an empty map.

## Findings

| source | as written | input that shows it | evidently intended | confidence | as-written member | corrected member |
|---|---|---|---|---|---|---|
| treat-planner/src/hooks/useEvents.ts:98-104 | `updateRSVP` writes the key `rsvps.${memberId}`, which the store reads as a dotted field path, so an id with '.' is split into nested fields | member "john.doe" (the name `createDayPlan` derives from "john.doe@example.com") answers 'yes' on an event with no answers: no entry appears under "john.doe", and "john" gets a nested object | the answer is stored under the member's own key, as a status | not executed; medium (relies on the store's documented dotted-path semantics) | EventsHook.UpdateRsvpAsWritten, EventsHook.DottedNameLosesAnswer | EventsHook.UpdateRsvp |
