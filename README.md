# Aura ledger: a verified model of the aggregation repository

The aura monitor keeps, for every team member, a starting aura and an
append-only log of signed aura events. `server/utils/auraRepository.ts`
rebuilds balances from that log in several ways:

- each member's change today;
- the member listing with stats;
- the most recent events;
- the team overview: team aura, team change today, and the change over a range of days;
- the day-by-day timeline of every member's balance, with a team total per day.

It also turns store errors into HTTP errors. That covers the conflict branch
and the re-read after creating or updating a member, and after recording an
event.

This project models those operations in Dafny and proves what they compute
against an independent description of the ledger.

- **Ledger** (`ledger.dfy`):
  - Instants are milliseconds. Calendar days are fixed 86,400,000 ms blocks, and `DayOf(t)` rounds down.
  - A stored delta is a number or a non-number; `Coerce` gives `Number(x) || 0`.
  - An event query filters by member set and by a half-open time range; `Select` keeps the matching rows in log order.
  - `Total` sums coerced deltas.
  - `BalanceThrough(es, m, s, d)` is a member's balance at the end of day `d`. Every aggregate is proved equal to an expression over these.
- **Rows** (`rows.dfy`): the store rows, the records the repository returns, and the translation of store errors.
- **EventOrder** (`order.dfy`): ordering by `occurred_at` descending with a limit, as a sort specified by order and permutation.
- **Repository** (`repository.dfy`):
  - today's deltas (an imperative `Map` fold);
  - the member listing and the recent events;
  - the error branches of `createMember` and `updateMember`.

  The store is a value: the member rows, the score-view rows, the event log,
  and which tagged calls fail.
- **Timeline** (`timeline.dfy`): `getAuraTimeline`. Its loops are methods with invariants:
  - seeding the running balances;
  - bucketing by day;
  - walking the days;
  - advancing the members of one day.
- **Overview** (`overview.dfy`): `getAuraOverview` and what its three totals mean.
- **Recording** (`recording.dfy`): `createAuraEvent`, both as written and as intended (see Findings).

## Model

| member | source | states |
|---|---|---|
| Rows.ThrowSupabaseError | server/utils/auraRepository.ts:64-73 | no error lets the caller continue; any error becomes a 500 whose message names the action and carries the store's message |
| Rows.SupabaseMessageNamesAction | server/utils/auraRepository.ts:69-72 | two translated messages are equal only for the same action and the same store message (for actions without a double quote) |
| Rows.ToMemberStats | server/utils/auraRepository.ts:75-86 | every column of the view row is kept (the view row is recovered from the record) and today's change is the given one |
| Rows.ToAuraEvent | server/utils/auraRepository.ts:88-98 | every column of the event row is kept; the member name is the joined name, or exactly "Unknown member" when the join is empty |
| Rows.Find | server/utils/auraRepository.ts:163 | `find` returns the first element satisfying the test, or nothing when none does |
| Ledger.SelectMembership | server/utils/auraRepository.ts:109-114 | an event query returns exactly the rows of the log that match its member set and half-open time range |
| Ledger.PartitionByMember | server/utils/auraRepository.ts:288-289 | for distinct members, summing member by member equals one sum over the events of the whole member set: no event is missed or counted twice |
| Ledger.BalanceStep | server/utils/auraRepository.ts:383-391 | a member's balance at the end of day d is its balance at the end of day d-1 plus its deltas of day d |
| Ledger.NoActivityKeepsBalance | server/utils/auraRepository.ts:385-391 | a day on which a member has no event leaves its balance unchanged |
| EventOrder.Insert | server/utils/auraRepository.ts:274 | inserting into a newest-first sequence keeps it newest first and adds exactly the new row |
| EventOrder.SortNewestFirst | server/utils/auraRepository.ts:274 | the result is newest first and a permutation of the log |
| EventOrder.NewestAreTheMostRecent | server/utils/auraRepository.ts:274-275 | the first n rows number min(n, size of log), are newest first, are taken from the log, and every row left out is no more recent than any row shown |
| Repository.AccumulateByMember | server/utils/auraRepository.ts:118-123 | the fold has an entry exactly for the initial keys and the members with a row; each entry is its initial value (0 when absent) plus that member's net change |
| Repository.GetTodayDeltas | server/utils/auraRepository.ts:100-126 | no ids gives an empty map (the store is not consulted); a failing query is a 500 tagged getTodayDeltas; otherwise the keys are the given members with an event today, and each given member's entry (0 when absent) is its net change over today's half-open window |
| Repository.MembersWithStats | server/utils/auraRepository.ts:137-140 | one record per view row, in row order, each carrying its row and its member's net change today |
| Repository.ListMembersWithStats | server/utils/auraRepository.ts:128-141 | the view read's failure is a 500, then the today query's failure (only when there are rows); otherwise the listing above |
| Repository.JoinedName | server/utils/auraRepository.ts:270-272 | the joined name exists exactly when a member row has the event's member id, and is that row's name |
| Repository.Named | server/utils/auraRepository.ts:279 | one item per row, in order, each keeping its row and carrying the joined name or the placeholder |
| Repository.ListRecentEvents | server/utils/auraRepository.ts:259-280 | fails exactly when the read fails; otherwise min(limit, size of log) items, newest first, named after their members; the items are `Newest` of the log, which orders equal instants by log order |
| Repository.RecentEventsAreTheMostRecent | server/utils/auraRepository.ts:274-275 | whatever the order of equal instants, the recent events are taken from the log and no event left out is newer than any of them |
| Repository.CreateMember | server/utils/auraRepository.ts:143-173 | a 409 exactly on a unique violation; any other insert error is a 500 tagged createMember; a listing error propagates; the result is the first listed member whose name matches case-insensitively, and a 500 exactly when none does |
| Repository.BuildUpdates | server/utils/auraRepository.ts:181-188 | the update has a name column exactly when a name is given, a starting_aura column exactly when a starting aura is given, and no other column |
| Repository.UpdateMember | server/utils/auraRepository.ts:175-215 | a 409 exactly on a unique violation; any other update error is a 500 tagged updateMember; a listing error propagates; the result is the first listed member with the id, and a 404 exactly when none is listed |
| Timeline.Refs | server/utils/auraRepository.ts:406-410 | the returned members keep the registry order and hold only id and name |
| Timeline.Seed | server/utils/auraRepository.ts:358-360 | the seed has one entry per member id, and with unique ids each entry is that member's starting aura |
| Timeline.SeedIsBalanceBefore | server/utils/auraRepository.ts:341-366 | after folding the earlier events over the seed, each member sits at its starting aura plus its deltas strictly before the first day |
| Timeline.BucketByDay | server/utils/auraRepository.ts:368-380 | a day has a bucket exactly when some row falls on it, and a bucket holds for each member (0 when absent) its net change on that day |
| Timeline.AdvanceDay | server/utils/auraRepository.ts:387-391 | each member's balance (its starting aura when it has none) grows by its delta of the day; balances of other ids are untouched, and the keys are exactly the earlier keys plus the member ids |
| Timeline.RangeDay | server/utils/auraRepository.ts:347-352 | a member's events of a day inside the range are the same in the range query and in the whole log |
| Timeline.AdvanceIsBalanceStep | server/utils/auraRepository.ts:383-391 | advancing the balances of day d-1 by day d's bucket gives each member's balance at the end of day d |
| Timeline.PointValues | server/utils/auraRepository.ts:393-395 | the values have one key per member, and each member's value is its running balance |
| Timeline.TeamTotalOfBalances | server/utils/auraRepository.ts:397 | when the values are the day's balances, the team total is the starting auras plus the per-member sums of deltas before the next day |
| Timeline.TeamTotalIsLedgerTotal | server/utils/auraRepository.ts:397 | with unique ids the team total is the starting auras plus every delta of the team's members before the next day |
| Timeline.MakePoint | server/utils/auraRepository.ts:393-403 | the point built from a day's balances is labelled with the day, holds every member's balance, and its team total is the ledger total |
| Timeline.WalkDays | server/utils/auraRepository.ts:382-404 | one point per day from the first to the last day, in order, each right for its day |
| Timeline.PointsOverInterval | server/utils/auraRepository.ts:358-404 | seeding, bucketing and walking the days give one correct point per day of the interval |
| Timeline.GetAuraTimeline | server/utils/auraRepository.ts:317-413 | a failing member read is a 500; an empty registry gives empty members and points whatever the event reads would do; then the earlier-events failure, then the range failure; otherwise members in registry order and one point per day, each holding every member's balance at the end of its day and the team's ledger total |
| Timeline.BalanceIsSeedPlusRange | server/utils/auraRepository.ts:358-391 | a member's value on day d is its seed plus its in-range deltas from the first day through d |
| Overview.RangeDelta | server/utils/auraRepository.ts:291-306 | 0 unless both bounds are given; otherwise the sum of all events from the start of the first day to the end of the last day, or a 500 tagged getAuraOverview(rangeDelta) |
| Overview.GetAuraOverview | server/utils/auraRepository.ts:282-315 | the listing failure comes first, then the recent-events failure, then the range failure; otherwise the listing, the 20 newest events, the three sums over the listing and the range delta |
| Overview.SumTodayPerMember | server/utils/auraRepository.ts:289 | the sum of the members' changes today is the per-member sum of today's events |
| Overview.TeamDeltaTodayIsTodayTotal | server/utils/auraRepository.ts:289 | with distinct ids, teamDeltaToday is the sum of every delta today of the listed members (0 for no members) |
| Overview.SumCurrentPerMember | server/utils/auraRepository.ts:288 | when each current aura is its starting aura plus its deltas, the sum of current auras is the starting auras plus the per-member sums |
| Overview.TeamAuraIsLedgerTotal | server/utils/auraRepository.ts:288 | when the score view agrees with the log, teamAura is the starting auras plus every delta of the listed members |
| Overview.SpanIsSumOfDays | server/utils/auraRepository.ts:295-305 | the sum over a span of whole days is the sum of its day totals |
| Overview.RangeDeltaIsSumOfDays | server/utils/auraRepository.ts:291-305 | with both bounds, rangeDelta is the sum of the team's day totals over the days of the range, and 0 when the end falls on an earlier day |
| Recording.CreateAuraEventAsWritten | server/utils/auraRepository.ts:227-257 | a failed insert is a 500 tagged createAuraEvent; otherwise the result is the newest event of the log after the insert, and the "could not be loaded" branch is never taken |
| Recording.AsWrittenReturnsStrictlyNewest | server/utils/auraRepository.ts:246-256 | the written code returns the recorded event when that event is strictly newer than every other event |
| Recording.BackdatedEventIsNotReturned | server/utils/auraRepository.ts:241-247 | recording an event dated before an existing one returns the existing one as written, and the recorded one as intended |
| Recording.CreateAuraEvent | server/utils/auraRepository.ts:227-257 | fails exactly when the insert fails; otherwise returns the row the insert wrote, with its id, named after its member |

## Left out

- Time zones and daylight saving time: `startOfDay`, `addDays`, `eachDayOfInterval` and `format` work in local time. The model uses fixed UTC days of 86,400,000 ms. A point's `yyyy-MM-dd` label is its day index.
- ISO strings: instants are integers of milliseconds, with no conversion to or from strings.
- Numbers: deltas and balances are unbounded integers; JavaScript doubles, rounding and fractional deltas are not modelled. A delta is an integer or a non-number, and `Number(x) || 0` counts the non-number as 0.
- `Promise.all` concurrency: the two reads of `getAuraOverview` and of `getAuraTimeline` run one after the other against one store state. When both fail, the model reports the first one's error: the listing error in the overview, the earlier-events error in the timeline.
- The store itself:
  - An operation sees one store state. A write is modelled by the state its re-read sees. `createAuraEvent` is the exception: its insert appends the row.
  - Query building is modelled as a filter over the log, plus the sort for `order ... limit`.
  - The row order of `aura_members` (by name) and of `aura_member_scores` (by `current_aura`, descending) is not modelled: the member and score rows are taken in the order the store returns them.
  - A null `data` without an error (`data ?? []`) is not modelled.
- The `aura_member_scores` view: `current_aura` and `delta_total` are inputs taken from the view rows. `Overview.ViewMatchesLog` states the agreement with the log that `Overview.TeamAuraIsLedgerTotal` assumes.
- `deleteMember`: a single delete whose error becomes a 500, the same translation as `Rows.ThrowSupabaseError`. It is not modelled separately.
- Input validation is not modelled; the model accepts any integer. The handlers check that a delta is non-zero and within ±1000, that a reason is 3 to 280 characters long, and that a starting aura is within ±1000.
- The HTTP handlers are not modelled: the 14-day default range and the 400 for a start after the end.
- The default limit of 15 for `listRecentEvents`: the model always takes the limit as a parameter.
- Repository.ListRecentEvents: the store does not specify the order of events with equal `occurred_at`. The model fixes one: through `Newest`, the contract puts equal instants in log order, which the store does not promise. Of the real store, only the clauses that hold whatever the tie order apply: the count, newest first, taken from the log, and no left-out event newer than any item (`Repository.RecentEventsAreTheMostRecent`). `Recording.CreateAuraEventAsWritten` inherits the same tie order.
- Rows.Lower: `toLowerCase` is modelled on ASCII letters only; Unicode case mapping is not modelled.
- Timeline.GetAuraTimeline: requires the start's day to be no later than the end's day. `eachDayOfInterval` on a reversed interval throws or yields the days in reverse, depending on the date-fns version.
- Timeline.GetAuraTimeline: requires distinct member ids. Ids are the primary key of `aura_members`, and the seed map and the per-day loop assume one row per id.
- Timeline.AdvanceDay: requires distinct member ids, for the same reason.
- Overview.TeamDeltaTodayIsTodayTotal: requires distinct ids in the score view, which holds one row per member.
- Overview.TeamAuraIsLedgerTotal: holds only when the score view agrees with the log (`Overview.ViewMatchesLog`). The view's SQL is not part of this model.

## Findings

| source | as written | input that shows it | evidently intended | confidence | as-written member | corrected member |
|---|---|---|---|---|---|---|
| server/utils/auraRepository.ts:246-256 | after inserting the event, `createAuraEvent` returns `listRecentEvents(1)[0]`, the event with the latest `occurred_at` in the whole log | the log holds event e1 at instant 500; recording event e2 with `occurredAt` 0 (backdated) returns e1 | return the event just inserted, whatever its `occurred_at` | not executed | Recording.CreateAuraEventAsWritten, Recording.BackdatedEventIsNotReturned | Recording.CreateAuraEvent |
