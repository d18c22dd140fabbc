/**
 * `getAuraTimeline`: the running balance of every member, day by day over an
 * interval of calendar days, rebuilt from the starting balances and the event
 * log, with the team total of each day.
 */
module Timeline {
  import opened Results
  import opened Ledger
  import opened Rows
  import opened Repository

  const MembersAction: string := "getAuraTimeline(members)"
  const PreviousAction: string := "getAuraTimeline(previousEvents)"
  const RangeAction: string := "getAuraTimeline(rangeEvents)"

  /** A member as the timeline lists it: only its id and name. */
  datatype MemberRef = MemberRef(id: Id, name: string)

  /** `AuraTimelinePoint`, with the calendar day index standing for its `yyyy-MM-dd` label. */
  datatype Point = Point(day: int, values: map<Id, int>, teamTotal: int)

  datatype AuraTimeline = AuraTimeline(members: seq<MemberRef>, points: seq<Point>)

  function MemberIds(members: seq<MemberRow>): seq<Id>
  {
    Project(members, (m: MemberRow) => m.id)
  }

  function MemberIdSet(members: seq<MemberRow>): set<Id>
  {
    set m | m in members :: m.id
  }

  /** Member ids are the primary key of `aura_members`: no two rows share one. */
  predicate UniqueIds(members: seq<MemberRow>)
  {
    forall i, j :: 0 <= i < j < |members| ==> members[i].id != members[j].id
  }

  /** `members.map(m => ({ id: m.id, name: m.name }))`. */
  function Refs(members: seq<MemberRow>): (refs: seq<MemberRef>)
    ensures |refs| == |members|
    ensures forall i :: 0 <= i < |members| ==> refs[i] == MemberRef(members[i].id, members[i].name)
  {
    seq(|members|, i requires 0 <= i < |members| => MemberRef(members[i].id, members[i].name))
  }

  /** The events of the members `ids` before day `startDay`. */
  function PreviousQuery(ids: set<Id>, startDay: int): EventQuery
  {
    EventQuery(Some(ids), None, Some(DayStart(startDay)))
  }

  /** The events of the members `ids` on days `startDay` through `endDay`. */
  function RangeQuery(ids: set<Id>, startDay: int, endDay: int): EventQuery
  {
    EventQuery(Some(ids), Some(DayStart(startDay)), Some(DayStart(endDay + 1)))
  }

  // ---------------------------------------------------------------------------
  // Seeding the running balances

  /** `new Map(members.map(m => [m.id, m.starting_aura]))`; a later entry overwrites an earlier one. */
  function Seed(members: seq<MemberRow>): (seed: map<Id, int>)
    ensures seed.Keys == MemberIdSet(members)
    ensures UniqueIds(members) ==> forall k :: 0 <= k < |members| ==> seed[members[k].id] == members[k].startingAura
  {
    if members == [] then map[]
    else
      var prefix, last := members[..|members| - 1], members[|members| - 1];
      assert members == prefix + [last];
      Seed(prefix)[last.id := last.startingAura]
  }

  /**
   * The balances after seeding: the fold of the earlier events over the
   * starting balances leaves every member at its balance at the end of the
   * day before `startDay`.
   */
  lemma {:induction false} SeedIsBalanceBefore(es: seq<EventRow>, members: seq<MemberRow>, startDay: int, running: map<Id, int>)
    requires UniqueIds(members)
    requires var previous := Select(es, PreviousQuery(MemberIdSet(members), startDay));
      && running.Keys == Seed(members).Keys + MemberIdsOf(previous)
      && forall k :: k in running ==> running[k] == GetOr(Seed(members), k, 0) + MemberTotal(previous, k)
    ensures RunningOk(es, members, running, startDay - 1)
  {
    var q := PreviousQuery(MemberIdSet(members), startDay);
    forall k | 0 <= k < |members|
      ensures members[k].id in running
      ensures running[members[k].id] == BalanceThrough(es, members[k].id, members[k].startingAura, startDay - 1)
    {
      var m := members[k];
      assert m in members;
      var before := EventQuery(Some({m.id}), None, Some(DayStart(startDay - 1 + 1)));
      SelectNested(es, q, OfMember(m.id), before);
    }
  }

  /** Every member sits at its balance at the end of day `d`. */
  predicate RunningOk(es: seq<EventRow>, members: seq<MemberRow>, running: map<Id, int>, d: int)
  {
    forall k :: 0 <= k < |members| ==>
      members[k].id in running && running[members[k].id] == BalanceThrough(es, members[k].id, members[k].startingAura, d)
  }

  // ---------------------------------------------------------------------------
  // Bucketing the in-range events by day

  /** `deltaByDay.get(d)?.get(m) ?? 0`. */
  function Cell(byDay: map<int, map<Id, int>>, d: int, m: Id): int
  {
    if d in byDay then GetOr(byDay[d], m, 0) else 0
  }

  /** The calendar days on which some row of `rows` falls. */
  function DaysOf(rows: seq<EventRow>): set<int>
  {
    set e | e in rows :: DayOf(e.occurredAt)
  }

  /**
   * The `deltaByDay` fold: a day has a bucket exactly when some row falls on
   * it, and the bucket of day `d` holds, for member `m`, the net change of `m`
   * on day `d` (0 when absent).
   */
  method BucketByDay(rows: seq<EventRow>) returns (byDay: map<int, map<Id, int>>)
    ensures byDay.Keys == DaysOf(rows)
    ensures forall d, m :: Cell(byDay, d, m) == Total(Select(rows, OnDay(m, d)))
  {
    byDay := map[];
    for i := 0 to |rows|
      invariant byDay.Keys == DaysOf(rows[..i])
      invariant forall d, m :: Cell(byDay, d, m) == Total(Select(rows[..i], OnDay(m, d)))
    {
      var event := rows[i];
      BucketStep(byDay, rows[..i], event);
      assert rows[..i + 1] == rows[..i] + [event];
      var day := DayOf(event.occurredAt);
      if day !in byDay {
        byDay := byDay[day := map[]];
      }
      var memberDeltas := byDay[day];
      var delta := Coerce(event.delta);
      var previousValue := GetOr(memberDeltas, event.memberId, 0);
      byDay := byDay[day := memberDeltas[event.memberId := previousValue + delta]];
    }
    assert rows[..|rows|] == rows;
  }

  /** One turn of the bucketing fold keeps its invariant. */
  lemma {:induction false} BucketStep(byDay: map<int, map<Id, int>>, done: seq<EventRow>, event: EventRow)
    requires byDay.Keys == DaysOf(done)
    requires forall d, m :: Cell(byDay, d, m) == Total(Select(done, OnDay(m, d)))
    ensures var day := DayOf(event.occurredAt);
      var bucket := if day in byDay then byDay[day] else map[];
      var next := byDay[day := bucket[event.memberId := GetOr(bucket, event.memberId, 0) + Coerce(event.delta)]];
      && next.Keys == DaysOf(done + [event])
      && forall d, m :: Cell(next, d, m) == Total(Select(done + [event], OnDay(m, d)))
  {
    var day := DayOf(event.occurredAt);
    var bucket := if day in byDay then byDay[day] else map[];
    var next := byDay[day := bucket[event.memberId := GetOr(bucket, event.memberId, 0) + Coerce(event.delta)]];
    DaysOfSnoc(done, event);
    forall d, m
      ensures Cell(next, d, m) == Total(Select(done + [event], OnDay(m, d)))
    {
      DayTotalSnoc(done, event, m, d);
    }
  }

  lemma {:induction false} DaysOfSnoc(done: seq<EventRow>, event: EventRow)
    ensures DaysOf(done + [event]) == DaysOf(done) + {DayOf(event.occurredAt)}
  {
  }

  /** Appending a row adds its delta to its own member's total of its own day, and to no other. */
  lemma {:induction false} DayTotalSnoc(done: seq<EventRow>, event: EventRow, m: Id, d: int)
    ensures Total(Select(done + [event], OnDay(m, d)))
            == Total(Select(done, OnDay(m, d)))
               + (if event.memberId == m && DayOf(event.occurredAt) == d then Coerce(event.delta) else 0)
  {
    SelectSnoc(done, event, OnDay(m, d));
    DayOfWithin(event.occurredAt, d);
    if Matches(OnDay(m, d), event) {
      TotalSnoc(Select(done, OnDay(m, d)), event);
    }
  }

  // ---------------------------------------------------------------------------
  // Advancing one day

  /** `dayMemberDeltas?.get(m) ?? 0`. */
  function DayDelta(dayDeltas: Option<map<Id, int>>, m: Id): int
  {
    match dayDeltas
    case None => 0
    case Some(deltas) => GetOr(deltas, m, 0)
  }

  /**
   * The inner loop over the members for one day: each member's balance (its
   * starting balance when it has none yet) grows by its delta of the day, and
   * no other balance changes.
   */
  method AdvanceDay(running: map<Id, int>, members: seq<MemberRow>, dayDeltas: Option<map<Id, int>>)
    returns (next: map<Id, int>)
    requires UniqueIds(members)
    ensures forall k :: 0 <= k < |members| ==>
              members[k].id in next
              && next[members[k].id]
              == GetOr(running, members[k].id, members[k].startingAura) + DayDelta(dayDeltas, members[k].id)
    ensures forall id :: id in running && id !in MemberIdSet(members) ==> id in next && next[id] == running[id]
    ensures next.Keys == running.Keys + MemberIdSet(members)
  {
    next := running;
    for j := 0 to |members|
      invariant AdvancedUpTo(running, members, dayDeltas, next, j)
      invariant forall id :: id in next ==> id in running || id in MemberIdSet(members)
    {
      var member := members[j];
      MemberIdListed(members, j);
      AdvanceStep(running, members, dayDeltas, next, j);
      var previousValue := GetOr(next, member.id, member.startingAura);
      var memberDelta := DayDelta(dayDeltas, member.id);
      next := next[member.id := previousValue + memberDelta];
    }
    AdvanceDone(running, members, dayDeltas, next);
  }

  /** After the last member the invariant gives the whole new state. */
  lemma AdvanceDone(running: map<Id, int>, members: seq<MemberRow>, dayDeltas: Option<map<Id, int>>, next: map<Id, int>)
    requires AdvancedUpTo(running, members, dayDeltas, next, |members|)
    requires forall id :: id in next ==> id in running || id in MemberIdSet(members)
    ensures next.Keys == running.Keys + MemberIdSet(members)
  {
    MemberIdsAreKeys(members, next);
  }


  lemma MemberIdListed(members: seq<MemberRow>, j: int)
    requires 0 <= j < |members|
    ensures members[j].id in MemberIdSet(members)
  {
    assert members[j] in members;
  }

  /** A map holding every member's id holds the whole id set. */
  lemma MemberIdsAreKeys(members: seq<MemberRow>, m: map<Id, int>)
    requires forall k :: 0 <= k < |members| ==> members[k].id in m
    ensures MemberIdSet(members) <= m.Keys
  {
    forall id | id in MemberIdSet(members)
      ensures id in m
    {
      var r :| r in members && r.id == id;
      var k :| 0 <= k < |members| && members[k] == r;
    }
  }

  /** The inner loop's invariant after the first `j` members. */
  predicate AdvancedUpTo(running: map<Id, int>, members: seq<MemberRow>, dayDeltas: Option<map<Id, int>>,
                         next: map<Id, int>, j: int)
    requires 0 <= j <= |members|
  {
    && (forall k :: 0 <= k < j ==>
          members[k].id in next
          && next[members[k].id]
             == GetOr(running, members[k].id, members[k].startingAura) + DayDelta(dayDeltas, members[k].id))
    && (forall k :: j <= k < |members| ==>
          GetOr(next, members[k].id, members[k].startingAura)
          == GetOr(running, members[k].id, members[k].startingAura))
    && (forall id :: id in running && id !in MemberIdSet(members) ==> id in next && next[id] == running[id])
  }

  /** One turn of the inner loop keeps its invariant. */
  lemma {:induction false} AdvanceStep(running: map<Id, int>, members: seq<MemberRow>, dayDeltas: Option<map<Id, int>>,
                                       next: map<Id, int>, j: int)
    requires UniqueIds(members)
    requires 0 <= j < |members|
    requires AdvancedUpTo(running, members, dayDeltas, next, j)
    ensures var m := members[j];
      AdvancedUpTo(running, members, dayDeltas,
                   next[m.id := GetOr(next, m.id, m.startingAura) + DayDelta(dayDeltas, m.id)], j + 1)
  {
    var m := members[j];
    var next' := next[m.id := GetOr(next, m.id, m.startingAura) + DayDelta(dayDeltas, m.id)];
    assert m in members;
    forall k | 0 <= k < j + 1
      ensures members[k].id in next'
      ensures next'[members[k].id]
              == GetOr(running, members[k].id, members[k].startingAura) + DayDelta(dayDeltas, members[k].id)
    {
      if k < j {
        assert members[k].id != m.id;
      }
    }
    forall k | j + 1 <= k < |members|
      ensures GetOr(next', members[k].id, members[k].startingAura)
              == GetOr(running, members[k].id, members[k].startingAura)
    {
      assert members[k].id != m.id;
    }
  }

  /**
   * Restricting the in-range events to one member and one day inside the
   * range gives that member's events of that day in the whole log.
   */
  lemma {:induction false} RangeDay(es: seq<EventRow>, ids: set<Id>, startDay: int, endDay: int, m: Id, d: int)
    requires m in ids && startDay <= d <= endDay
    ensures Select(Select(es, RangeQuery(ids, startDay, endDay)), OnDay(m, d)) == Select(es, OnDay(m, d))
  {
    DayStartMonotone(startDay, d);
    DayStartMonotone(d + 1, endDay + 1);
    SelectNested(es, RangeQuery(ids, startDay, endDay), OnDay(m, d), OnDay(m, d));
  }

  /** Advancing the balances of day `d - 1` by day `d`'s buckets gives the balances of day `d`. */
  lemma {:induction false} AdvanceIsBalanceStep(
    es: seq<EventRow>, members: seq<MemberRow>, startDay: int, endDay: int,
    byDay: map<int, map<Id, int>>, running: map<Id, int>, next: map<Id, int>, d: int)
    requires startDay <= d <= endDay
    requires RunningOk(es, members, running, d - 1)
    requires forall d, m :: Cell(byDay, d, m)
                            == Total(Select(Select(es, RangeQuery(MemberIdSet(members), startDay, endDay)), OnDay(m, d)))
    requires forall k :: 0 <= k < |members| ==>
               members[k].id in next
               && next[members[k].id]
                  == GetOr(running, members[k].id, members[k].startingAura) + Cell(byDay, d, members[k].id)
    ensures RunningOk(es, members, next, d)
  {
    forall k | 0 <= k < |members|
      ensures next[members[k].id] == BalanceThrough(es, members[k].id, members[k].startingAura, d)
    {
      var m := members[k];
      assert m in members;
      RangeDay(es, MemberIdSet(members), startDay, endDay, m.id, d);
      BalanceStep(es, m.id, m.startingAura, d);
    }
  }

  // ---------------------------------------------------------------------------
  // Points

  /** `Object.fromEntries(members.map(m => [m.id, runningAura.get(m.id) ?? m.starting_aura]))`. */
  function PointValues(members: seq<MemberRow>, running: map<Id, int>): (values: map<Id, int>)
    ensures values.Keys == MemberIdSet(members)
    ensures forall k :: 0 <= k < |members| && members[k].id in running ==> values[members[k].id] == running[members[k].id]
  {
    if members == [] then map[]
    else
      var prefix, last := members[..|members| - 1], members[|members| - 1];
      assert members == prefix + [last];
      PointValues(prefix, running)[last.id := GetOr(running, last.id, last.startingAura)]
  }

  /** `members.reduce((sum, m) => sum + (values[m.id] ?? m.starting_aura), 0)`. */
  function TeamTotal(members: seq<MemberRow>, values: map<Id, int>): int
  {
    if members == [] then 0
    else
      var last := members[|members| - 1];
      TeamTotal(members[..|members| - 1], values) + GetOr(values, last.id, last.startingAura)
  }

  /** Sum of the members' starting balances. */
  function StartingSum(members: seq<MemberRow>): int
  {
    SumBy(members, (m: MemberRow) => m.startingAura)
  }

  /**
   * When every member's value is its balance at the end of day `d`, the team
   * total is the sum of the starting balances plus, member by member, every
   * delta before day `d + 1`.
   */
  lemma {:induction false} TeamTotalOfBalances(es: seq<EventRow>, members: seq<MemberRow>, values: map<Id, int>, d: int)
    requires forall k :: 0 <= k < |members| ==>
               members[k].id in values
               && values[members[k].id] == BalanceThrough(es, members[k].id, members[k].startingAura, d)
    ensures TeamTotal(members, values)
            == StartingSum(members) + PerMemberTotal(es, MemberIds(members), None, Some(DayStart(d + 1)))
  {
    if members != [] {
      var prefix := members[..|members| - 1];
      assert MemberIds(prefix) == MemberIds(members)[..|members| - 1];
      TeamTotalOfBalances(es, prefix, values, d);
    }
  }

  lemma {:induction false} MemberIdsAsSet(members: seq<MemberRow>)
    ensures IdSet(MemberIds(members)) == MemberIdSet(members)
  {
    var ids := MemberIds(members);
    forall id | id in MemberIdSet(members)
      ensures id in IdSet(ids)
    {
      var m :| m in members && m.id == id;
      var k :| 0 <= k < |members| && members[k] == m;
      assert ids[k] == id;
    }
  }

  /**
   * The team total of a day is the sum of the starting balances plus every
   * delta of the team's members before the next day starts.
   */
  lemma {:induction false} TeamTotalIsLedgerTotal(es: seq<EventRow>, members: seq<MemberRow>, values: map<Id, int>, d: int)
    requires UniqueIds(members)
    requires forall k :: 0 <= k < |members| ==>
               members[k].id in values
               && values[members[k].id] == BalanceThrough(es, members[k].id, members[k].startingAura, d)
    ensures TeamTotal(members, values)
            == StartingSum(members) + Total(Select(es, EventQuery(Some(MemberIdSet(members)), None, Some(DayStart(d + 1)))))
  {
    TeamTotalOfBalances(es, members, values, d);
    MemberIdsAsSet(members);
    PartitionByMember(es, MemberIds(members), None, Some(DayStart(d + 1)));
  }

  /**
   * A point is right for day `d`: it is labelled `d`, has one value per member,
   * each member's value is its balance at the end of day `d`, and its team
   * total is the team's starting balances plus every delta of the team before
   * day `d + 1`.
   */
  predicate PointOk(es: seq<EventRow>, members: seq<MemberRow>, p: Point, d: int)
  {
    && p.day == d
    && p.values.Keys == MemberIdSet(members)
    && (forall k :: 0 <= k < |members| ==>
          members[k].id in p.values
          && p.values[members[k].id] == BalanceThrough(es, members[k].id, members[k].startingAura, d))
    && p.teamTotal
       == StartingSum(members) + Total(Select(es, EventQuery(Some(MemberIdSet(members)), None, Some(DayStart(d + 1)))))
  }

  /** The point of day `d` built from balances that are right for day `d`. */
  method MakePoint(es: seq<EventRow>, members: seq<MemberRow>, running: map<Id, int>, d: int) returns (p: Point)
    requires UniqueIds(members)
    requires RunningOk(es, members, running, d)
    ensures PointOk(es, members, p, d)
  {
    var values := PointValues(members, running);
    TeamTotalIsLedgerTotal(es, members, values, d);
    var teamTotal := TeamTotal(members, values);
    p := Point(d, values, teamTotal);
  }

  // ---------------------------------------------------------------------------
  // The timeline

  /**
   * `getAuraTimeline(start, end)` over the calendar days of `start` through
   * `end`. A failing member read is a 500; an empty registry gives an empty
   * timeline whatever the event reads would have done; otherwise a failing
   * read of the earlier events, then of the in-range events, is a 500, and the
   * result lists the members in registry order with one point per day, in
   * day order, each point right for its day.
   */
  method GetAuraTimeline(store: Store, start: Instant, end: Instant) returns (r: Result<AuraTimeline>)
    requires DayOf(start) <= DayOf(end)
    requires UniqueIds(store.members)
    ensures MembersAction in store.faults ==> r == Err(StoreFailure(store, MembersAction))
    ensures MembersAction !in store.faults && store.members == [] ==> r == Ok(AuraTimeline([], []))
    ensures MembersAction !in store.faults && store.members != [] && PreviousAction in store.faults
            ==> r == Err(StoreFailure(store, PreviousAction))
    ensures MembersAction !in store.faults && store.members != [] && PreviousAction !in store.faults
            && RangeAction in store.faults
            ==> r == Err(StoreFailure(store, RangeAction))
    ensures MembersAction !in store.faults && PreviousAction !in store.faults && RangeAction !in store.faults
            ==> r.Ok?
    ensures r.Ok? ==> r.value.members == Refs(store.members)
    ensures r.Ok? && store.members != [] ==>
              && |r.value.points| == DayOf(end) - DayOf(start) + 1
              && forall i :: 0 <= i < |r.value.points| ==>
                   PointOk(store.events, store.members, r.value.points[i], DayOf(start) + i)
  {
    var startDay := DayOf(start);
    var endDay := DayOf(end);
    var guard := ThrowSupabaseError(Fault(store, MembersAction), MembersAction);
    if guard.Fail? {
      return Err(guard.error);
    }
    var members := store.members;
    if |members| == 0 {
      return Ok(AuraTimeline([], []));
    }
    var ids := MemberIdSet(members);
    var previousEvents := Select(store.events, PreviousQuery(ids, startDay));
    var rangeEvents := Select(store.events, RangeQuery(ids, startDay, endDay));
    guard := ThrowSupabaseError(Fault(store, PreviousAction), PreviousAction);
    if guard.Fail? {
      return Err(guard.error);
    }
    guard := ThrowSupabaseError(Fault(store, RangeAction), RangeAction);
    if guard.Fail? {
      return Err(guard.error);
    }
    var points := PointsOverInterval(store.events, members, startDay, endDay, previousEvents, rangeEvents);
    return Ok(AuraTimeline(Refs(members), points));
  }

  /**
   * The computation of `getAuraTimeline` once the reads succeeded: seed the
   * balances from the earlier events, bucket the in-range events by day, then
   * walk the days.
   */
  method PointsOverInterval(es: seq<EventRow>, members: seq<MemberRow>, startDay: int, endDay: int,
                            previousEvents: seq<EventRow>, rangeEvents: seq<EventRow>) returns (points: seq<Point>)
    requires startDay <= endDay
    requires UniqueIds(members)
    requires previousEvents == Select(es, PreviousQuery(MemberIdSet(members), startDay))
    requires rangeEvents == Select(es, RangeQuery(MemberIdSet(members), startDay, endDay))
    ensures |points| == endDay - startDay + 1
    ensures forall i :: 0 <= i < |points| ==> PointOk(es, members, points[i], startDay + i)
  {
    var running := AccumulateByMember(Seed(members), previousEvents);
    SeedIsBalanceBefore(es, members, startDay, running);
    var byDay := BucketByDay(rangeEvents);
    points := WalkDays(es, members, startDay, endDay, byDay, running);
  }

  /**
   * The loop over the days of the interval: from the balances at the end of
   * the day before `startDay` and the in-range buckets, one point per day of
   * `startDay` through `endDay`, each right for its day.
   */
  method WalkDays(es: seq<EventRow>, members: seq<MemberRow>, startDay: int, endDay: int,
                  byDay: map<int, map<Id, int>>, running: map<Id, int>) returns (points: seq<Point>)
    requires startDay <= endDay + 1
    requires UniqueIds(members)
    requires RunningOk(es, members, running, startDay - 1)
    requires forall d, m :: Cell(byDay, d, m)
                            == Total(Select(Select(es, RangeQuery(MemberIdSet(members), startDay, endDay)), OnDay(m, d)))
    ensures |points| == endDay - startDay + 1
    ensures forall i :: 0 <= i < |points| ==> PointOk(es, members, points[i], startDay + i)
  {
    points := [];
    var balances := running;
    for day := startDay to endDay + 1
      invariant |points| == day - startDay
      invariant forall i :: 0 <= i < |points| ==> PointOk(es, members, points[i], startDay + i)
      invariant RunningOk(es, members, balances, day - 1)
    {
      var dayDeltas := if day in byDay then Some(byDay[day]) else None;
      var next := AdvanceDay(balances, members, dayDeltas);
      AdvanceIsBalanceStep(es, members, startDay, endDay, byDay, balances, next, day);
      balances := next;
      var point := MakePoint(es, members, balances, day);
      PointsAppend(es, members, points, point, startDay);
      points := points + [point];
    }
  }

  /** The points of consecutive days from `startDay` stay so when the next day's point is appended. */
  lemma {:induction false} PointsAppend(es: seq<EventRow>, members: seq<MemberRow>, points: seq<Point>, point: Point, startDay: int)
    requires forall i :: 0 <= i < |points| ==> PointOk(es, members, points[i], startDay + i)
    requires PointOk(es, members, point, startDay + |points|)
    ensures forall i :: 0 <= i < |points| + 1 ==> PointOk(es, members, (points + [point])[i], startDay + i)
  {
    forall i | 0 <= i < |points| + 1
      ensures PointOk(es, members, (points + [point])[i], startDay + i)
    {
      if i < |points| {
        assert (points + [point])[i] == points[i];
      }
    }
  }

  /**
   * Each value of the timeline is the member's seed, its balance before the
   * first day, plus its in-range deltas of the first day through day `d`.
   */
  lemma {:induction false} BalanceIsSeedPlusRange(es: seq<EventRow>, m: Id, starting: int, startDay: int, d: int)
    requires startDay <= d + 1
    ensures BalanceThrough(es, m, starting, d)
            == BalanceThrough(es, m, starting, startDay - 1)
               + Total(Select(es, EventQuery(Some({m}), Some(DayStart(startDay)), Some(DayStart(d + 1)))))
  {
    DayStartMonotone(startDay, d + 1);
    TotalSplit(es, EventQuery(Some({m}), None, Some(DayStart(d + 1))),
               EventQuery(Some({m}), None, Some(DayStart(startDay - 1 + 1))),
               EventQuery(Some({m}), Some(DayStart(startDay)), Some(DayStart(d + 1))));
  }
}
