/**
 * `getAuraOverview`: the member listing, the twenty most recent events, the
 * team's current aura and change today, and the change over an optional
 * range of calendar days.
 */
module Overview {
  import opened Results
  import opened Ledger
  import opened Rows
  import opened Repository

  const RangeAction: string := "getAuraOverview(rangeDelta)"

  /** How many recent events the overview shows. */
  const RecentLimit: nat := 20

  datatype AuraOverview = AuraOverview(
    members: seq<MemberStats>,
    recentEvents: seq<AuraEventItem>,
    teamAura: int,
    teamDeltaToday: int,
    rangeDelta: int)

  /** `members.reduce((sum, m) => sum + m.currentAura, 0)`. */
  function SumCurrent(stats: seq<MemberStats>): int
  {
    SumBy(stats, (m: MemberStats) => m.currentAura)
  }

  /** `members.reduce((sum, m) => sum + m.deltaToday, 0)`. */
  function SumToday(stats: seq<MemberStats>): int
  {
    SumBy(stats, (m: MemberStats) => m.deltaToday)
  }

  /** Sum of the listed members' starting balances. */
  function SumStarting(stats: seq<MemberStats>): int
  {
    SumBy(stats, (m: MemberStats) => m.startingAura)
  }

  function StatIds(stats: seq<MemberStats>): seq<Id>
  {
    Project(stats, (m: MemberStats) => m.id)
  }

  /** Every event, of any member, in the calendar days of `rangeStart` through `rangeEnd`. */
  function RangeDeltaQuery(rangeStart: Instant, rangeEnd: Instant): EventQuery
  {
    EventQuery(None, Some(StartOfDay(rangeStart)), Some(DayStart(DayOf(rangeEnd) + 1)))
  }

  /** The `rangeDelta` branch: 0 without both bounds, else the sum over the range, or a 500. */
  function RangeDelta(store: Store, rangeStart: Option<Instant>, rangeEnd: Option<Instant>): (r: Result<int>)
    ensures (rangeStart.None? || rangeEnd.None?) ==> r == Ok(0)
    ensures rangeStart.Some? && rangeEnd.Some? && RangeAction in store.faults ==> r == Err(StoreFailure(store, RangeAction))
    ensures rangeStart.Some? && rangeEnd.Some? && RangeAction !in store.faults ==>
              r == Ok(Total(Select(store.events, RangeDeltaQuery(rangeStart.value, rangeEnd.value))))
  {
    if rangeStart.Some? && rangeEnd.Some? then
      var data := Select(store.events, RangeDeltaQuery(rangeStart.value, rangeEnd.value));
      match ThrowSupabaseError(Fault(store, RangeAction), RangeAction)
      case Fail(e) => Err(e)
      case Pass => Ok(Total(data))
    else Ok(0)
  }

  /**
   * `getAuraOverview`. The member listing is read first, then the recent
   * events, then the range sum; the first failure is the result. On success
   * the overview holds the listing, the twenty most recent events and the
   * three totals.
   */
  function GetAuraOverview(store: Store, now: Instant, rangeStart: Option<Instant>, rangeEnd: Option<Instant>)
    : (r: Result<AuraOverview>)
    ensures Listing(store, now).Err? ==> r == Err(Listing(store, now).error)
    ensures Listing(store, now).Ok? && ListRecentEvents(store, RecentLimit).Err?
            ==> r == Err(ListRecentEvents(store, RecentLimit).error)
    ensures Listing(store, now).Ok? && ListRecentEvents(store, RecentLimit).Ok? && RangeDelta(store, rangeStart, rangeEnd).Err?
            ==> r == Err(StoreFailure(store, RangeAction))
    ensures r.Ok? <==> Listing(store, now).Ok? && ListRecentEvents(store, RecentLimit).Ok?
                       && RangeDelta(store, rangeStart, rangeEnd).Ok?
    ensures r.Ok? ==> && r.value.members == Listing(store, now).value
                      && r.value.recentEvents == ListRecentEvents(store, RecentLimit).value
                      && r.value.rangeDelta == RangeDelta(store, rangeStart, rangeEnd).value
                      && r.value.teamAura == SumCurrent(r.value.members)
                      && r.value.teamDeltaToday == SumToday(r.value.members)
  {
    match Listing(store, now)
    case Err(e) => Err(e)
    case Ok(members) =>
      match ListRecentEvents(store, RecentLimit)
      case Err(e) => Err(e)
      case Ok(recentEvents) =>
        var teamAura := SumCurrent(members);
        var teamDeltaToday := SumToday(members);
        match RangeDelta(store, rangeStart, rangeEnd)
        case Err(e) => Err(e)
        case Ok(rangeDelta) => Ok(AuraOverview(members, recentEvents, teamAura, teamDeltaToday, rangeDelta))
  }

  // ---------------------------------------------------------------------------
  // What the team totals mean

  /** Summing each member's change today is summing, member by member, the events of today. */
  lemma {:induction false} SumTodayPerMember(es: seq<EventRow>, stats: seq<MemberStats>, now: Instant)
    requires forall i :: 0 <= i < |stats| ==> stats[i].deltaToday == TodayDelta(es, stats[i].id, now)
    ensures SumToday(stats) == PerMemberTotal(es, StatIds(stats), Some(StartOfDay(now)), Some(DayStart(DayOf(now) + 1)))
  {
    if stats != [] {
      var prefix := stats[..|stats| - 1];
      assert StatIds(prefix) == StatIds(stats)[..|stats| - 1];
      SumTodayPerMember(es, prefix, now);
    }
  }

  /**
   * `teamDeltaToday` is the sum of every delta today of the listed members
   * (0 for an empty listing): no event of the team today is missed or
   * counted twice.
   */
  lemma TeamDeltaTodayIsTodayTotal(store: Store, now: Instant, rangeStart: Option<Instant>, rangeEnd: Option<Instant>)
    requires Distinct(ScoreIds(store.scores))
    requires GetAuraOverview(store, now, rangeStart, rangeEnd).Ok?
    ensures GetAuraOverview(store, now, rangeStart, rangeEnd).value.teamDeltaToday
            == Total(Select(store.events, TodayQuery(IdSet(ScoreIds(store.scores)), now)))
  {
    var stats := Listing(store, now).value;
    assert StatIds(stats) == ScoreIds(store.scores);
    SumTodayPerMember(store.events, stats, now);
    PartitionByMember(store.events, ScoreIds(store.scores), Some(StartOfDay(now)), Some(DayStart(DayOf(now) + 1)));
  }

  /**
   * The `aura_member_scores` view agrees with the log: each row's current
   * aura is its starting aura plus every delta of the member, and its
   * lifetime change is that sum.
   */
  predicate ViewMatchesLog(store: Store)
  {
    forall i :: 0 <= i < |store.scores| ==>
      && store.scores[i].deltaTotal == MemberTotal(store.events, store.scores[i].id)
      && store.scores[i].currentAura == store.scores[i].startingAura + store.scores[i].deltaTotal
  }

  lemma {:induction false} SumCurrentPerMember(es: seq<EventRow>, stats: seq<MemberStats>)
    requires forall i :: 0 <= i < |stats| ==> stats[i].currentAura == stats[i].startingAura + MemberTotal(es, stats[i].id)
    ensures SumCurrent(stats) == SumStarting(stats) + PerMemberTotal(es, StatIds(stats), None, None)
  {
    if stats != [] {
      var prefix := stats[..|stats| - 1];
      assert StatIds(prefix) == StatIds(stats)[..|stats| - 1];
      SumCurrentPerMember(es, prefix);
    }
  }

  /**
   * When the view agrees with the log, `teamAura` is the team's starting
   * balances plus every delta of the listed members.
   */
  lemma TeamAuraIsLedgerTotal(store: Store, now: Instant, rangeStart: Option<Instant>, rangeEnd: Option<Instant>)
    requires Distinct(ScoreIds(store.scores))
    requires ViewMatchesLog(store)
    requires GetAuraOverview(store, now, rangeStart, rangeEnd).Ok?
    ensures var o := GetAuraOverview(store, now, rangeStart, rangeEnd).value;
      o.teamAura == SumStarting(o.members) + Total(Select(store.events, EventQuery(Some(IdSet(ScoreIds(store.scores))), None, None)))
  {
    var stats := Listing(store, now).value;
    assert StatIds(stats) == ScoreIds(store.scores);
    SumCurrentPerMember(store.events, stats);
    PartitionByMember(store.events, ScoreIds(store.scores), None, None);
  }

  // ---------------------------------------------------------------------------
  // What the range delta means

  /** Net change of the whole team on day `d`. */
  function DayTotal(es: seq<EventRow>, d: int): int
  {
    Total(Select(es, EventQuery(None, Some(DayStart(d)), Some(DayStart(d + 1)))))
  }

  /** Sum of the day totals of days `first` through `last`. */
  function DaysTotal(es: seq<EventRow>, first: int, last: int): int
    decreases last - first
  {
    if last < first then 0 else DaysTotal(es, first, last - 1) + DayTotal(es, last)
  }

  /** The events from the start of day `first` to the end of day `last` are those of its days, day by day. */
  lemma {:induction false} SpanIsSumOfDays(es: seq<EventRow>, first: int, last: int)
    requires first <= last + 1
    ensures Total(Select(es, EventQuery(None, Some(DayStart(first)), Some(DayStart(last + 1))))) == DaysTotal(es, first, last)
    decreases last - first
  {
    if last < first {
      SelectNone(es, EventQuery(None, Some(DayStart(first)), Some(DayStart(last + 1))));
    } else {
      SpanIsSumOfDays(es, first, last - 1);
      DayStartMonotone(first, last);
      TotalSplit(es, EventQuery(None, Some(DayStart(first)), Some(DayStart(last + 1))),
                 EventQuery(None, Some(DayStart(first)), Some(DayStart(last - 1 + 1))),
                 EventQuery(None, Some(DayStart(last)), Some(DayStart(last + 1))));
    }
  }

  /**
   * With both bounds, `rangeDelta` is the sum of the team's day totals over
   * the calendar days of `rangeStart` through `rangeEnd`, and 0 when the end
   * falls on an earlier day than the start.
   */
  lemma RangeDeltaIsSumOfDays(store: Store, now: Instant, rangeStart: Instant, rangeEnd: Instant)
    requires GetAuraOverview(store, now, Some(rangeStart), Some(rangeEnd)).Ok?
    ensures var o := GetAuraOverview(store, now, Some(rangeStart), Some(rangeEnd)).value;
      && (DayOf(rangeStart) <= DayOf(rangeEnd) ==> o.rangeDelta == DaysTotal(store.events, DayOf(rangeStart), DayOf(rangeEnd)))
      && (DayOf(rangeEnd) < DayOf(rangeStart) ==> o.rangeDelta == 0)
  {
    RangeSumOfDays(store, rangeStart, rangeEnd);
  }

  /** The range branch on its own: its sum is the sum of the day totals, or 0 for a reversed range. */
  lemma RangeSumOfDays(store: Store, rangeStart: Instant, rangeEnd: Instant)
    requires RangeDelta(store, Some(rangeStart), Some(rangeEnd)).Ok?
    ensures var d := RangeDelta(store, Some(rangeStart), Some(rangeEnd)).value;
      && (DayOf(rangeStart) <= DayOf(rangeEnd) ==> d == DaysTotal(store.events, DayOf(rangeStart), DayOf(rangeEnd)))
      && (DayOf(rangeEnd) < DayOf(rangeStart) ==> d == 0)
  {
    if DayOf(rangeStart) <= DayOf(rangeEnd) {
      SpanIsSumOfDays(store.events, DayOf(rangeStart), DayOf(rangeEnd));
    } else {
      DayStartMonotone(DayOf(rangeEnd) + 1, DayOf(rangeStart));
      SelectNone(store.events, RangeDeltaQuery(rangeStart, rangeEnd));
    }
  }
}
