/**
 * The repository's reads and the re-reads that follow its writes: today's
 * deltas, the member listing with stats, the recent events, and the error
 * branches of creating and updating a member and of recording an event.
 */
module Repository {
  import opened Results
  import opened Ledger
  import opened Rows
  import opened EventOrder

  /**
   * The state of the store as one operation sees it. `members` is
   * `aura_members` in name order and `scores` the `aura_member_scores` view in
   * current-aura-descending order, both as the ordered queries return them;
   * `events` is the event log in any order. A store call tagged with action
   * `a` fails with `faults[a]` when `a` is a key of `faults`.
   */
  datatype Store = Store(
    members: seq<MemberRow>,
    scores: seq<ScoreRow>,
    events: seq<EventRow>,
    faults: map<string, StoreError>)

  /** The error the store call tagged `action` reports, if any. */
  function Fault(store: Store, action: string): Option<StoreError>
  {
    if action in store.faults then Some(store.faults[action]) else None
  }

  /** The 500 that `throwSupabaseError` raises for a failing call tagged `action`. */
  function StoreFailure(store: Store, action: string): HttpError
    requires action in store.faults
  {
    HttpError(500, SupabaseMessage(action, store.faults[action].message))
  }

  // ---------------------------------------------------------------------------
  // Today's deltas

  /** Events of the members `ids` in the calendar day holding `now`. */
  function TodayQuery(ids: set<Id>, now: Instant): EventQuery
  {
    EventQuery(Some(ids), Some(StartOfDay(now)), Some(DayStart(DayOf(now) + 1)))
  }

  /** Net change of member `m` during the calendar day holding `now`. */
  function TodayDelta(es: seq<EventRow>, m: Id, now: Instant): int
  {
    Total(Select(es, TodayQuery({m}, now)))
  }

  /**
   * The `Map` fold over event rows used by `getTodayDeltas` and by the
   * timeline's seeding: every row adds its coerced delta to its member's entry,
   * an entry missing so far counting as 0.
   */
  method AccumulateByMember(init: map<Id, int>, rows: seq<EventRow>) returns (acc: map<Id, int>)
    ensures acc.Keys == init.Keys + MemberIdsOf(rows)
    ensures forall k :: k in acc ==> acc[k] == GetOr(init, k, 0) + MemberTotal(rows, k)
  {
    acc := init;
    for i := 0 to |rows|
      invariant acc.Keys == init.Keys + MemberIdsOf(rows[..i])
      invariant forall k :: k in acc ==> acc[k] == GetOr(init, k, 0) + MemberTotal(rows[..i], k)
    {
      var event := rows[i];
      var delta := Coerce(event.delta);
      var previous := GetOr(acc, event.memberId, 0);
      assert rows[..i + 1] == rows[..i] + [event];
      AccumulateStep(init, acc, rows[..i], event);
      acc := acc[event.memberId := previous + delta];
    }
    assert rows[..|rows|] == rows;
  }

  /** One turn of the fold keeps its invariant. */
  lemma {:induction false} AccumulateStep(init: map<Id, int>, acc: map<Id, int>, done: seq<EventRow>, event: EventRow)
    requires acc.Keys == init.Keys + MemberIdsOf(done)
    requires forall k :: k in acc ==> acc[k] == GetOr(init, k, 0) + MemberTotal(done, k)
    ensures var next := acc[event.memberId := GetOr(acc, event.memberId, 0) + Coerce(event.delta)];
      && next.Keys == init.Keys + MemberIdsOf(done + [event])
      && forall k :: k in next ==> next[k] == GetOr(init, k, 0) + MemberTotal(done + [event], k)
  {
    var next := acc[event.memberId := GetOr(acc, event.memberId, 0) + Coerce(event.delta)];
    MemberIdsSnoc(done, event);
    forall k | k in next
      ensures next[k] == GetOr(init, k, 0) + MemberTotal(done + [event], k)
    {
      MemberTotalSnoc(done, event, k);
      if k == event.memberId && k !in acc {
        AbsentMemberTotal(done, k);
      }
    }
  }

  /**
   * `getTodayDeltas`: no member ids means an empty map and no store call.
   * Otherwise the map holds an entry exactly for the given members with an
   * event today, and a given member's entry, or 0 without one, is its net
   * change over today.
   */
  method GetTodayDeltas(store: Store, now: Instant, memberIds: seq<Id>) returns (r: Result<map<Id, int>>)
    ensures |memberIds| == 0 ==> r == Ok(map[])
    ensures |memberIds| > 0 && "getTodayDeltas" in store.faults ==> r == Err(StoreFailure(store, "getTodayDeltas"))
    ensures |memberIds| > 0 && "getTodayDeltas" !in store.faults ==> r.Ok?
    ensures r.Ok? ==> r.value.Keys == MemberIdsOf(Select(store.events, TodayQuery(IdSet(memberIds), now)))
    ensures r.Ok? ==> forall id :: id in memberIds ==> GetOr(r.value, id, 0) == TodayDelta(store.events, id, now)
  {
    if |memberIds| == 0 {
      SelectNone(store.events, TodayQuery(IdSet(memberIds), now));
      return Ok(map[]);
    }
    var ids := IdSet(memberIds);
    var query := TodayQuery(ids, now);
    var data := Select(store.events, query);
    var guard := ThrowSupabaseError(Fault(store, "getTodayDeltas"), "getTodayDeltas");
    if guard.Fail? {
      return Err(guard.error);
    }
    var deltas := AccumulateByMember(map[], data);
    forall id | id in memberIds
      ensures GetOr(deltas, id, 0) == TodayDelta(store.events, id, now)
    {
      SelectNested(store.events, query, OfMember(id), TodayQuery({id}, now));
      if id !in deltas {
        AbsentMemberTotal(data, id);
      }
    }
    return Ok(deltas);
  }

  // ---------------------------------------------------------------------------
  // Members with stats

  /** The stats of every view row, in view order, each with its member's net change today. */
  function MembersWithStats(store: Store, now: Instant): (stats: seq<MemberStats>)
    ensures |stats| == |store.scores|
    ensures forall i :: 0 <= i < |stats| ==> ScoreRowOf(stats[i]) == store.scores[i]
    ensures forall i :: 0 <= i < |stats| ==> stats[i].deltaToday == TodayDelta(store.events, stats[i].id, now)
  {
    seq(|store.scores|, i requires 0 <= i < |store.scores|
                          => ToMemberStats(store.scores[i], TodayDelta(store.events, store.scores[i].id, now)))
  }

  /** The member ids of the view rows, in row order. */
  function ScoreIds(scores: seq<ScoreRow>): seq<Id>
  {
    Project(scores, (r: ScoreRow) => r.id)
  }

  /** What `listMembersWithStats` returns or raises. */
  function Listing(store: Store, now: Instant): Result<seq<MemberStats>>
  {
    if "listMembersWithStats" in store.faults then Err(StoreFailure(store, "listMembersWithStats"))
    else if |store.scores| > 0 && "getTodayDeltas" in store.faults then Err(StoreFailure(store, "getTodayDeltas"))
    else Ok(MembersWithStats(store, now))
  }

  /**
   * `listMembersWithStats`: one stats record per view row, in row order, whose
   * `deltaToday` is that member's net change today (0 without events today).
   */
  method ListMembersWithStats(store: Store, now: Instant) returns (r: Result<seq<MemberStats>>)
    ensures r == Listing(store, now)
  {
    var guard := ThrowSupabaseError(Fault(store, "listMembersWithStats"), "listMembersWithStats");
    if guard.Fail? {
      return Err(guard.error);
    }
    var rows := store.scores;
    var ids := ScoreIds(rows);
    var today := GetTodayDeltas(store, now, ids);
    if today.Err? {
      return Err(today.error);
    }
    var deltas := today.value;
    var stats := seq(|rows|, i requires 0 <= i < |rows| => ToMemberStats(rows[i], GetOr(deltas, rows[i].id, 0)));
    forall i | 0 <= i < |rows|
      ensures stats[i] == MembersWithStats(store, now)[i]
    {
      assert ids[i] in ids;
    }
    assert stats == MembersWithStats(store, now);
    return Ok(stats);
  }

  // ---------------------------------------------------------------------------
  // Recent events

  /** The name of the member row with id `id`, as the `aura_members (name)` join finds it. */
  function JoinedName(members: seq<MemberRow>, id: Id): (name: Option<string>)
    ensures name.Some? <==> exists i :: 0 <= i < |members| && members[i].id == id
    ensures name.Some? ==> exists i :: 0 <= i < |members| && members[i].id == id && members[i].name == name.value
  {
    match Find(members, (m: MemberRow) => m.id == id)
    case Some(i) => Some(members[i].name)
    case None => None
  }

  /**
   * `listRecentEvents`: the `limit` most recent events of the log, newest
   * first, each named after its member or the placeholder when the member is gone.
   */
  function ListRecentEvents(store: Store, limit: nat): (r: Result<seq<AuraEventItem>>)
    ensures r.Err? <==> "listRecentEvents" in store.faults
    ensures r.Err? ==> r.error == StoreFailure(store, "listRecentEvents")
    ensures r.Ok? ==> |r.value| == Min(limit, |store.events|)
    ensures r.Ok? ==> forall i :: 0 < i < |r.value| ==> r.value[i - 1].occurredAt >= r.value[i].occurredAt
    ensures r.Ok? ==> forall i :: 0 <= i < |r.value| ==> EventRowOf(r.value[i]) == Newest(store.events, limit)[i]
    ensures r.Ok? ==> forall i :: 0 <= i < |r.value| ==>
              r.value[i].memberName
              == match JoinedName(store.members, r.value[i].memberId) case Some(n) => n case None => UnknownMember
  {
    if "listRecentEvents" in store.faults then Err(StoreFailure(store, "listRecentEvents"))
    else
      NewestAreTheMostRecent(store.events, limit);
      Ok(Named(store.members, Newest(store.events, limit)))
  }

  /** The event rows behind a list of event items. */
  function ItemRows(items: seq<AuraEventItem>): seq<EventRow>
  {
    Project(items, EventRowOf)
  }

  /** Naming the rows keeps them: the rows behind the named items are the rows named. */
  lemma NamedKeepsRows(members: seq<MemberRow>, rows: seq<EventRow>)
    ensures ItemRows(Named(members, rows)) == rows
  {
  }

  /**
   * What holds of the recent events whatever order the store gives to equal
   * instants: the items are taken from the log, and no event left out is
   * newer than any item.
   */
  lemma RecentEventsAreTheMostRecent(store: Store, limit: nat)
    requires ListRecentEvents(store, limit).Ok?
    ensures var items := ListRecentEvents(store, limit).value;
      && multiset(ItemRows(items)) <= multiset(store.events)
      && forall e, i :: e in multiset(store.events) - multiset(ItemRows(items)) && 0 <= i < |items|
                        ==> e.occurredAt <= ItemRows(items)[i].occurredAt
  {
    NewestAreTheMostRecent(store.events, limit);
    NamedKeepsRows(store.members, Newest(store.events, limit));
  }

  /** The event items of `rows`, in the same order, each joined with its member's name. */
  function Named(members: seq<MemberRow>, rows: seq<EventRow>): (items: seq<AuraEventItem>)
    ensures |items| == |rows|
    ensures forall i :: 0 <= i < |rows| ==> EventRowOf(items[i]) == rows[i]
    ensures forall i :: 0 <= i < |rows| ==>
              items[i].memberName
              == match JoinedName(members, rows[i].memberId) case Some(n) => n case None => UnknownMember
  {
    seq(|rows|, i requires 0 <= i < |rows| => ToAuraEvent(EventWithMember(rows[i], JoinedName(members, rows[i].memberId))))
  }

  // ---------------------------------------------------------------------------
  // Member writes: the conflict branch and the re-read after the write

  datatype NewMember = NewMember(name: string, startingAura: int)

  /** The insert or update reported a unique violation on the member name. */
  predicate NameTaken(store: Store, action: string)
  {
    action in store.faults && store.faults[action].code == UniqueViolation
  }

  const CreatedMemberMissing: HttpError := HttpError(500, "Member was created but could not be loaded.")
  const MemberNotFound: HttpError := HttpError(404, "Member not found.")

  /**
   * `createMember`. `store` is the state the insert and the re-read see. A
   * unique violation is a 409 and nothing else is; any other insert error is a
   * 500 tagged "createMember"; otherwise the result is the first listed member
   * whose name matches case-insensitively, or a 500 when none does.
   */
  method CreateMember(store: Store, now: Instant, input: NewMember) returns (r: Result<MemberStats>)
    ensures r == Err(DuplicateName) <==> NameTaken(store, "createMember")
    ensures "createMember" in store.faults && !NameTaken(store, "createMember")
            ==> r == Err(StoreFailure(store, "createMember"))
    ensures "createMember" !in store.faults && Listing(store, now).Err? ==> r == Err(Listing(store, now).error)
    ensures r.Ok? ==> "createMember" !in store.faults && Listing(store, now).Ok?
    ensures r.Ok? ==> var stats := Listing(store, now).value;
              exists i :: 0 <= i < |stats| && stats[i] == r.value && Lower(stats[i].name) == Lower(input.name)
                          && forall j :: 0 <= j < i ==> Lower(stats[j].name) != Lower(input.name)
    ensures "createMember" !in store.faults && Listing(store, now).Ok? ==>
              var stats := Listing(store, now).value;
              ((exists i :: 0 <= i < |stats| && Lower(stats[i].name) == Lower(input.name)) <==> r.Ok?)
              && (r.Err? ==> r.error == CreatedMemberMissing)
  {
    var insertError := Fault(store, "createMember");
    if insertError.Some? && insertError.value.code == UniqueViolation {
      return Err(DuplicateName);
    }
    var guard := ThrowSupabaseError(insertError, "createMember");
    if guard.Fail? {
      return Err(guard.error);
    }
    var members := ListMembersWithStats(store, now);
    if members.Err? {
      return Err(members.error);
    }
    var found := Find(members.value, (m: MemberStats) => Lower(m.name) == Lower(input.name));
    if found.None? {
      return Err(CreatedMemberMissing);
    }
    return Ok(members.value[found.value]);
  }

  datatype MemberPatch = MemberPatch(name: Option<string>, startingAura: Option<int>)

  /** A column value of an update. */
  datatype Column = Text(text: string) | Number(number: int)

  /** The `updates` record of `updateMember`: a column for each field the caller gave, and no other. */
  method BuildUpdates(input: MemberPatch) returns (updates: map<string, Column>)
    ensures updates.Keys <= {"name", "starting_aura"}
    ensures "name" in updates <==> input.name.Some?
    ensures input.name.Some? ==> updates["name"] == Text(input.name.value)
    ensures "starting_aura" in updates <==> input.startingAura.Some?
    ensures input.startingAura.Some? ==> updates["starting_aura"] == Number(input.startingAura.value)
  {
    updates := map[];
    if input.name.Some? {
      updates := updates["name" := Text(input.name.value)];
    }
    if input.startingAura.Some? {
      updates := updates["starting_aura" := Number(input.startingAura.value)];
    }
  }

  /**
   * `updateMember`. `store` is the state the update and the re-read see. A
   * unique violation is a 409 and nothing else is; any other update error is
   * a 500 tagged "updateMember"; otherwise the result is the first listed
   * member with the id, or a 404 when the id is not listed.
   */
  method UpdateMember(store: Store, now: Instant, id: Id, input: MemberPatch) returns (r: Result<MemberStats>)
    ensures r == Err(DuplicateName) <==> NameTaken(store, "updateMember")
    ensures "updateMember" in store.faults && !NameTaken(store, "updateMember")
            ==> r == Err(StoreFailure(store, "updateMember"))
    ensures "updateMember" !in store.faults && Listing(store, now).Err? ==> r == Err(Listing(store, now).error)
    ensures r.Ok? ==> "updateMember" !in store.faults && Listing(store, now).Ok?
    ensures r.Ok? ==> r.value.id == id && r.value in Listing(store, now).value
    ensures r.Ok? ==> var stats := Listing(store, now).value;
              exists i :: 0 <= i < |stats| && stats[i] == r.value && forall j :: 0 <= j < i ==> stats[j].id != id
    ensures "updateMember" !in store.faults && Listing(store, now).Ok? ==>
              var stats := Listing(store, now).value;
              ((exists i :: 0 <= i < |stats| && stats[i].id == id) <==> r.Ok?)
              && (r.Err? ==> r.error == MemberNotFound)
  {
    // The update record goes to the store with the write; the model sees only
    // the store after that write, so `updates` does not reach the result.
    var updates := BuildUpdates(input);
    var updateError := Fault(store, "updateMember");
    if updateError.Some? && updateError.value.code == UniqueViolation {
      return Err(DuplicateName);
    }
    var guard := ThrowSupabaseError(updateError, "updateMember");
    if guard.Fail? {
      return Err(guard.error);
    }
    var members := ListMembersWithStats(store, now);
    if members.Err? {
      return Err(members.error);
    }
    var found := Find(members.value, (m: MemberStats) => m.id == id);
    if found.None? {
      return Err(MemberNotFound);
    }
    return Ok(members.value[found.value]);
  }
}
