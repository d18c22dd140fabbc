/**
 * `createAuraEvent`: recording one event in the log and returning it. The
 * re-read after the insert takes the newest event of the whole log, which is
 * not the recorded one when the event is backdated; `CreateAuraEvent` is the
 * operation that returns the recorded row.
 */
module Recording {
  import opened Results
  import opened Ledger
  import opened Rows
  import opened EventOrder
  import opened Repository

  const CreateEventAction: string := "createAuraEvent"

  const CreatedEventMissing: HttpError := HttpError(500, "Aura event was created but could not be loaded.")

  /** The input of `createAuraEvent`; without `occurredAt` the event happens now. */
  datatype NewEvent = NewEvent(memberId: Id, delta: int, reason: string, occurredAt: Option<Instant>)

  /** The row the insert writes; the store gives it `id` and stamps it `now`. */
  function InsertedRow(input: NewEvent, id: string, now: Instant): EventRow
  {
    EventRow(id, input.memberId, Int(input.delta), input.reason,
             match input.occurredAt case Some(t) => t case None => now,
             now)
  }

  /** The store after a successful insert of `row`. */
  function AfterInsert(store: Store, row: EventRow): Store
  {
    store.(events := store.events + [row])
  }

  /**
   * `createAuraEvent` as written. A failing insert is a 500 tagged
   * "createAuraEvent"; otherwise the result is the newest event of the log
   * after the insert, whichever event that is. The log then holds at least the
   * new row, so the "could not be loaded" error is never raised: without a
   * failing call the result is always an event.
   */
  function CreateAuraEventAsWritten(store: Store, input: NewEvent, id: string, now: Instant): (r: Result<AuraEventItem>)
    ensures CreateEventAction in store.faults ==> r == Err(StoreFailure(store, CreateEventAction))
    ensures CreateEventAction !in store.faults && "listRecentEvents" in store.faults
            ==> r == Err(StoreFailure(store, "listRecentEvents"))
    ensures CreateEventAction !in store.faults && "listRecentEvents" !in store.faults ==> r.Ok?
    ensures r.Ok? ==> var after := AfterInsert(store, InsertedRow(input, id, now));
              EventRowOf(r.value) == Newest(after.events, 1)[0]
  {
    var row := InsertedRow(input, id, now);
    match ThrowSupabaseError(Fault(store, CreateEventAction), CreateEventAction)
    case Fail(e) => Err(e)
    case Pass =>
      var after := AfterInsert(store, row);
      match ListRecentEvents(after, 1)
      case Err(e) => Err(e)
      case Ok(recentEvents) =>
        if |recentEvents| == 0 then Err(CreatedEventMissing) else Ok(recentEvents[0])
  }

  /**
   * As written, the recorded event is returned when it is strictly newer
   * than every other event of the log.
   */
  lemma AsWrittenReturnsStrictlyNewest(store: Store, input: NewEvent, id: string, now: Instant)
    requires CreateAuraEventAsWritten(store, input, id, now).Ok?
    requires var row := InsertedRow(input, id, now);
      forall e :: e in store.events ==> e.occurredAt < row.occurredAt
    ensures EventRowOf(CreateAuraEventAsWritten(store, input, id, now).value) == InsertedRow(input, id, now)
  {
    var row := InsertedRow(input, id, now);
    var es := AfterInsert(store, row).events;
    NewestAreTheMostRecent(es, 1);
  }

  /**
   * A backdated event is not what the written operation returns: after an
   * event at instant 500, recording one that happened at instant 0 returns
   * the event at 500, while `CreateAuraEvent` returns the new one.
   */
  lemma BackdatedEventIsNotReturned()
    ensures var store := Store([MemberRow("m1", "Member one", 0, 0, 0)], [],
                               [EventRow("e1", "m1", Int(1), "earlier entry", 500, 500)], map[]);
            var input := NewEvent("m1", 5, "late entry", Some(0));
            && CreateAuraEventAsWritten(store, input, "e2", 1000).Ok?
            && CreateAuraEventAsWritten(store, input, "e2", 1000).value.id == "e1"
            && CreateAuraEvent(store, input, "e2", 1000).Ok?
            && CreateAuraEvent(store, input, "e2", 1000).value.id == "e2"
  {
    var earlier := EventRow("e1", "m1", Int(1), "earlier entry", 500, 500);
    var row := EventRow("e2", "m1", Int(5), "late entry", 0, 1000);
    assert [earlier, row][..1] == [earlier];
    assert SortNewestFirst([earlier]) == [earlier];
    assert SortNewestFirst([earlier, row]) == Insert([earlier], row);
    assert Insert([earlier], row) == [earlier, row];
  }

  /**
   * `createAuraEvent` as intended: a failing insert is a 500 tagged
   * "createAuraEvent", and otherwise the result is the row the insert wrote,
   * named after its member.
   */
  function CreateAuraEvent(store: Store, input: NewEvent, id: string, now: Instant): (r: Result<AuraEventItem>)
    ensures r.Err? <==> CreateEventAction in store.faults
    ensures r.Err? ==> r.error == StoreFailure(store, CreateEventAction)
    ensures r.Ok? ==> && r.value.id == id
                      && EventRowOf(r.value) == InsertedRow(input, id, now)
                      && EventRowOf(r.value) in AfterInsert(store, InsertedRow(input, id, now)).events
    ensures r.Ok? ==> r.value.memberName
                      == match JoinedName(store.members, input.memberId) case Some(n) => n case None => UnknownMember
  {
    var row := InsertedRow(input, id, now);
    match ThrowSupabaseError(Fault(store, CreateEventAction), CreateEventAction)
    case Fail(e) => Err(e)
    case Pass => Ok(ToAuraEvent(EventWithMember(row, JoinedName(store.members, row.memberId))))
  }
}
