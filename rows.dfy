/**
 * Rows of the store, the records the repository hands out, and the
 * translation of store errors into HTTP errors.
 */
module Rows {
  import opened Results
  import opened Ledger

  /** One row of `aura_members`. */
  datatype MemberRow = MemberRow(id: Id, name: string, startingAura: int, createdAt: Instant, updatedAt: Instant)

  /** One row of the `aura_member_scores` view: a member row with its current aura and lifetime change. */
  datatype ScoreRow = ScoreRow(
    id: Id,
    name: string,
    startingAura: int,
    currentAura: int,
    deltaTotal: int,
    createdAt: Instant,
    updatedAt: Instant)

  /** `AuraMemberStats`. */
  datatype MemberStats = MemberStats(
    id: Id,
    name: string,
    startingAura: int,
    currentAura: int,
    deltaTotal: int,
    deltaToday: int,
    createdAt: Instant,
    updatedAt: Instant)

  /** An event row with the name of the member it references, or None when that member is gone. */
  datatype EventWithMember = EventWithMember(event: EventRow, memberName: Option<string>)

  /** `AuraEventItem`. */
  datatype AuraEventItem = AuraEventItem(
    id: string,
    memberId: Id,
    memberName: string,
    delta: RawDelta,
    reason: string,
    occurredAt: Instant,
    createdAt: Instant)

  const UnknownMember: string := "Unknown member"

  /** The view row a stats record was built from. */
  function ScoreRowOf(s: MemberStats): ScoreRow
  {
    ScoreRow(s.id, s.name, s.startingAura, s.currentAura, s.deltaTotal, s.createdAt, s.updatedAt)
  }

  /** The event row an event item was built from. */
  function EventRowOf(item: AuraEventItem): EventRow
  {
    EventRow(item.id, item.memberId, item.delta, item.reason, item.occurredAt, item.createdAt)
  }

  /** `toMemberStats`: every column of the view row is kept, and today's change is attached. */
  function ToMemberStats(row: ScoreRow, deltaToday: int): (s: MemberStats)
    ensures ScoreRowOf(s) == row
    ensures s.deltaToday == deltaToday
  {
    MemberStats(row.id, row.name, row.startingAura, row.currentAura, row.deltaTotal, deltaToday,
                row.createdAt, row.updatedAt)
  }

  /**
   * `toAuraEvent`: every column of the event row is kept, and the member's name
   * is the joined name, or the placeholder when the member no longer exists.
   */
  function ToAuraEvent(row: EventWithMember): (item: AuraEventItem)
    ensures EventRowOf(item) == row.event
    ensures row.memberName.Some? ==> item.memberName == row.memberName.value
    ensures row.memberName.None? ==> item.memberName == UnknownMember
  {
    var e := row.event;
    AuraEventItem(e.id, e.memberId,
                  match row.memberName case Some(n) => n case None => UnknownMember,
                  e.delta, e.reason, e.occurredAt, e.createdAt)
  }

  // ---------------------------------------------------------------------------
  // Store errors

  /** An error reported by the store client; `code` is the Postgres error code. */
  datatype StoreError = StoreError(code: string, message: string)

  /** Postgres `unique_violation`. */
  const UniqueViolation: string := "23505"

  const DuplicateName: HttpError := HttpError(409, "A member with this name already exists.")

  function SupabaseMessage(action: string, message: string): string
  {
    "Supabase error during \"" + action + "\": " + message
  }

  /** `throwSupabaseError`: no error lets the caller go on; any error becomes a 500 naming the action. */
  function ThrowSupabaseError(error: Option<StoreError>, action: string): (r: Outcome)
    ensures r.Pass? <==> error.None?
    ensures r.Fail? ==> r.error == HttpError(500, SupabaseMessage(action, error.value.message))
  {
    match error
    case None => Pass
    case Some(e) => Fail(HttpError(500, SupabaseMessage(action, e.message)))
  }

  /**
   * The message of a translated store error names its action unambiguously:
   * two messages are equal only for the same action and the same store
   * message, as long as action names hold no double quote.
   */
  lemma {:induction false} SupabaseMessageNamesAction(a1: string, m1: string, a2: string, m2: string)
    requires '"' !in a1 && '"' !in a2
    requires SupabaseMessage(a1, m1) == SupabaseMessage(a2, m2)
    ensures a1 == a2 && m1 == m2
  {
    var prefix := "Supabase error during \"";
    var s1, s2 := SupabaseMessage(a1, m1), SupabaseMessage(a2, m2);
    assert s1 == prefix + a1 + "\": " + m1;
    assert s2 == prefix + a2 + "\": " + m2;
    if |a1| < |a2| {
      MessageLayout(a1, m1);
      MessageLayout(a2, m2);
      assert false;
    } else if |a2| < |a1| {
      MessageLayout(a1, m1);
      MessageLayout(a2, m2);
      assert false;
    }
    assert a1 == s1[|prefix|..|prefix| + |a1|];
    assert a2 == s2[|prefix|..|prefix| + |a2|];
    assert m1 == s1[|prefix| + |a1| + 3..];
    assert m2 == s2[|prefix| + |a2| + 3..];
  }

  /** Where the action and its closing quote sit in a translated message. */
  lemma {:induction false} MessageLayout(a: string, m: string)
    ensures var s := SupabaseMessage(a, m);
      && |s| > 23 + |a|
      && s[23 + |a|] == '"'
      && forall k :: 0 <= k < |a| ==> s[23 + k] == a[k]
  {
    assert |"Supabase error during \""| == 23;
  }

  // ---------------------------------------------------------------------------
  // Lookups

  function LowerChar(c: char): char
  {
    if 'A' <= c <= 'Z' then (c as int + 32) as char else c
  }

  /** `toLowerCase()` on ASCII letters. */
  function Lower(s: string): string
  {
    seq(|s|, i requires 0 <= i < |s| => LowerChar(s[i]))
  }

  /** `Array.prototype.find`: the index of the first element satisfying `p`. */
  function Find<T>(s: seq<T>, p: T -> bool): (r: Option<nat>)
    ensures r.Some? ==> r.value < |s| && p(s[r.value]) && forall j :: 0 <= j < r.value ==> !p(s[j])
    ensures r.None? ==> forall j :: 0 <= j < |s| ==> !p(s[j])
  {
    if s == [] then None
    else if p(s[0]) then Some(0)
    else match Find(s[1..], p)
      case None => None
      case Some(k) => Some(k + 1)
  }
}
