/**
 * The event log and the balance reconstruction over it: instants and calendar
 * days, the coercion of stored deltas, the store's event filter (member set and
 * half-open time range) and the sums every aggregate is built from.
 */
module Ledger {
  import opened Results

  type Id = string

  /** Milliseconds since the epoch. */
  type Instant = int

  /** Length of one calendar day in milliseconds. */
  const DayMs: int := 86400000

  /** Index of the calendar day holding instant `t`. */
  function DayOf(t: Instant): int
  {
    t / DayMs
  }

  /** First instant of day `d`. */
  function DayStart(d: int): Instant
  {
    d * DayMs
  }

  /** `startOfDay(t)`. */
  function StartOfDay(t: Instant): Instant
  {
    DayStart(DayOf(t))
  }

  /** Day `d` is exactly the half-open interval [DayStart(d), DayStart(d + 1)). */
  lemma DayOfWithin(t: Instant, d: int)
    ensures DayOf(t) == d <==> DayStart(d) <= t < DayStart(d + 1)
  {
  }

  lemma DayStartMonotone(d: int, e: int)
    ensures d <= e <==> DayStart(d) <= DayStart(e)
  {
  }

  /** A delta as the store hands it back: a number, or something `Number(...)` turns into NaN. */
  datatype RawDelta = Int(value: int) | NotANumber

  /** `Number(delta) || 0`: a missing or non-numeric delta counts as 0. */
  function Coerce(d: RawDelta): int
  {
    match d
    case Int(v) => v
    case NotANumber => 0
  }

  /** One row of `aura_events`. */
  datatype EventRow = EventRow(
    id: string,
    memberId: Id,
    delta: RawDelta,
    reason: string,
    occurredAt: Instant,
    createdAt: Instant)

  /**
   * The filter of an event query: `.in('member_id', memberIds)`,
   * `.gte('occurred_at', from)` and `.lt('occurred_at', until)`, each optional.
   */
  datatype EventQuery = EventQuery(memberIds: Option<set<Id>>, from: Option<Instant>, until: Option<Instant>)

  predicate Matches(q: EventQuery, e: EventRow)
  {
    && (q.memberIds.None? || e.memberId in q.memberIds.value)
    && (q.from.None? || q.from.value <= e.occurredAt)
    && (q.until.None? || e.occurredAt < q.until.value)
  }

  /** The rows an event query returns, in log order. */
  function Select(es: seq<EventRow>, q: EventQuery): seq<EventRow>
  {
    if es == [] then []
    else
      var rest := Select(es[..|es| - 1], q);
      var last := es[|es| - 1];
      if Matches(q, last) then rest + [last] else rest
  }

  /** A query returns exactly the rows of the log that match it. */
  lemma {:induction false} SelectMembership(es: seq<EventRow>, q: EventQuery)
    ensures forall e :: e in Select(es, q) <==> e in es && Matches(q, e)
  {
    if es != [] {
      var p, x := es[..|es| - 1], es[|es| - 1];
      assert es == p + [x];
      SelectMembership(p, q);
    }
  }

  /** Sum of the coerced deltas of `es`. */
  function Total(es: seq<EventRow>): int
  {
    if es == [] then 0 else Total(es[..|es| - 1]) + Coerce(es[|es| - 1].delta)
  }

  /** Ids of the members that have a row in `es`. */
  function MemberIdsOf(es: seq<EventRow>): set<Id>
  {
    set e | e in es :: e.memberId
  }

  /** All events of member `m`. */
  function OfMember(m: Id): EventQuery
  {
    EventQuery(Some({m}), None, None)
  }

  /** Net change of member `m` over the rows `es`. */
  function MemberTotal(es: seq<EventRow>, m: Id): int
  {
    Total(Select(es, OfMember(m)))
  }

  /** Events of member `m` on calendar day `d`. */
  function OnDay(m: Id, d: int): EventQuery
  {
    EventQuery(Some({m}), Some(DayStart(d)), Some(DayStart(d + 1)))
  }

  /**
   * The running balance of a member at the end of day `d`: its starting
   * balance plus every delta it received strictly before the next day starts.
   */
  function BalanceThrough(es: seq<EventRow>, m: Id, starting: int, d: int): int
  {
    starting + Total(Select(es, EventQuery(Some({m}), None, Some(DayStart(d + 1)))))
  }

  /** `xs.map(f)`. */
  function Project<T, U>(xs: seq<T>, f: T -> U): (ys: seq<U>)
    ensures |ys| == |xs|
    ensures forall i :: 0 <= i < |xs| ==> ys[i] == f(xs[i])
  {
    seq(|xs|, i requires 0 <= i < |xs| => f(xs[i]))
  }

  /** `xs.reduce((sum, x) => sum + f(x), 0)`. */
  function SumBy<T>(xs: seq<T>, f: T -> int): int
  {
    if xs == [] then 0 else SumBy(xs[..|xs| - 1], f) + f(xs[|xs| - 1])
  }

  function IdSet(ids: seq<Id>): set<Id>
  {
    set id | id in ids
  }

  predicate Distinct(ids: seq<Id>)
  {
    forall i, j :: 0 <= i < j < |ids| ==> ids[i] != ids[j]
  }

  /** Sum, member by member, of each member's deltas inside one time range. */
  function PerMemberTotal(es: seq<EventRow>, ids: seq<Id>, from: Option<Instant>, until: Option<Instant>): int
  {
    if ids == [] then 0
    else PerMemberTotal(es, ids[..|ids| - 1], from, until)
         + Total(Select(es, EventQuery(Some({ids[|ids| - 1]}), from, until)))
  }

  // ---------------------------------------------------------------------------
  // Algebra of queries and sums

  /** Filtering the result of a query again is one query with both conditions. */
  lemma {:induction false} SelectNested(es: seq<EventRow>, q1: EventQuery, q2: EventQuery, q3: EventQuery)
    requires forall e :: e in es ==> (Matches(q3, e) <==> Matches(q1, e) && Matches(q2, e))
    ensures Select(Select(es, q1), q2) == Select(es, q3)
  {
    if es != [] {
      var p, x := es[..|es| - 1], es[|es| - 1];
      assert es == p + [x];
      SelectNested(p, q1, q2, q3);
      var s1 := Select(p, q1);
      if Matches(q1, x) {
        assert (s1 + [x])[..|s1 + [x]| - 1] == s1;
      }
    }
  }

  /** A query whose rows split into those of two disjoint queries sums to their two sums. */
  lemma {:induction false} TotalSplit(es: seq<EventRow>, q: EventQuery, q1: EventQuery, q2: EventQuery)
    requires forall e :: e in es ==> (Matches(q, e) <==> Matches(q1, e) || Matches(q2, e))
    requires forall e :: e in es ==> !(Matches(q1, e) && Matches(q2, e))
    ensures Total(Select(es, q)) == Total(Select(es, q1)) + Total(Select(es, q2))
  {
    if es != [] {
      var p, x := es[..|es| - 1], es[|es| - 1];
      assert es == p + [x];
      TotalSplit(p, q, q1, q2);
      assert x in es;
      SelectSnoc(p, x, q);
      SelectSnoc(p, x, q1);
      SelectSnoc(p, x, q2);
      if Matches(q1, x) {
        TotalSnoc(Select(p, q), x);
        TotalSnoc(Select(p, q1), x);
      } else if Matches(q2, x) {
        TotalSnoc(Select(p, q), x);
        TotalSnoc(Select(p, q2), x);
      }
    }
  }

  lemma {:induction false} SelectSnoc(p: seq<EventRow>, x: EventRow, q: EventQuery)
    ensures Select(p + [x], q) == if Matches(q, x) then Select(p, q) + [x] else Select(p, q)
  {
    assert (p + [x])[..|p + [x]| - 1] == p;
  }

  lemma {:induction false} TotalSnoc(s: seq<EventRow>, x: EventRow)
    ensures Total(s + [x]) == Total(s) + Coerce(x.delta)
  {
    assert (s + [x])[..|s + [x]| - 1] == s;
  }

  /** A query no row of `es` matches selects nothing. */
  lemma {:induction false} SelectNone(es: seq<EventRow>, q: EventQuery)
    requires forall e :: e in es ==> !Matches(q, e)
    ensures Select(es, q) == []
  {
    if es != [] {
      var p, x := es[..|es| - 1], es[|es| - 1];
      assert es == p + [x];
      SelectNone(p, q);
    }
  }

  /** Appending one row adds its delta to its own member's net change and to no other. */
  lemma {:induction false} MemberTotalSnoc(p: seq<EventRow>, x: EventRow, m: Id)
    ensures MemberTotal(p + [x], m) == MemberTotal(p, m) + (if x.memberId == m then Coerce(x.delta) else 0)
  {
    var q := OfMember(m);
    var s := Select(p, q);
    SelectSnoc(p, x, q);
    if x.memberId == m {
      assert Select(p + [x], q) == s + [x];
      TotalSnoc(s, x);
    } else {
      assert Select(p + [x], q) == s;
    }
  }

  lemma {:induction false} MemberIdsSnoc(p: seq<EventRow>, x: EventRow)
    ensures MemberIdsOf(p + [x]) == MemberIdsOf(p) + {x.memberId}
  {
  }

  /** A member with no row in `es` has a net change of 0 there. */
  lemma {:induction false} AbsentMemberTotal(es: seq<EventRow>, m: Id)
    requires m !in MemberIdsOf(es)
    ensures MemberTotal(es, m) == 0
  {
    SelectNone(es, OfMember(m));
  }

  /**
   * Summing member by member over distinct members equals one sum over the
   * events of the whole member set: no event is counted twice or missed.
   */
  lemma {:induction false} PartitionByMember(es: seq<EventRow>, ids: seq<Id>, from: Option<Instant>, until: Option<Instant>)
    requires Distinct(ids)
    ensures PerMemberTotal(es, ids, from, until)
            == Total(Select(es, EventQuery(Some(IdSet(ids)), from, until)))
  {
    var all := EventQuery(Some(IdSet(ids)), from, until);
    if ids == [] {
      SelectNone(es, all);
    } else {
      var p, x := ids[..|ids| - 1], ids[|ids| - 1];
      assert ids == p + [x];
      PartitionByMember(es, p, from, until);
      TotalSplit(es, all, EventQuery(Some(IdSet(p)), from, until), EventQuery(Some({x}), from, until));
    }
  }

  /** The per-day step of the running balance: day `d` adds exactly that day's deltas. */
  lemma {:induction false} BalanceStep(es: seq<EventRow>, m: Id, starting: int, d: int)
    ensures BalanceThrough(es, m, starting, d)
            == BalanceThrough(es, m, starting, d - 1) + Total(Select(es, OnDay(m, d)))
  {
    TotalSplit(es, EventQuery(Some({m}), None, Some(DayStart(d + 1))),
               EventQuery(Some({m}), None, Some(DayStart(d))), OnDay(m, d));
  }

  /** A day on which a member has no events leaves its balance where the previous day left it. */
  lemma {:induction false} NoActivityKeepsBalance(es: seq<EventRow>, m: Id, starting: int, d: int)
    requires forall e :: e in es && e.memberId == m ==> DayOf(e.occurredAt) != d
    ensures BalanceThrough(es, m, starting, d) == BalanceThrough(es, m, starting, d - 1)
  {
    BalanceStep(es, m, starting, d);
    forall e | e in es
      ensures !Matches(OnDay(m, d), e)
    {
      DayOfWithin(e.occurredAt, d);
    }
    SelectNone(es, OnDay(m, d));
  }
}
