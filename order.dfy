/**
 * `.order('occurred_at', { ascending: false }).limit(n)` on the event log:
 * the rows newest first, cut to the first `n`.
 */
module EventOrder {
  import opened Ledger

  predicate NewestFirst(s: seq<EventRow>)
  {
    forall i :: 0 < i < |s| ==> s[i - 1].occurredAt >= s[i].occurredAt
  }

  /** In a newest-first sequence every row is at least as recent as every later row. */
  lemma {:induction false} NewestFirstOrdered(s: seq<EventRow>, i: int, j: int)
    requires NewestFirst(s) && 0 <= i <= j < |s|
    ensures s[i].occurredAt >= s[j].occurredAt
    decreases j - i
  {
    if i < j {
      NewestFirstOrdered(s, i + 1, j);
    }
  }

  /** Puts `x` into a newest-first sequence, after the rows at least as recent. */
  function Insert(s: seq<EventRow>, x: EventRow): (r: seq<EventRow>)
    requires NewestFirst(s)
    ensures NewestFirst(r)
    ensures multiset(r) == multiset(s) + multiset{x}
    ensures |r| == |s| + 1
    ensures r[0] == x || (s != [] && r[0] == s[0])
  {
    if s == [] then [x]
    else if s[0].occurredAt >= x.occurredAt then
      var rest := Insert(s[1..], x);
      assert s == [s[0]] + s[1..];
      ConsNewestFirst(s[0], rest);
      [s[0]] + rest
    else
      ConsNewestFirst(x, s);
      [x] + s
  }

  /** A row at least as recent as the head of a newest-first sequence can go in front of it. */
  lemma {:induction false} ConsNewestFirst(h: EventRow, s: seq<EventRow>)
    requires NewestFirst(s)
    requires s != [] ==> h.occurredAt >= s[0].occurredAt
    ensures NewestFirst([h] + s)
  {
  }

  /** The rows of `s`, newest first. */
  function SortNewestFirst(s: seq<EventRow>): (r: seq<EventRow>)
    ensures NewestFirst(r)
    ensures multiset(r) == multiset(s)
    ensures |r| == |s|
  {
    if s == [] then []
    else
      assert s == s[..|s| - 1] + [s[|s| - 1]];
      Insert(SortNewestFirst(s[..|s| - 1]), s[|s| - 1])
  }

  function Min(a: int, b: int): int
  {
    if a <= b then a else b
  }

  /** The first `n` rows of the log, newest first. */
  function Newest(s: seq<EventRow>, n: nat): seq<EventRow>
  {
    SortNewestFirst(s)[..Min(n, |s|)]
  }

  /**
   * `Newest` returns `min(n, |s|)` rows of the log, newest first, and every
   * row it leaves out is no more recent than any row it returns.
   */
  lemma {:induction false} NewestAreTheMostRecent(s: seq<EventRow>, n: nat)
    ensures |Newest(s, n)| == Min(n, |s|)
    ensures NewestFirst(Newest(s, n))
    ensures multiset(Newest(s, n)) <= multiset(s)
    ensures forall e, i :: e in multiset(s) - multiset(Newest(s, n)) && 0 <= i < |Newest(s, n)|
                           ==> e.occurredAt <= Newest(s, n)[i].occurredAt
  {
    var sorted := SortNewestFirst(s);
    assert Newest(s, n) == sorted[..Min(n, |s|)];
    PrefixOfNewestFirst(sorted, Min(n, |s|));
  }

  /**
   * The first `k` rows of a newest-first sequence are newest first, and every
   * other row of it is no more recent than any of them.
   */
  lemma {:induction false} PrefixOfNewestFirst(sorted: seq<EventRow>, k: int)
    requires NewestFirst(sorted) && 0 <= k <= |sorted|
    ensures NewestFirst(sorted[..k])
    ensures multiset(sorted[..k]) <= multiset(sorted)
    ensures forall e, i :: e in multiset(sorted) - multiset(sorted[..k]) && 0 <= i < k
                           ==> e.occurredAt <= sorted[i].occurredAt
  {
    var shown, rest := sorted[..k], sorted[k..];
    assert sorted == shown + rest;
    assert multiset(sorted) == multiset(shown) + multiset(rest);
    assert multiset(sorted) - multiset(shown) == multiset(rest);
    RestNoNewer(sorted, k);
  }

  /** In a newest-first sequence, every row after the first `k` is no newer than any of them. */
  lemma {:induction false} RestNoNewer(sorted: seq<EventRow>, k: int)
    requires NewestFirst(sorted) && 0 <= k <= |sorted|
    ensures forall e, i :: e in multiset(sorted[k..]) && 0 <= i < k ==> e.occurredAt <= sorted[i].occurredAt
  {
    forall e, i | e in multiset(sorted[k..]) && 0 <= i < k
      ensures e.occurredAt <= sorted[i].occurredAt
    {
      var rest := sorted[k..];
      assert e in rest;
      var j :| 0 <= j < |rest| && rest[j] == e;
      NewestFirstOrdered(sorted, i, k + j);
    }
  }
}
