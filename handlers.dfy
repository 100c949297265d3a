/**
 * Shapes shared by the request handlers of the care modules: the
 * catch-all `except Exception` that turns every error raised inside a
 * handler, its own `HTTPException`s included, into a 500; and the counting
 * facts their queries and bulk updates rest on.
 */
module Handlers {
  import opened Common

  /**
   * `raise HTTPException(500, f"{prefix}: {str(e)}")` for an `HTTPException`
   * `e` raised inside the `try`, whose `str` is "<status>: <detail>".
   */
  function Caught<T>(prefix: string, status: int, detail: string): (r: Result<T>)
    ensures r.Err? && r.status == INTERNAL_ERROR
    ensures r.detail == prefix + ": " + IntToString(status) + ": " + detail
  {
    Err(INTERNAL_ERROR, prefix + ": " + IntToString(status) + ": " + detail)
  }

  /** Counting distributes over concatenation, so a loop can count row by row. */
  lemma CountAppend<T>(a: seq<T>, b: seq<T>, p: T -> bool)
    ensures Count(a + b, p) == Count(a, p) + Count(b, p)
  {
    FilterAppend(a, b, p);
  }

  /** One more row counts once more exactly when it matches. */
  lemma CountSnoc<T>(xs: seq<T>, x: T, p: T -> bool)
    ensures Count(xs + [x], p) == Count(xs, p) + (if p(x) then 1 else 0)
  {
    CountAppend(xs, [x], p);
    assert [x][1..] == [];
  }

  /** Counting one row further along a sequence adds that row when it matches. */
  lemma CountPrefixStep<T>(xs: seq<T>, i: nat, p: T -> bool)
    requires i < |xs|
    ensures Count(xs[..i + 1], p) == Count(xs[..i], p) + (if p(xs[i]) then 1 else 0)
  {
    assert xs[..i + 1] == xs[..i] + [xs[i]];
    CountSnoc(xs[..i], xs[i], p);
  }

  /** A row and its complement split the rows between them, and nothing is lost. */
  lemma {:induction false} FilterSplits<T>(xs: seq<T>, p: T -> bool, q: T -> bool)
    requires forall x :: q(x) == !p(x)
    ensures multiset(Filter(xs, p)) + multiset(Filter(xs, q)) == multiset(xs)
    ensures |Filter(xs, p)| + |Filter(xs, q)| == |xs|
  {
    if xs != [] {
      FilterSplits(xs[1..], p, q);
      assert xs == [xs[0]] + xs[1..];
    }
  }

  /** What a filter keeps is a row of the input that satisfies the filter. */
  lemma FilterMembers<T>(xs: seq<T>, p: T -> bool)
    ensures forall x :: x in Filter(xs, p) ==> x in xs && p(x)
  {
  }

  /** Two predicates no row satisfies together count, added, as their disjunction. */
  lemma {:induction false} CountDisjoint<T>(xs: seq<T>, p: T -> bool, q: T -> bool, pq: T -> bool)
    requires forall x :: !(p(x) && q(x))
    requires forall x :: pq(x) == (p(x) || q(x))
    ensures Count(xs, p) + Count(xs, q) == Count(xs, pq)
  {
    if xs != [] {
      CountDisjoint(xs[1..], p, q, pq);
    }
  }

  /** No row satisfies `p`: the filter counts nothing. */
  lemma {:induction false} NoneMatchingCountsZero<T>(xs: seq<T>, p: T -> bool)
    requires forall m :: 0 <= m < |xs| ==> !p(xs[m])
    ensures Count(xs, p) == 0
  {
    if xs != [] {
      assert !p(xs[0]);
      NoneMatchingCountsZero(xs[1..], p);
    }
  }

  /** A row that matches is counted. */
  lemma CountWitness<T>(xs: seq<T>, p: T -> bool, k: nat)
    requires k < |xs| && p(xs[k])
    ensures Count(xs, p) >= 1
  {
    assert xs[k] in Filter(xs, p);
  }

  /** Predicates that agree on every row filter alike. */
  lemma {:induction false} FilterAlike<T>(xs: seq<T>, p: T -> bool, q: T -> bool)
    requires forall x :: p(x) == q(x)
    ensures Filter(xs, p) == Filter(xs, q)
  {
    if xs != [] {
      FilterAlike(xs[1..], p, q);
    }
  }

  /** The number of positions at which two tables of the same length differ. */
  function RowsChanged<T(==)>(before: seq<T>, after: seq<T>): (r: nat)
    requires |before| == |after|
    ensures r <= |before|
  {
    if before == [] then 0 else (if after[0] != before[0] then 1 else 0) + RowsChanged(before[1..], after[1..])
  }
}
