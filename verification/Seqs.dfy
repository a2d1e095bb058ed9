/** Right-recursive sequence helpers: every log in this project grows at its end. */
module Seqs {

  datatype Option<+T> = None | Some(value: T)

  function Init<T>(s: seq<T>): seq<T>
    requires s != []
  {
    s[..|s| - 1]
  }

  function Last<T>(s: seq<T>): T
    requires s != []
  {
    s[|s| - 1]
  }

  function Filter<T>(s: seq<T>, keep: T -> bool): seq<T>
  {
    if s == [] then []
    else if keep(Last(s)) then Filter(Init(s), keep) + [Last(s)]
    else Filter(Init(s), keep)
  }

  lemma FilterAppend<T>(s: seq<T>, x: T, keep: T -> bool)
    ensures Filter(s + [x], keep) == if keep(x) then Filter(s, keep) + [x] else Filter(s, keep)
  {
    assert Init(s + [x]) == s;
  }

  /** The number of elements that satisfy a predicate. */
  function Count<T>(s: seq<T>, keep: T -> bool): nat
  {
    if s == [] then 0 else Count(Init(s), keep) + (if keep(Last(s)) then 1 else 0)
  }

  lemma CountAppend<T>(s: seq<T>, x: T, keep: T -> bool)
    ensures Count(s + [x], keep) == Count(s, keep) + if keep(x) then 1 else 0
  {
    assert Init(s + [x]) == s;
  }

  function Min(a: int, b: int): int { if a <= b then a else b }

  function Max(a: int, b: int): int { if a >= b then a else b }
}

/** Quotients and remainders are unique. */
module Division {
  lemma {:induction false} MoreIsMore(b: nat, p: nat, q: nat)
    requires p > q
    ensures p * b >= q * b + b
  {
    assert p * b == (p - 1) * b + b;
    if p - 1 > q { MoreIsMore(b, p - 1, q); }
  }

  lemma OneQuotient(b: nat, p: nat, s: nat, q: nat, r: nat)
    requires p * b + s == q * b + r && s < b && r < b
    ensures p == q
  {
    if p > q {
      MoreIsMore(b, p, q);
    } else if p < q {
      MoreIsMore(b, q, p);
    }
  }

  lemma SameRemainderFarApart(i: nat, j: nat, p: nat, q: nat, r: nat, n: nat)
    requires i == p * n + r && j == q * n + r && i < j
    ensures j >= i + n
  {
    if p < q {
      MoreIsMore(n, q, p);
    } else if q < p {
      MoreIsMore(n, p, q);
    }
  }

  lemma DivisionSplits(i: nat, n: nat)
    requires n > 0
    ensures i == (i / n) * n + i % n
  {}

  /** Numbers less than n apart have different remainders. */
  lemma RemaindersDiffer(i: nat, j: nat, n: nat)
    requires i < j < i + n
    ensures i % n != j % n
  {
    DivisionSplits(i, n);
    DivisionSplits(j, n);
    var p, q, r := i / n, j / n, i % n;
    if r == j % n { SameRemainderFarApart(i, j, p, q, r, n); }
  }
}
