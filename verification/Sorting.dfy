/** Stable sorting by insertion, as the library sorts of the source behave, for any total preorder. */
module Sorting {
  import opened Seqs

  ghost predicate TotalPreorder<T(!new)>(leq: (T, T) -> bool)
  {
    && (forall a, b :: leq(a, b) || leq(b, a))
    && (forall a, b, c :: leq(a, b) && leq(b, c) ==> leq(a, c))
  }

  ghost predicate Sorted<T>(s: seq<T>, leq: (T, T) -> bool)
  {
    forall i, j :: 0 <= i < j < |s| ==> leq(s[i], s[j])
  }

  ghost predicate NoRepeat<T>(s: seq<T>)
  {
    forall i, j :: 0 <= i < j < |s| ==> s[i] != s[j]
  }

  /** Insertion before its equals: with the rest already sorted, the order of equals is kept. */
  function Insert<T>(x: T, s: seq<T>, leq: (T, T) -> bool): (r: seq<T>)
    ensures multiset(r) == multiset(s) + multiset{x}
    ensures |r| == |s| + 1
  {
    if s == [] then [x]
    else if leq(x, s[0]) then [x] + s
    else
      assert s == [s[0]] + s[1..];
      [s[0]] + Insert(x, s[1..], leq)
  }

  function SortBy<T>(s: seq<T>, leq: (T, T) -> bool): (r: seq<T>)
    ensures multiset(r) == multiset(s)
    ensures |r| == |s|
  {
    if s == [] then []
    else
      assert s == [s[0]] + s[1..];
      Insert(s[0], SortBy(s[1..], leq), leq)
  }

  lemma {:induction false} InsertSorted<T(!new)>(x: T, s: seq<T>, leq: (T, T) -> bool)
    requires TotalPreorder(leq) && Sorted(s, leq)
    ensures Sorted(Insert(x, s, leq), leq)
  {
    if s != [] && !leq(x, s[0]) {
      InsertSorted(x, s[1..], leq);
      var rest := Insert(x, s[1..], leq);
      forall j | 0 <= j < |rest| ensures leq(s[0], rest[j]) {
        assert rest[j] in multiset(rest);
        assert rest[j] == x || rest[j] in s[1..];
      }
    }
  }

  lemma {:induction false} SortSorts<T(!new)>(s: seq<T>, leq: (T, T) -> bool)
    requires TotalPreorder(leq)
    ensures Sorted(SortBy(s, leq), leq)
  {
    if s != [] {
      SortSorts(s[1..], leq);
      InsertSorted(s[0], SortBy(s[1..], leq), leq);
    }
  }

  /** No two different elements are each before the other. */
  ghost predicate NoTies<T>(s: seq<T>, leq: (T, T) -> bool)
  {
    forall i, j :: 0 <= i < |s| && 0 <= j < |s| && leq(s[i], s[j]) && leq(s[j], s[i]) ==> s[i] == s[j]
  }

  lemma HeadIsLeast<T>(s: seq<T>, x: T, leq: (T, T) -> bool)
    requires Sorted(s, leq) && x in s
    ensures x == s[0] || leq(s[0], x)
  {
    var k :| 0 <= k < |s| && s[k] == x;
  }

  lemma SameMembers<T>(a: seq<T>, b: seq<T>)
    requires multiset(a) == multiset(b)
    ensures |a| == |b| && forall x :: x in a ==> x in b
  {
    assert |multiset(a)| == |a| && |multiset(b)| == |b|;
    forall x | x in a ensures x in b { assert x in multiset(a); }
  }

  lemma SameHeads<T>(a: seq<T>, b: seq<T>, leq: (T, T) -> bool)
    requires a != [] && multiset(a) == multiset(b) && Sorted(a, leq) && Sorted(b, leq) && NoTies(b, leq)
    ensures b != [] && a[0] == b[0]
  {
    SameMembers(a, b);
    SameMembers(b, a);
    assert a[0] in a && b[0] in b;
    HeadIsLeast(b, a[0], leq);
    HeadIsLeast(a, b[0], leq);
    hide Sorted;
  }

  lemma SameTails<T>(a: seq<T>, b: seq<T>)
    requires a != [] && b != [] && multiset(a) == multiset(b) && a[0] == b[0]
    ensures multiset(a[1..]) == multiset(b[1..])
  {
    assert a == [a[0]] + a[1..] && b == [b[0]] + b[1..];
    assert multiset(a[1..]) == multiset(a) - multiset{a[0]} && multiset(b[1..]) == multiset(b) - multiset{b[0]};
  }

  lemma TailIsSorted<T>(s: seq<T>, leq: (T, T) -> bool)
    requires s != [] && Sorted(s, leq)
    ensures Sorted(s[1..], leq) && (NoTies(s, leq) ==> NoTies(s[1..], leq))
  {
    forall i, j | 0 <= i < j < |s[1..]| ensures leq(s[1..][i], s[1..][j]) {
      assert leq(s[i + 1], s[j + 1]);
    }
  }

  /** Two sorted arrangements of the same elements are equal when no two different elements tie. */
  lemma {:induction false} SortedIsUnique<T>(a: seq<T>, b: seq<T>, leq: (T, T) -> bool)
    requires multiset(a) == multiset(b) && Sorted(a, leq) && Sorted(b, leq) && NoTies(b, leq)
    ensures a == b
  {
    if a == [] {
      assert |multiset(b)| == 0;
    } else {
      SameHeads(a, b, leq);
      SameTails(a, b);
      TailIsSorted(a, leq);
      TailIsSorted(b, leq);
      hide Sorted, NoTies;
      SortedIsUnique(a[1..], b[1..], leq);
      assert a == [a[0]] + a[1..] && b == [b[0]] + b[1..];
    }
  }

  lemma SortMembers<T>(s: seq<T>, leq: (T, T) -> bool)
    ensures forall x :: x in SortBy(s, leq) <==> x in s
  {
    assert forall x :: x in SortBy(s, leq) <==> x in multiset(SortBy(s, leq));
    assert forall x :: x in s <==> x in multiset(s);
  }

  lemma {:induction false} NoRepeatIsMultiplicity<T>(s: seq<T>)
    ensures NoRepeat(s) <==> forall x :: x in s ==> multiset(s)[x] == 1
  {
    if s != [] {
      var t, x := Init(s), Last(s);
      assert s == t + [x];
      NoRepeatIsMultiplicity(t);
      if NoRepeat(s) {
        assert x !in t;
        assert forall y :: y in t ==> multiset(s)[y] == multiset(t)[y];
      } else if NoRepeat(t) {
        assert x in t;
        assert multiset(s)[x] == multiset(t)[x] + 1;
      } else {
        var y :| y in t && multiset(t)[y] != 1;
        assert multiset(s)[y] >= multiset(t)[y] > 1;
      }
    }
  }

  lemma SortKeepsNoRepeat<T>(s: seq<T>, leq: (T, T) -> bool)
    requires NoRepeat(s)
    ensures NoRepeat(SortBy(s, leq))
  {
    SortMembers(s, leq);
    NoRepeatIsMultiplicity(s);
    NoRepeatIsMultiplicity(SortBy(s, leq));
  }
}

/** Code-point order of strings. */
module TextOrder {
  predicate TextLeq(a: string, b: string)
  {
    a == [] || (b != [] && (a[0] < b[0] || (a[0] == b[0] && TextLeq(a[1..], b[1..]))))
  }

  lemma {:induction false} TextLeqTotal(a: string, b: string)
    ensures TextLeq(a, b) || TextLeq(b, a)
    ensures TextLeq(a, b) && TextLeq(b, a) ==> a == b
  {
    if a != [] && b != [] && a[0] == b[0] {
      TextLeqTotal(a[1..], b[1..]);
      assert a == [a[0]] + a[1..] && b == [b[0]] + b[1..];
    }
  }

  lemma {:induction false} TextLeqTransitive(a: string, b: string, c: string)
    requires TextLeq(a, b) && TextLeq(b, c)
    ensures TextLeq(a, c)
  {
    if a != [] && b != [] && c != [] && a[0] == b[0] == c[0] {
      TextLeqTransitive(a[1..], b[1..], c[1..]);
    }
  }

  /** The first difference decides, and a prefix comes first. */
  predicate DiffersAt(a: string, b: string, k: int)
  {
    0 <= k < |a| && k < |b| && a[..k] == b[..k] && a[k] < b[k]
  }

  lemma {:induction false} TextLeqMeans(a: string, b: string)
    ensures TextLeq(a, b) <==> a <= b || exists k :: DiffersAt(a, b, k)
  {
    if a != [] && b != [] {
      if a[0] == b[0] {
        TextLeqMeans(a[1..], b[1..]);
        assert a == [a[0]] + a[1..] && b == [b[0]] + b[1..];
        if k :| DiffersAt(a[1..], b[1..], k) {
          assert a[..k + 1] == [a[0]] + a[1..][..k] && b[..k + 1] == [b[0]] + b[1..][..k];
          assert DiffersAt(a, b, k + 1);
        }
        if k :| DiffersAt(a, b, k) {
          assert k > 0;
          assert a[1..][..k - 1] == a[..k][1..] && b[1..][..k - 1] == b[..k][1..];
          assert DiffersAt(a[1..], b[1..], k - 1);
        }
      } else if a[0] < b[0] {
        assert DiffersAt(a, b, 0);
      } else {
        forall k | 0 < k <= |a| && k <= |b| ensures a[..k] != b[..k] {
          assert a[..k][0] == a[0] && b[..k][0] == b[0];
        }
      }
    }
  }
}
