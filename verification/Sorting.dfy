/** JavaScript's stable `sort`, for any total preorder, and what a sorted sequence is unique for. */
module Sorting {
  import opened Sequences

  ghost predicate TotalPreorder<T(!new)>(leq: (T, T) -> bool) {
    && (forall x, y :: leq(x, y) || leq(y, x))
    && (forall x, y, z :: leq(x, y) && leq(y, z) ==> leq(x, z))
  }

  ghost predicate Sorted<T(!new)>(s: seq<T>, leq: (T, T) -> bool) {
    forall i, j :: 0 <= i < j < |s| ==> leq(s[i], s[j])
  }

  /** Insert `x` behind everything it is not strictly before. */
  function Insert<T(!new)>(s: seq<T>, x: T, leq: (T, T) -> bool): (r: seq<T>)
    ensures |r| == |s| + 1
    ensures forall y :: y in r <==> y in s || y == x
  {
    if s == [] then [x]
    else if leq(s[|s| - 1], x) then s + [x]
    else Insert(s[..|s| - 1], x, leq) + [s[|s| - 1]]
  }

  function SortBy<T(!new)>(s: seq<T>, leq: (T, T) -> bool): (r: seq<T>)
    ensures |r| == |s|
    ensures forall y :: y in r <==> y in s
  {
    if s == [] then [] else Insert(SortBy(s[..|s| - 1], leq), s[|s| - 1], leq)
  }

  lemma Transitive<T(!new)>(leq: (T, T) -> bool, x: T, y: T, z: T)
    requires TotalPreorder(leq) && leq(x, y) && leq(y, z)
    ensures leq(x, z)
  {
  }

  lemma {:induction false} InsertSorts<T(!new)>(s: seq<T>, x: T, leq: (T, T) -> bool)
    requires TotalPreorder(leq) && Sorted(s, leq)
    ensures Sorted(Insert(s, x, leq), leq)
  {
    if s != [] {
      var init, last := s[..|s| - 1], s[|s| - 1];
      if leq(last, x) {
        forall i | 0 <= i < |s| ensures leq(s[i], x) {
          if i < |s| - 1 { Transitive(leq, s[i], last, x); }
        }
      } else {
        assert leq(x, last);
        hide TotalPreorder;
        InsertSorts(init, x, leq);
        var t := Insert(init, x, leq);
        forall i | 0 <= i < |t| ensures leq(t[i], last) {
          assert t[i] in t;
        }
      }
    }
  }

  lemma {:induction false} InsertAdds<T(!new)>(s: seq<T>, x: T, leq: (T, T) -> bool)
    ensures multiset(Insert(s, x, leq)) == multiset(s) + multiset{x}
  {
    if s != [] {
      InsertAdds(s[..|s| - 1], x, leq);
      assert s == s[..|s| - 1] + [s[|s| - 1]];
    }
  }

  lemma {:induction false} SortBySorts<T(!new)>(s: seq<T>, leq: (T, T) -> bool)
    requires TotalPreorder(leq)
    ensures Sorted(SortBy(s, leq), leq) && multiset(SortBy(s, leq)) == multiset(s)
  {
    hide TotalPreorder;
    if s != [] {
      SortBySorts(s[..|s| - 1], leq);
      InsertSorts(SortBy(s[..|s| - 1], leq), s[|s| - 1], leq);
      InsertAdds(SortBy(s[..|s| - 1], leq), s[|s| - 1], leq);
      assert s == s[..|s| - 1] + [s[|s| - 1]];
    }
  }

  /** Distinct elements stay distinct. */
  lemma SortByDistinct<T(!new)>(s: seq<T>, leq: (T, T) -> bool)
    requires TotalPreorder(leq) && Distinct(s)
    ensures Distinct(SortBy(s, leq))
  {
    SortBySorts(s, leq);
    DistinctByCount(s, SortBy(s, leq));
  }

  lemma {:induction false} CountsOnce<T(!new)>(s: seq<T>, x: T)
    requires Distinct(s)
    ensures multiset(s)[x] == if x in s then 1 else 0
  {
    if s != [] {
      CountsOnce(s[1..], x);
      assert s == [s[0]] + s[1..];
    }
  }

  lemma DistinctByCount<T(!new)>(s: seq<T>, t: seq<T>)
    requires Distinct(s) && multiset(s) == multiset(t)
    ensures Distinct(t)
  {
    forall i, j | 0 <= i < j < |t| ensures t[i] != t[j] {
      CountsOnce(s, t[i]);
      assert t == t[..j] + [t[j]] + t[j + 1..];
      assert t[i] in t[..j];
    }
  }

  /** Sequences without repetition and with the same elements are permutations of each other. */
  lemma SameElements<T(!new)>(a: seq<T>, b: seq<T>)
    requires Distinct(a) && Distinct(b)
    requires forall x :: x in a <==> x in b
    ensures multiset(a) == multiset(b)
  {
    forall x ensures multiset(a)[x] == multiset(b)[x] {
      CountsOnce(a, x);
      CountsOnce(b, x);
    }
  }

  /** If the order separates the elements, there is one sorted arrangement of them. */
  lemma {:induction false} SortedIsUnique<T(!new)>(a: seq<T>, b: seq<T>, leq: (T, T) -> bool)
    requires Sorted(a, leq) && Sorted(b, leq) && multiset(a) == multiset(b)
    requires forall x, y :: x in a && y in a && leq(x, y) && leq(y, x) ==> x == y
    ensures a == b
    decreases |a|
  {
    SameLength(a, b);
    if a != [] {
      SameHead(a, b, leq);
      TailCounts(a);
      TailCounts(b);
      SortedTail(a, leq);
      SortedTail(b, leq);
      hide Sorted;
      SortedIsUnique(a[1..], b[1..], leq);
    }
  }

  lemma TailCounts<T(!new)>(a: seq<T>)
    requires a != []
    ensures a == [a[0]] + a[1..] && multiset(a[1..]) == multiset(a) - multiset{a[0]}
    ensures forall x :: x in a[1..] ==> x in a
  {
    assert a == [a[0]] + a[1..];
  }

  lemma SortedTail<T(!new)>(a: seq<T>, leq: (T, T) -> bool)
    requires a != [] && Sorted(a, leq)
    ensures Sorted(a[1..], leq)
  {
  }

  lemma SameHead<T(!new)>(a: seq<T>, b: seq<T>, leq: (T, T) -> bool)
    requires Sorted(a, leq) && Sorted(b, leq) && multiset(a) == multiset(b) && a != [] && b != []
    requires forall x, y :: x in a && y in a && leq(x, y) && leq(y, x) ==> x == y
    ensures a[0] == b[0]
  {
    assert a[0] in multiset(a) && b[0] in multiset(b);
    var i :| 0 <= i < |b| && b[i] == a[0];
    var j :| 0 <= j < |a| && a[j] == b[0];
    if i > 0 && j > 0 {
      assert leq(b[0], b[i]) && leq(a[0], a[j]);
    }
  }

  lemma SameLength<T>(a: seq<T>, b: seq<T>)
    requires multiset(a) == multiset(b)
    ensures |a| == |b|
  {
    assert |a| == |multiset(a)| && |b| == |multiset(b)|;
  }

  // ---------------------------------------------------------------- stability

  function TiedWith<T(!new)>(leq: (T, T) -> bool, x: T): T -> bool {
    y => leq(x, y) && leq(y, x)
  }

  /** The elements that compare equal to any one of them are the same in both, in the same order. */
  ghost predicate TiesAgree<T(!new)>(a: seq<T>, b: seq<T>, leq: (T, T) -> bool) {
    forall x :: Filter(a, TiedWith(leq, x)) == Filter(b, TiedWith(leq, x))
  }

  lemma FilterSnoc<T(!new)>(s: seq<T>, x: T, keep: T -> bool)
    ensures Filter(s + [x], keep) == if keep(x) then Filter(s, keep) + [x] else Filter(s, keep)
  {
    FilterAppend(s, [x], keep);
    assert [x][1..] == [];
  }

  lemma {:induction false} InsertKeepsTies<T(!new)>(s: seq<T>, y: T, leq: (T, T) -> bool, x: T)
    requires TotalPreorder(leq)
    ensures Filter(Insert(s, y, leq), TiedWith(leq, x)) == Filter(s + [y], TiedWith(leq, x))
  {
    if s == [] {
      assert s + [y] == [y];
    } else if !leq(s[|s| - 1], y) {
      InsertKeepsTies(s[..|s| - 1], y, leq, x);
      InsertBefore(s[..|s| - 1], s[|s| - 1], y, Insert(s[..|s| - 1], y, leq), leq, x);
      assert s[..|s| - 1] + [s[|s| - 1]] == s;
    }
  }

  /** `y` may go before `last`, which it does not tie with. */
  lemma InsertBefore<T(!new)>(init: seq<T>, last: T, y: T, inserted: seq<T>, leq: (T, T) -> bool, x: T)
    requires TotalPreorder(leq) && !leq(last, y)
    requires Filter(inserted, TiedWith(leq, x)) == Filter(init + [y], TiedWith(leq, x))
    ensures Filter(inserted + [last], TiedWith(leq, x)) == Filter((init + [last]) + [y], TiedWith(leq, x))
  {
    var tied := TiedWith(leq, x);
    if tied(y) && tied(last) { Transitive(leq, last, x, y); }
    hide TotalPreorder, TiedWith, Filter;
    FilterSnoc(inserted, last, tied);
    FilterSnoc(init, y, tied);
    FilterSnoc(init + [last], y, tied);
    FilterSnoc(init, last, tied);
  }

  lemma FilterTail<T(!new)>(s: seq<T>, keep: T -> bool)
    requires s != []
    ensures Filter(s[1..], keep) == if keep(s[0]) then Filter(s, keep)[1..] else Filter(s, keep)
  {
  }

  lemma {:induction false} SortByKeepsTies<T(!new)>(s: seq<T>, leq: (T, T) -> bool, x: T)
    requires TotalPreorder(leq)
    ensures Filter(SortBy(s, leq), TiedWith(leq, x)) == Filter(s, TiedWith(leq, x))
  {
    hide TotalPreorder;
    if s != [] {
      var init, last := s[..|s| - 1], s[|s| - 1];
      SortByKeepsTies(init, leq, x);
      InsertKeepsTies(SortBy(init, leq), last, leq, x);
      FilterAppend(SortBy(init, leq), [last], TiedWith(leq, x));
      FilterAppend(init, [last], TiedWith(leq, x));
      assert init + [last] == s;
    }
  }

  lemma TiesShareElements<T(!new)>(s: seq<T>, t: seq<T>, leq: (T, T) -> bool, x: T)
    requires TotalPreorder(leq) && TiesAgree(s, t, leq) && x in s
    ensures x in t
  {
    assert TiedWith(leq, x)(x);
    assert Filter(s, TiedWith(leq, x)) == Filter(t, TiedWith(leq, x));
    assert x in Filter(s, TiedWith(leq, x));
  }

  lemma HeadIsLeast<T(!new)>(s: seq<T>, leq: (T, T) -> bool, x: T)
    requires TotalPreorder(leq) && Sorted(s, leq) && x in s
    ensures leq(s[0], x)
  {
    var i :| 0 <= i < |s| && s[i] == x;
    assert leq(s[0], s[0]);
  }

  lemma TiedHead<T(!new)>(s: seq<T>, t: seq<T>, leq: (T, T) -> bool)
    requires TotalPreorder(leq) && Sorted(s, leq) && Sorted(t, leq) && TiesAgree(s, t, leq) && s != []
    ensures t != [] && s[0] == t[0]
  {
    var tied := TiedWith(leq, s[0]);
    assert leq(s[0], s[0]) && Filter(s, tied) == Filter(t, tied);
    TiesShareElements(s, t, leq, s[0]);
    TiesShareElements(t, s, leq, t[0]);
    HeadIsLeast(t, leq, s[0]);
    HeadIsLeast(s, leq, t[0]);
    hide TiesAgree, Sorted, TotalPreorder;
    assert tied(s[0]) && tied(t[0]);
    assert Filter(s, tied)[0] == s[0] && Filter(t, tied)[0] == t[0];
  }

  lemma {:induction false} SortedByTies<T(!new)>(s: seq<T>, t: seq<T>, leq: (T, T) -> bool)
    requires TotalPreorder(leq) && Sorted(s, leq) && Sorted(t, leq) && TiesAgree(s, t, leq)
    ensures s == t
  {
    if s == [] {
      if t != [] { TiedHead(t, s, leq); }
    } else {
      TiedHead(s, t, leq);
      SortedTail(s, leq);
      SortedTail(t, leq);
      forall x ensures Filter(s[1..], TiedWith(leq, x)) == Filter(t[1..], TiedWith(leq, x)) {
        assert Filter(s, TiedWith(leq, x)) == Filter(t, TiedWith(leq, x));
        FilterTail(s, TiedWith(leq, x));
        FilterTail(t, TiedWith(leq, x));
      }
      SortedByTies(s[1..], t[1..], leq);
    }
  }

  /** A stable sort makes two sequences equal exactly when they agree on ties. */
  lemma StableSortsAgree<T(!new)>(a: seq<T>, b: seq<T>, leq: (T, T) -> bool)
    requires TotalPreorder(leq)
    ensures SortBy(a, leq) == SortBy(b, leq) <==> TiesAgree(a, b, leq)
  {
    var s, t := SortBy(a, leq), SortBy(b, leq);
    forall x
      ensures Filter(s, TiedWith(leq, x)) == Filter(a, TiedWith(leq, x))
      ensures Filter(t, TiedWith(leq, x)) == Filter(b, TiedWith(leq, x))
    {
      SortByKeepsTies(a, leq, x);
      SortByKeepsTies(b, leq, x);
    }
    if TiesAgree(a, b, leq) {
      SortBySorts(a, leq);
      SortBySorts(b, leq);
      SortedByTies(s, t, leq);
    }
  }
}
