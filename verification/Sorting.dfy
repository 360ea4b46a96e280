/** Sorting by a strict order, and why the result does not depend on the order of the input. */
module Sorting {

  ghost predicate StrictOrder<T(!new)>(lt: (T, T) -> bool) {
    && (forall a :: !lt(a, a))
    && (forall a, b, c :: lt(a, b) && lt(b, c) ==> lt(a, c))
  }

  /** Any two different elements of `s` are comparable. */
  ghost predicate TotalOn<T(!new)>(lt: (T, T) -> bool, s: multiset<T>) {
    forall a, b :: a in s && b in s && a != b ==> lt(a, b) || lt(b, a)
  }

  ghost predicate Ascending<T(!new)>(lt: (T, T) -> bool, s: seq<T>) {
    forall i, j :: 0 <= i < j < |s| ==> lt(s[i], s[j]) || s[i] == s[j]
  }

  function Insert<T(!new)>(x: T, s: seq<T>, lt: (T, T) -> bool): (r: seq<T>)
    ensures multiset(r) == multiset(s) + multiset{x}
  {
    if s == [] then [x]
    else if lt(s[0], x) then
      assert s == [s[0]] + s[1..];
      [s[0]] + Insert(x, s[1..], lt)
    else [x] + s
  }

  function Sort<T(!new)>(s: seq<T>, lt: (T, T) -> bool): (r: seq<T>)
    ensures multiset(r) == multiset(s)
  {
    if s == [] then [] else
      assert s == [s[0]] + s[1..];
      Insert(s[0], Sort(s[1..], lt), lt)
  }

  lemma SameElements<T>(s: seq<T>, t: seq<T>, x: T)
    requires multiset(s) == multiset(t)
    ensures x in s <==> x in t
  {
    assert x in s <==> x in multiset(s);
  }

  /** `x` comes no later than any element of `s`. */
  ghost predicate First<T(!new)>(lt: (T, T) -> bool, x: T, s: seq<T>) {
    forall y :: y in s ==> lt(x, y) || x == y
  }

  lemma AscendingCons<T(!new)>(x: T, s: seq<T>, lt: (T, T) -> bool)
    ensures Ascending(lt, [x] + s) <==> First(lt, x, s) && Ascending(lt, s)
  {
    var r := [x] + s;
    assert forall i :: 0 <= i < |s| ==> r[i + 1] == s[i];
    if Ascending(lt, r) {
      forall i, j | 0 <= i < j < |s| ensures lt(s[i], s[j]) || s[i] == s[j] {
        assert lt(r[i + 1], r[j + 1]) || r[i + 1] == r[j + 1];
      }
      forall y | y in s ensures lt(x, y) || x == y {
        var k :| 0 <= k < |s| && s[k] == y;
        assert lt(r[0], r[k + 1]) || r[0] == r[k + 1];
      }
    }
  }

  lemma FirstOfInserted<T(!new)>(a: T, x: T, s: seq<T>, lt: (T, T) -> bool)
    requires First(lt, a, s) && lt(a, x)
    ensures First(lt, a, Insert(x, s, lt))
  {
    forall y | y in Insert(x, s, lt) ensures lt(a, y) || a == y {
      assert y in multiset(Insert(x, s, lt));
      assert y == x || y in s;
    }
  }

  lemma FirstByTransitivity<T(!new)>(x: T, a: T, s: seq<T>, lt: (T, T) -> bool)
    requires StrictOrder(lt) && First(lt, a, s) && (lt(x, a) || x == a)
    ensures First(lt, x, [a] + s)
  {
    forall y | y in [a] + s ensures lt(x, y) || x == y {
      assert y == a || y in s;
    }
  }

  lemma {:induction false} InsertAscends<T(!new)>(x: T, s: seq<T>, lt: (T, T) -> bool)
    requires StrictOrder(lt) && Ascending(lt, s)
    requires forall y :: y in s && y != x ==> lt(x, y) || lt(y, x)
    ensures Ascending(lt, Insert(x, s, lt))
    decreases |s|
  {
    hide StrictOrder, Ascending, First;
    if s != [] {
      var a, rest := s[0], s[1..];
      assert s == [a] + rest;
      AscendingCons(a, rest, lt);
      if lt(a, x) {
        InsertAscends(x, rest, lt);
        FirstOfInserted(a, x, rest, lt);
        AscendingCons(a, Insert(x, rest, lt), lt);
      } else {
        FirstByTransitivity(x, a, rest, lt);
        AscendingCons(x, s, lt);
      }
    } else {
      assert Ascending(lt, [x]) by { AscendingOne(x, lt); }
    }
  }

  lemma AscendingOne<T(!new)>(x: T, lt: (T, T) -> bool)
    ensures Ascending(lt, []) && Ascending(lt, [x])
  {
  }

  lemma {:induction false} SortAscends<T(!new)>(s: seq<T>, lt: (T, T) -> bool)
    requires StrictOrder(lt) && TotalOn(lt, multiset(s))
    ensures Ascending(lt, Sort(s, lt))
    decreases |s|
  {
    if s != [] {
      assert s == [s[0]] + s[1..];
      SortAscends(s[1..], lt);
      var rest := Sort(s[1..], lt);
      forall y | y in rest && y != s[0] ensures lt(s[0], y) || lt(y, s[0]) {
        assert y in multiset(rest) && y in multiset(s) && s[0] in multiset(s);
      }
      InsertAscends(s[0], rest, lt);
    }
  }

  /** There is only one ascending arrangement of the same elements. */
  lemma {:induction false} AscendingUnique<T(!new)>(s: seq<T>, t: seq<T>, lt: (T, T) -> bool)
    requires StrictOrder(lt) && Ascending(lt, s) && Ascending(lt, t) && multiset(s) == multiset(t)
    ensures s == t
    decreases |s|
  {
    hide StrictOrder, Ascending;
    assert |s| == |multiset(s)| == |multiset(t)| == |t|;
    if s != [] {
      SameFirst(s, t, lt);
      AscendingTail(s, lt);
      AscendingTail(t, lt);
      assert s == [s[0]] + s[1..] && t == [t[0]] + t[1..];
      AscendingUnique(s[1..], t[1..], lt);
    }
  }

  lemma SameFirst<T(!new)>(s: seq<T>, t: seq<T>, lt: (T, T) -> bool)
    requires StrictOrder(lt) && Ascending(lt, s) && Ascending(lt, t) && multiset(s) == multiset(t) && s != [] && t != []
    ensures s[0] == t[0]
  {
    SameElements(s, t, s[0]);
    SameElements(s, t, t[0]);
    assert s[0] in t && t[0] in s;
  }

  lemma AscendingTail<T(!new)>(s: seq<T>, lt: (T, T) -> bool)
    requires s != [] && Ascending(lt, s)
    ensures Ascending(lt, s[1..]) && multiset(s[1..]) == multiset(s) - multiset{s[0]}
  {
    assert s == [s[0]] + s[1..];
  }

  /** Sorting forgets the order of its input. */
  lemma SortForgetsOrder<T(!new)>(s: seq<T>, t: seq<T>, lt: (T, T) -> bool)
    requires StrictOrder(lt) && TotalOn(lt, multiset(s)) && multiset(s) == multiset(t)
    ensures Sort(s, lt) == Sort(t, lt)
  {
    SortAscends(s, lt);
    SortAscends(t, lt);
    AscendingUnique(Sort(s, lt), Sort(t, lt), lt);
  }

  function Filter<T(!new)>(s: seq<T>, p: T -> bool): (r: seq<T>)
    ensures forall x :: x in r <==> x in s && p(x)
  {
    if s == [] then []
    else if p(s[0]) then [s[0]] + Filter(s[1..], p)
    else Filter(s[1..], p)
  }

  lemma {:induction false} FilterCounts<T(!new)>(s: seq<T>, p: T -> bool, x: T)
    ensures multiset(Filter(s, p))[x] == if p(x) then multiset(s)[x] else 0
    decreases |s|
  {
    if s != [] {
      assert s == [s[0]] + s[1..];
      FilterCounts(s[1..], p, x);
    }
  }

  lemma FilterForgetsOrder<T(!new)>(s: seq<T>, t: seq<T>, p: T -> bool)
    requires multiset(s) == multiset(t)
    ensures multiset(Filter(s, p)) == multiset(Filter(t, p))
  {
    forall x ensures multiset(Filter(s, p))[x] == multiset(Filter(t, p))[x] {
      FilterCounts(s, p, x);
      FilterCounts(t, p, x);
    }
  }
}
