/** Stable sorting by a strict order on keys. */
module Sorting {
  /** Asymmetric, and being not behind is transitive: the order of the keys the program sorts by. */
  ghost predicate IsKeyOrder<T(!new)>(before: (T, T) -> bool) {
    && (forall a, b :: before(a, b) ==> !before(b, a))
    && (forall a, b, c :: before(a, c) ==> before(a, b) || before(b, c))
  }

  ghost predicate InOrder<T>(s: seq<T>, before: (T, T) -> bool) {
    forall i, j :: 0 <= i < j < |s| ==> !before(s[j], s[i])
  }

  /** Places x behind everything it does not precede. */
  function Inserted<T>(s: seq<T>, x: T, before: (T, T) -> bool): seq<T> {
    if s == [] || before(x, s[0]) then [x] + s else [s[0]] + Inserted(s[1..], x, before)
  }

  function Sorted<T>(s: seq<T>, before: (T, T) -> bool): seq<T> {
    if s == [] then [] else Inserted(Sorted(s[..|s| - 1], before), s[|s| - 1], before)
  }

  lemma {:induction false} InsertedHas<T>(s: seq<T>, x: T, before: (T, T) -> bool)
    ensures |Inserted(s, x, before)| == |s| + 1 && multiset(Inserted(s, x, before)) == multiset(s) + multiset{x}
  {
    if s != [] && !before(x, s[0]) {
      InsertedHas(s[1..], x, before);
      assert s == [s[0]] + s[1..];
    }
  }

  lemma {:induction false} InsertedInOrder<T(!new)>(s: seq<T>, x: T, before: (T, T) -> bool)
    requires IsKeyOrder(before) && InOrder(s, before)
    ensures InOrder(Inserted(s, x, before), before)
  {
    if s != [] {
      if before(x, s[0]) {
        forall j | 0 <= j < |s| ensures !before(s[j], x) {
          assert j > 0 ==> !before(s[j], s[0]);
        }
      } else {
        var rest := Inserted(s[1..], x, before);
        InsertedInOrder(s[1..], x, before);
        InsertedHas(s[1..], x, before);
        forall j | 0 <= j < |rest| ensures !before(rest[j], s[0]) {
          assert rest[j] in multiset(rest);
          assert rest[j] == x || rest[j] in multiset(s[1..]);
        }
      }
    }
  }

  /** Sorting puts the same elements in order. */
  lemma {:induction false} SortedOf<T(!new)>(s: seq<T>, before: (T, T) -> bool)
    requires IsKeyOrder(before)
    ensures InOrder(Sorted(s, before), before)
    ensures |Sorted(s, before)| == |s| && multiset(Sorted(s, before)) == multiset(s)
  {
    if s != [] {
      var rest := s[..|s| - 1];
      SortedOf(rest, before);
      InsertedInOrder(Sorted(rest, before), s[|s| - 1], before);
      InsertedHas(Sorted(rest, before), s[|s| - 1], before);
      assert s == rest + [s[|s| - 1]];
    }
  }

  lemma SortedHas<T(!new)>(s: seq<T>, before: (T, T) -> bool, x: T)
    requires IsKeyOrder(before)
    ensures x in Sorted(s, before) <==> x in s
  {
    SortedOf(s, before);
    assert x in Sorted(s, before) <==> x in multiset(s);
  }

  function Filter<T>(s: seq<T>, p: T -> bool): seq<T> {
    if s == [] then [] else Filter(s[..|s| - 1], p) + if p(s[|s| - 1]) then [s[|s| - 1]] else []
  }

  lemma {:induction false} FilterCons<T>(x: T, s: seq<T>, p: T -> bool)
    ensures Filter([x] + s, p) == (if p(x) then [x] else []) + Filter(s, p)
  {
    if s == [] {
      assert [x] + s == [x];
    } else {
      assert ([x] + s)[..|s|] == [x] + s[..|s| - 1];
      FilterCons(x, s[..|s| - 1], p);
    }
  }

  lemma {:induction false} FilterNone<T>(s: seq<T>, p: T -> bool)
    requires forall y :: y in s ==> !p(y)
    ensures Filter(s, p) == []
  {
    if s != [] {
      assert s[|s| - 1] in s && forall y :: y in s[..|s| - 1] ==> y in s;
      FilterNone(s[..|s| - 1], p);
    }
  }

  /** None of the values the test picks out precedes another. */
  ghost predicate Ties<T(!new)>(before: (T, T) -> bool, p: T -> bool) {
    forall a, b :: p(a) && p(b) ==> !before(a, b)
  }

  lemma NoneTies<T(!new)>(s: seq<T>, x: T, before: (T, T) -> bool, p: T -> bool)
    requires IsKeyOrder(before) && InOrder(s, before) && Ties(before, p) && s != [] && before(x, s[0]) && p(x)
    ensures forall y :: y in s ==> !p(y)
  {
    forall y | y in s ensures before(x, y) {
      var k :| 0 <= k < |s| && s[k] == y;
      assert k > 0 ==> !before(s[k], s[0]);
    }
  }

  lemma {:induction false} InsertedKeepsTies<T(!new)>(s: seq<T>, x: T, before: (T, T) -> bool, p: T -> bool)
    requires IsKeyOrder(before) && InOrder(s, before) && Ties(before, p)
    ensures Filter(Inserted(s, x, before), p) == Filter(s, p) + if p(x) then [x] else []
  {
    if s == [] {
      assert [x] + [] == [x];
    } else if before(x, s[0]) {
      FilterCons(x, s, p);
      if p(x) {
        NoneTies(s, x, before, p);
        FilterNone(s, p);
      }
    } else {
      InsertedKeepsTies(s[1..], x, before, p);
      InsertedBehind(s, x, before, p);
    }
  }

  lemma InsertedBehind<T>(s: seq<T>, x: T, before: (T, T) -> bool, p: T -> bool)
    requires s != [] && !before(x, s[0])
    requires Filter(Inserted(s[1..], x, before), p) == Filter(s[1..], p) + if p(x) then [x] else []
    ensures Filter(Inserted(s, x, before), p) == Filter(s, p) + if p(x) then [x] else []
  {
    assert s == [s[0]] + s[1..];
    FilterCons(s[0], s[1..], p);
    FilterCons(s[0], Inserted(s[1..], x, before), p);
  }

  /** Sorting is stable: values that tie stay in the order in which they were given. */
  lemma {:induction false} SortedKeepsTies<T(!new)>(s: seq<T>, before: (T, T) -> bool, p: T -> bool)
    requires IsKeyOrder(before) && Ties(before, p)
    ensures Filter(Sorted(s, before), p) == Filter(s, p)
  {
    if s != [] {
      SortedOf(s[..|s| - 1], before);
      SortedKeepsTies(s[..|s| - 1], before, p);
      InsertedKeepsTies(Sorted(s[..|s| - 1], before), s[|s| - 1], before, p);
    }
  }

  lemma TwiceIn<T>(s: seq<T>, i: nat, j: nat)
    requires i < j < |s| && s[i] == s[j]
    ensures multiset(s)[s[i]] >= 2
  {
    assert s == s[..j] + s[j..];
    assert s[..j][i] == s[i] && s[j..][0] == s[j];
    assert multiset(s) == multiset(s[..j]) + multiset(s[j..]);
  }

  lemma {:induction false} OnceIn<T>(s: seq<T>, x: T)
    requires forall i, j :: 0 <= i < j < |s| ==> s[i] != s[j]
    ensures multiset(s)[x] <= 1
  {
    if s != [] {
      var rest := s[..|s| - 1];
      assert s == rest + [s[|s| - 1]];
      OnceIn(rest, x);
      assert x == s[|s| - 1] ==> x !in rest;
    }
  }
}
