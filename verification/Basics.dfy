/** Definitions shared by the other modules. */
module Basics {
  datatype Option<+T> = None | Some(value: T)

  datatype Result<+T, +E> = Ok(value: T) | Err(error: E)

  /** The two parts of a corpus: thresholds are fitted on one and judged on the other. */
  datatype Split = Calibration | Holdout

  function Max(a: nat, b: nat): nat {
    if a < b then b else a
  }

  predicate NoRepeats<T(==)>(values: seq<T>) {
    forall i, j :: 0 <= i < j < |values| ==> values[i] != values[j]
  }

  lemma {:induction false} SubsetSize<T>(a: set<T>, b: set<T>)
    requires a <= b
    ensures |a| <= |b|
  {
    if x :| x in a {
      SubsetSize(a - {x}, b - {x});
    }
  }

  /** First occurrences, in order. */
  function Distinct(values: seq<string>): seq<string> {
    if values == [] then []
    else
      var front := Distinct(values[..|values| - 1]);
      var last := values[|values| - 1];
      if last in front then front else front + [last]
  }

  lemma {:induction false} DistinctIsDistinct(values: seq<string>)
    ensures NoRepeats(Distinct(values))
    ensures forall v :: v in Distinct(values) <==> v in values
  {
    if values != [] {
      var front := values[..|values| - 1];
      DistinctIsDistinct(front);
      assert values == front + [values[|values| - 1]];
    }
  }

  /** Where a value occurs first. */
  function FirstOf(values: seq<string>, v: string): (k: nat)
    ensures k <= |values| && (k < |values| ==> values[k] == v) && v !in values[..k]
    ensures v in values ==> k < |values|
  {
    if values == [] || values[0] == v then 0 else FirstOf(values[1..], v) + 1
  }

  lemma {:induction false} FirstOfSnoc(front: seq<string>, last: string, v: string)
    ensures v in front ==> FirstOf(front + [last], v) == FirstOf(front, v)
    ensures v !in front ==> FirstOf(front + [last], v) >= |front|
  {
    if front != [] && front[0] != v {
      assert (front + [last])[1..] == front[1..] + [last];
      FirstOfSnoc(front[1..], last, v);
    }
  }

  /** The values stand in the order in which they occur first. */
  lemma {:induction false} DistinctKeepsOrder(values: seq<string>, i: nat, j: nat)
    requires i < j < |Distinct(values)|
    ensures FirstOf(values, Distinct(values)[i]) < FirstOf(values, Distinct(values)[j])
  {
    var front, last := values[..|values| - 1], values[|values| - 1];
    assert values == front + [last];
    DistinctIsDistinct(front);
    assert Distinct(front)[i] in Distinct(front);
    FirstOfSnoc(front, last, Distinct(values)[i]);
    FirstOfSnoc(front, last, Distinct(values)[j]);
    if j < |Distinct(front)| {
      assert Distinct(front)[j] in Distinct(front);
      DistinctKeepsOrder(front, i, j);
    }
  }

  lemma {:induction false} DistinctKeepsDistinct(values: seq<string>)
    requires NoRepeats(values)
    ensures Distinct(values) == values
  {
    if values != [] {
      var front := values[..|values| - 1];
      DistinctKeepsDistinct(front);
      assert values == front + [values[|values| - 1]];
    }
  }

  lemma SameValues(values: seq<string>)
    ensures Distinct(values) == [] <==> values == []
    ensures forall v :: v in Distinct(values) <==> v in values
  {
    DistinctIsDistinct(values);
    if values != [] {
      assert values[0] in Distinct(values);
    }
  }

  /** The order of text used for ties: by the first difference, a prefix before its extensions. */
  predicate TextLeq(a: string, b: string) {
    a == [] || (b != [] && (a[0] < b[0] || (a[0] == b[0] && TextLeq(a[1..], b[1..]))))
  }

  /** Said without recursion: a is a prefix of b, or smaller where they first differ. */
  lemma {:induction false} TextLeqIff(a: string, b: string)
    ensures TextLeq(a, b) <==> a <= b || exists k: nat :: k < |a| && k < |b| && a[..k] == b[..k] && a[k] < b[k]
  {
    if a != [] && b != [] && a[0] == b[0] {
      TextLeqIff(a[1..], b[1..]);
      assert a == [a[0]] + a[1..] && b == [b[0]] + b[1..];
      if k: nat :| k < |a[1..]| && k < |b[1..]| && a[1..][..k] == b[1..][..k] && a[1..][k] < b[1..][k] {
        assert a[..k + 1] == [a[0]] + a[1..][..k] && b[..k + 1] == [b[0]] + b[1..][..k];
        assert a[k + 1] < b[k + 1];
      }
      if k: nat :| k < |a| && k < |b| && a[..k] == b[..k] && a[k] < b[k] {
        assert k > 0;
        assert a[1..][..k - 1] == a[..k][1..] && b[1..][..k - 1] == b[..k][1..];
        assert a[1..][k - 1] < b[1..][k - 1];
      }
    } else if a != [] && b != [] && a[0] < b[0] {
      assert a[..0] == b[..0];
    } else if a != [] && b != [] {
      forall k: nat | 0 < k < |a| && k < |b| ensures a[..k] == b[..k] ==> a[0] == b[0] {
        assert a[..k][0] == a[0] && b[..k][0] == b[0];
      }
    }
  }

  lemma {:induction false} TextLeqIsTotal(a: string, b: string)
    ensures TextLeq(a, b) || TextLeq(b, a)
    ensures TextLeq(a, b) && TextLeq(b, a) ==> a == b
  {
    if a != [] && b != [] && a[0] == b[0] {
      TextLeqIsTotal(a[1..], b[1..]);
    }
  }

  lemma {:induction false} TextLeqIsTransitive(a: string, b: string, c: string)
    requires TextLeq(a, b) && TextLeq(b, c)
    ensures TextLeq(a, c)
  {
    if a != [] && b != [] && c != [] && a[0] == b[0] == c[0] {
      TextLeqIsTransitive(a[1..], b[1..], c[1..]);
    }
  }

  lemma {:induction false} TimesAscends(a: nat, b: nat, d: nat)
    requires a < b
    ensures a * d + d <= b * d
  {
    assert b * d == (b - 1) * d + d;
    if a + 1 < b {
      TimesAscends(a, b - 1, d);
    }
  }

  /** Quotient and remainder are unique. */
  lemma Division(n: nat, d: nat, q: nat, r: nat)
    requires n == q * d + r && r < d
    ensures n / d == q && n % d == r
  {
    var q', r' := n / d, n % d;
    assert n == q' * d + r';
    if q < q' {
      TimesAscends(q, q', d);
    } else if q' < q {
      TimesAscends(q', q, d);
    }
  }
}
