/** Least elements, and sums over finite maps and over sequences. */
module Finite {

  lemma {:induction false} FindLeast(xs: set<nat>) returns (x: nat)
    requires xs != {}
    ensures x in xs && forall y :: y in xs ==> x <= y
    decreases |xs|
  {
    x :| x in xs;
    var rest := xs - {x};
    assert xs == rest + {x};
    if rest != {} {
      var z := FindLeast(rest);
      if z < x {
        x := z;
      }
    }
  }

  lemma LeastExists(xs: set<nat>)
    requires xs != {}
    ensures exists x :: x in xs && forall y :: y in xs ==> x <= y
  {
    var x := FindLeast(xs);
  }

  function Least(xs: set<nat>): (x: nat)
    requires xs != {}
    ensures x in xs && forall y :: y in xs ==> x <= y
  {
    LeastExists(xs);
    var x :| x in xs && forall y :: y in xs ==> x <= y;
    x
  }

  function Sum(m: map<nat, int>): int
    decreases |m|
  {
    if m == map[] then 0 else var k := Least(m.Keys); m[k] + Sum(m - {k})
  }

  /** The order in which the entries are added up does not matter. */
  lemma {:induction false} SumRemove(m: map<nat, int>, k: nat)
    requires k in m
    ensures Sum(m) == m[k] + Sum(m - {k})
    decreases |m|
  {
    var l := Least(m.Keys);
    if k != l {
      SumRemove(m - {l}, k);
      var rest := m - {k};
      assert l in rest && Least(rest.Keys) == l;
      assert rest - {l} == m - {l} - {k};
    }
  }

  lemma SumUpdate(m: map<nat, int>, k: nat, v: int)
    ensures Sum(m[k := v]) == Sum(m) - (if k in m then m[k] else 0) + v
  {
    SumRemove(m[k := v], k);
    assert m[k := v] - {k} == m - {k};
    if k in m {
      SumRemove(m, k);
    } else {
      assert m - {k} == m;
    }
  }

  lemma {:induction false} SumNonNeg(m: map<nat, int>)
    requires forall k :: k in m ==> m[k] >= 0
    ensures Sum(m) >= 0
    ensures forall k :: k in m ==> m[k] <= Sum(m)
    decreases |m|
  {
    if m != map[] {
      SumNonNeg(m - {Least(m.Keys)});
      forall k | k in m ensures m[k] <= Sum(m) {
        SumRemove(m, k);
        SumNonNeg(m - {k});
      }
    }
  }

  function SumBy<T>(xs: seq<T>, f: T -> int): int {
    if xs == [] then 0 else f(xs[0]) + SumBy(xs[1..], f)
  }

  predicate NoRepeats<T(==)>(xs: seq<T>) {
    forall i, j :: 0 <= i < j < |xs| ==> xs[i] != xs[j]
  }

  lemma {:induction false} SumByConcat<T>(a: seq<T>, b: seq<T>, f: T -> int)
    ensures SumBy(a + b, f) == SumBy(a, f) + SumBy(b, f)
  {
    if a == [] {
      assert a + b == b;
    } else {
      assert (a + b)[1..] == a[1..] + b;
      SumByConcat(a[1..], b, f);
    }
  }

  lemma {:induction false} SumByNonNeg<T>(xs: seq<T>, f: T -> int)
    requires forall x :: x in xs ==> f(x) >= 0
    ensures SumBy(xs, f) >= 0
  {
    if xs != [] {
      SumByNonNeg(xs[1..], f);
    }
  }

  lemma SumByOne<T>(x: T, f: T -> int)
    ensures SumBy([x], f) == f(x)
  {
    assert [x][1..] == [];
  }

  lemma SumByFirst<T>(x: T, xs: seq<T>, f: T -> int)
    ensures SumBy([x] + xs, f) == f(x) + SumBy(xs, f)
  {
    assert ([x] + xs)[1..] == xs;
  }

  /** Two listings of the same elements, each listed once, have the same sum. */
  lemma {:induction false} SameSum<T>(a: seq<T>, b: seq<T>, f: T -> int)
    requires NoRepeats(a) && NoRepeats(b)
    requires forall x :: x in a <==> x in b
    ensures SumBy(a, f) == SumBy(b, f)
    decreases |a|
  {
    if a == [] {
      assert forall i :: 0 <= i < |b| ==> b[i] in a;
    } else {
      assert a[0] in b;
      var j :| 0 <= j < |b| && b[j] == a[0];
      var rest := b[..j] + b[j + 1..];
      forall x ensures x in a[1..] <==> x in rest {
        assert x in a[1..] <==> x in a && x != a[0];
        assert x in rest <==> x in b && x != b[j];
      }
      SameSum(a[1..], rest, f);
      SumByConcat(b[..j], b[j + 1..], f);
      SumByConcat(b[..j], b[j..], f);
      assert b == b[..j] + b[j..] && b[j..][1..] == b[j + 1..];
    }
  }
}
