/** Node names and the finite-set arithmetic used by every quorum argument. */
module Names {
  /** A node name, folded to lower case and identified with its rank in the order `sorted()` uses. */
  type Name = nat

  datatype Option<+T> = None | Some(value: T)

  function Min(a: int, b: int): int {
    if a <= b then a else b
  }

  function Max(a: int, b: int): int {
    if a >= b then a else b
  }

  lemma {:induction false} SubsetCard<T>(a: set<T>, b: set<T>)
    requires a <= b
    ensures |a| <= |b|
    ensures |a| == |b| ==> a == b
  {
    assert a + (b - a) == b;
  }

  lemma SubsetForms<T>(a: set<T>, b: set<T>)
    ensures a - b == {} <==> a <= b
    ensures a * b == a <==> a <= b
    ensures b * a == a <==> a <= b
  {
    if a - b == {} {
      forall x | x in a
        ensures x in b
      {
        assert x !in a - b;
      }
    }
    if a * b == a || b * a == a {
      forall x | x in a
        ensures x in b
      {
        assert x in a * b && x in b * a;
      }
    }
  }

  lemma DiffCard<T>(a: set<T>, b: set<T>)
    requires a <= b
    ensures |b - a| == |b| - |a|
  {
    assert b * a == a;
  }

  lemma DisjointCard<T>(a: set<T>, b: set<T>)
    requires a * b == {}
    ensures |a + b| == |a| + |b|
  {}

  /** The cardinality laws for a pair of sets, gathered in one place. */
  lemma PairCard<T>(a: set<T>, b: set<T>)
    ensures |a + b| == |a| + |b| - |a * b|
    ensures |a - b| == |a| - |a * b|
    ensures |a + b| == |b| + |a - b|
    ensures |a| <= |a + b| && |b| <= |a + b|
    ensures a <= b ==> |a| <= |b| && |b - a| == |b| - |a| && a + b == b && b + a == b
    ensures a < b ==> |a| < |b|
  {
    SubsetCard(a, a + b);
    SubsetCard(b, a + b);
    if a <= b {
      SubsetCard(a, b);
      assert a + b == b;
      assert b * a == a;
    }
  }

  /** Two subsets of a common set that are together larger than it share an element. */
  lemma Pigeonhole<T>(a: set<T>, b: set<T>, all: set<T>)
    requires a <= all && b <= all
    requires |a| + |b| > |all|
    ensures a * b != {}
  {
    SubsetCard(a + b, all);
  }

  /** A subset of every size exists. */
  lemma {:induction false} SubsetOfSize<T>(s: set<T>, k: nat) returns (t: set<T>)
    requires k <= |s|
    ensures t <= s && |t| == k
  {
    if k == 0 {
      t := {};
    } else {
      var x :| x in s;
      t := SubsetOfSize(s - {x}, k - 1);
      t := t + {x};
    }
  }

  lemma {:induction false} FindLeast(s: set<Name>) returns (m: Name)
    requires s != {}
    ensures m in s && forall x :: x in s ==> m <= x
    decreases |s|
  {
    var y :| y in s;
    if s == {y} {
      m := y;
    } else {
      assert s - {y} != {};
      var r := FindLeast(s - {y});
      m := if r < y then r else y;
      forall x | x in s
        ensures m <= x
      {
        assert x == y || x in s - {y};
      }
    }
  }

  lemma {:induction false} FindGreatest(s: set<Name>) returns (m: Name)
    requires s != {}
    ensures m in s && forall x :: x in s ==> x <= m
    decreases |s|
  {
    var y :| y in s;
    if s == {y} {
      m := y;
    } else {
      assert s - {y} != {};
      var r := FindGreatest(s - {y});
      m := if r > y then r else y;
      forall x | x in s
        ensures x <= m
      {
        assert x == y || x in s - {y};
      }
    }
  }

  function Least(s: set<Name>): (m: Name)
    requires s != {}
    ensures m in s && forall x :: x in s ==> m <= x
  {
    assert exists m :: m in s && forall x :: x in s ==> m <= x by {
      var m := FindLeast(s);
    }
    var m :| m in s && forall x :: x in s ==> m <= x;
    m
  }

  function Last(s: set<Name>): (m: Name)
    requires s != {}
    ensures m in s && forall x :: x in s ==> x <= m
  {
    assert exists m :: m in s && forall x :: x in s ==> x <= m by {
      var m := FindGreatest(s);
    }
    var m :| m in s && forall x :: x in s ==> x <= m;
    m
  }

  /** `sorted(s)[:k]`: the k smallest names, or all of them when there are fewer. */
  function Smallest(s: set<Name>, k: nat): (r: set<Name>)
    ensures r <= s && |r| == Min(k, |s|)
    decreases k
  {
    if k == 0 || s == {} then {}
    else
      var m := Least(s);
      {m} + Smallest(s - {m}, k - 1)
  }

  /** `sorted(s, reverse=True)[:k]`: the k greatest names, or all of them when there are fewer. */
  function Greatest(s: set<Name>, k: nat): (r: set<Name>)
    ensures r <= s && |r| == Min(k, |s|)
    decreases k
  {
    if k == 0 || s == {} then {}
    else
      var m := Last(s);
      {m} + Greatest(s - {m}, k - 1)
  }

  /** Every kept name sorts before every name left out. */
  lemma {:induction false} SmallestSorted(s: set<Name>, k: nat)
    ensures forall x, y :: x in Smallest(s, k) && y in s && y !in Smallest(s, k) ==> x < y
    decreases k
  {
    if k > 0 && s != {} {
      SmallestSorted(s - {Least(s)}, k - 1);
    }
  }

  /** Every kept name sorts after every name left out. */
  lemma {:induction false} GreatestSorted(s: set<Name>, k: nat)
    ensures forall x, y :: x in Greatest(s, k) && y in s && y !in Greatest(s, k) ==> y < x
    decreases k
  {
    if k > 0 && s != {} {
      GreatestSorted(s - {Last(s)}, k - 1);
    }
  }
}
