/** Small shared vocabulary: optional values, bytes, and arithmetic on quorums and sets. */
module Common {

  datatype Option<+T> = None | Some(value: T)

  newtype byte = x: int | 0 <= x < 256
  type Bytes = seq<byte>

  function Min(a: int, b: int): (r: int)
    ensures r <= a && r <= b && (r == a || r == b)
  {
    if a < b then a else b
  }

  function Max(a: int, b: int): (r: int)
    ensures r >= a && r >= b && (r == a || r == b)
  {
    if a > b then a else b
  }

  /** The number of nodes a decision of an `n`-node group needs. */
  function Majority(n: nat): nat { n / 2 + 1 }

  ghost predicate Quorum<T>(q: set<T>, all: set<T>) {
    q <= all && |q| >= Majority(|all|)
  }

  lemma SubsetSize<T>(a: set<T>, b: set<T>)
    requires a <= b
    ensures |a| <= |b|
  {
    assert b == a + (b - a);
  }

  /** Any two quorums of one group share a member. */
  lemma QuorumsMeet<T>(p: set<T>, q: set<T>, all: set<T>) returns (x: T)
    requires Quorum(p, all) && Quorum(q, all)
    ensures x in p && x in q
  {
    if p * q == {} {
      assert |p + q| == |p| + |q|;
      SubsetSize(p + q, all);
      assert false;
    }
    x :| x in p * q;
  }

  // ---- the greatest of a set of numbers --------------------------------------------

  function MaxKey(keys: set<nat>): (k: nat)
    requires keys != {}
    ensures k in keys && forall i :: i in keys ==> i <= k
  {
    MaxExists(keys);
    assert exists k :: k in keys && forall i :: i in keys ==> i <= k by {
      var k :| Greatest(keys, k);
    }
    var k :| k in keys && forall i :: i in keys ==> i <= k;
    k
  }

  ghost predicate Greatest(keys: set<nat>, k: nat) {
    k in keys && forall i :: i in keys ==> i <= k
  }

  lemma {:induction false} MaxExists(keys: set<nat>)
    requires keys != {}
    ensures exists k :: Greatest(keys, k)
  {
    var x :| x in keys;
    var rest := keys - {x};
    assert keys == rest + {x};
    if rest == {} {
      assert Greatest(keys, x);
    } else {
      MaxExists(rest);
      var k :| Greatest(rest, k);
      assert Greatest(keys, if k < x then x else k);
    }
  }
}
