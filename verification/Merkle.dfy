/** Binary hash trees padded with zero leaves, and the recomputation of a root from a path. */
module Merkle {
  import opened Bytes
  import opened Hashing

  function Pow2(k: nat): (p: nat)
    ensures p > 0
  {
    if k == 0 then 1 else 2 * Pow2(k - 1)
  }

  /** The root of a subtree of height k without leaves. */
  function ZeroHash(h: Hash, k: nat): Digest {
    if k == 0 then ZERO32 else TwoToOne(h, ZeroHash(h, k - 1), ZeroHash(h, k - 1))
  }

  /** The node at position p of level k over the leaves, absent leaves being zero. */
  function NodeAt(h: Hash, leaves: seq<Digest>, k: nat, p: nat): Digest
    decreases k
  {
    if k == 0 then if p < |leaves| then leaves[p] else ZERO32
    else TwoToOne(h, NodeAt(h, leaves, k - 1, 2 * p), NodeAt(h, leaves, k - 1, 2 * p + 1))
  }

  function Combine(h: Hash, value: Digest, index: nat, sibling: Digest): Digest {
    if index % 2 == 0 then TwoToOne(h, value, sibling) else TwoToOne(h, sibling, value)
  }

  /** The root that a value at `index` and the siblings on its way up give. */
  function RootFrom(h: Hash, value: Digest, index: nat, siblings: seq<Digest>): Digest
    decreases |siblings|
  {
    if |siblings| == 0 then value else RootFrom(h, Combine(h, value, index, siblings[0]), index / 2, siblings[1..])
  }

  datatype Outcome = Root(value: Digest) | Panic

  /** A right shift by k bits. */
  function Shift(x: nat, k: nat): nat
    decreases k
  {
    if k == 0 then x else Shift(x / 2, k - 1)
  }

  lemma {:induction false} ShiftOnce(x: nat, k: nat)
    ensures Shift(x, k + 1) == Shift(x, k) / 2
    decreases k
  {
    if k > 0 {
      ShiftOnce(x / 2, k - 1);
    }
  }

  /** All bits are shifted out exactly if the number is below the power of two. */
  lemma {:induction false} ShiftedOutIff(x: nat, k: nat)
    ensures Shift(x, k) == 0 <==> x < Pow2(k)
    decreases k
  {
    if k > 0 {
      ShiftedOutIff(x / 2, k - 1);
    }
  }

  /** The recomputation loop; it aborts on more than 64 siblings and on an index too large for them. */
  method ComputeMerkleRoot(h: Hash, value: Digest, index: u64, siblings: seq<Digest>) returns (r: Outcome)
    ensures r == if |siblings| <= 64 && index < Pow2(|siblings|) then Root(RootFrom(h, value, index, siblings))
            else Panic
  {
    if |siblings| > 64 {
      return Panic;
    }
    var currentHash := value;
    var idx: nat := index;
    for i := 0 to |siblings|
      invariant RootFrom(h, value, index, siblings) == RootFrom(h, currentHash, idx, siblings[i..])
      invariant idx == Shift(index, i)
    {
      currentHash := Combine(h, currentHash, idx, siblings[i]);
      assert siblings[i..][1..] == siblings[i + 1..];
      ShiftOnce(index, i);
      idx := idx / 2;
    }
    ShiftedOutIff(index, |siblings|);
    if idx != 0 {
      return Panic;
    }
    return Root(currentHash);
  }

  // ---- A path recomputes the root ----

  function Sibling(i: nat): nat {
    if i % 2 == 0 then i + 1 else i - 1
  }

  /** The siblings of node i of level k on the way up to level top. */
  function PathOf(h: Hash, leaves: seq<Digest>, k: nat, top: nat, i: nat): (s: seq<Digest>)
    requires k <= top
    ensures |s| == top - k
    decreases top - k
  {
    if k == top then [] else [NodeAt(h, leaves, k, Sibling(i))] + PathOf(h, leaves, k + 1, top, i / 2)
  }

  lemma ParentNode(h: Hash, leaves: seq<Digest>, k: nat, i: nat)
    ensures Combine(h, NodeAt(h, leaves, k, i), i, NodeAt(h, leaves, k, Sibling(i))) == NodeAt(h, leaves, k + 1, i / 2)
  {
    assert i % 2 == 0 ==> 2 * (i / 2) == i;
    assert i % 2 == 1 ==> 2 * (i / 2) + 1 == i;
  }

  lemma {:induction false} PathRecomputesFrom(h: Hash, leaves: seq<Digest>, k: nat, top: nat, i: nat)
    requires k <= top
    ensures RootFrom(h, NodeAt(h, leaves, k, i), i, PathOf(h, leaves, k, top, i))
            == NodeAt(h, leaves, top, Shift(i, top - k))
    decreases top - k
  {
    if k < top {
      ParentNode(h, leaves, k, i);
      PathRecomputesFrom(h, leaves, k + 1, top, i / 2);
      assert PathOf(h, leaves, k, top, i)[1..] == PathOf(h, leaves, k + 1, top, i / 2);
    }
  }

  /** In the tree of any height over any leaves, the path of position i recomputes the root. */
  lemma PathRecomputesRoot(h: Hash, leaves: seq<Digest>, height: nat, i: nat)
    requires i < Pow2(height)
    ensures RootFrom(h, NodeAt(h, leaves, 0, i), i, PathOf(h, leaves, 0, height, i)) == NodeAt(h, leaves, height, 0)
  {
    ShiftedOutIff(i, height);
    PathRecomputesFrom(h, leaves, 0, height, i);
  }

  // ---- A root binds the path ----

  /** The messages hashed on the way up. */
  function HashedOnPath(h: Hash, value: Digest, index: nat, siblings: seq<Digest>): set<Bytes>
    decreases |siblings|
  {
    if |siblings| == 0 then {}
    else
      var message: Bytes := if index % 2 == 0 then value + siblings[0] else siblings[0] + value;
      {message} + HashedOnPath(h, Combine(h, value, index, siblings[0]), index / 2, siblings[1..])
  }

  lemma CollisionFreeSubset(h: Hash, s: set<Bytes>, t: set<Bytes>)
    requires CollisionFree(h, t) && s <= t
    ensures CollisionFree(h, s)
  {
  }

  /**
   Two paths of one index and length with the same root carry the same value and siblings, unless
   hashed messages collide.
   */
  lemma {:induction false} RootBindsPath(h: Hash, index: nat, v: Digest, s: seq<Digest>, w: Digest, t: seq<Digest>)
    requires |s| == |t| && RootFrom(h, v, index, s) == RootFrom(h, w, index, t)
    requires CollisionFree(h, HashedOnPath(h, v, index, s) + HashedOnPath(h, w, index, t))
    ensures v == w && s == t
    decreases |s|
  {
    if |s| > 0 {
      var v', w' := Combine(h, v, index, s[0]), Combine(h, w, index, t[0]);
      var all := HashedOnPath(h, v, index, s) + HashedOnPath(h, w, index, t);
      CollisionFreeSubset(h, HashedOnPath(h, v', index / 2, s[1..]) + HashedOnPath(h, w', index / 2, t[1..]), all);
      RootBindsPath(h, index / 2, v', s[1..], w', t[1..]);
      SameChildren(h, index, v, s[0], w, t[0], all);
      assert s == [s[0]] + s[1..] && t == [t[0]] + t[1..];
    }
  }

  lemma SameChildren(h: Hash, index: nat, v: Digest, a: Digest, w: Digest, b: Digest, all: set<Bytes>)
    requires CollisionFree(h, all) && Combine(h, v, index, a) == Combine(h, w, index, b)
    requires index % 2 == 0 ==> v + a in all && w + b in all
    requires index % 2 == 1 ==> a + v in all && b + w in all
    ensures v == w && a == b
  {
    if index % 2 == 0 {
      SplitUniquely(v, a, w, b);
    } else {
      SplitUniquely(a, v, b, w);
    }
  }
}
