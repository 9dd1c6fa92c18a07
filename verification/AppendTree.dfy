/** The append-only tree that keeps one sibling per level instead of its leaves. */
module AppendTree {
  import opened Bytes
  import opened Hashing
  import opened Merkle

  const MAX_HEIGHT: nat := 32

  // ---- Nodes of a growing list of leaves ----

  lemma Doubled(p: nat, w: nat)
    ensures 2 * p * w == p * (2 * w) && (2 * p + 1) * w == p * (2 * w) + w && (p + 1) * (2 * w) == p * (2 * w) + 2 * w
  {
  }

  /** A node that starts past the last leaf is empty. */
  lemma {:induction false} EmptyNode(h: Hash, leaves: seq<Digest>, k: nat, p: nat)
    requires |leaves| <= p * Pow2(k)
    ensures NodeAt(h, leaves, k, p) == ZeroHash(h, k)
    decreases k
  {
    if k > 0 {
      Doubled(p, Pow2(k - 1));
      EmptyNode(h, leaves, k - 1, 2 * p);
      EmptyNode(h, leaves, k - 1, 2 * p + 1);
    }
  }

  /** A node whose leaves are all present in a prefix is the same over the prefix. */
  lemma {:induction false} FullNode(h: Hash, leaves: seq<Digest>, longer: seq<Digest>, k: nat, p: nat)
    requires leaves <= longer && p * Pow2(k) + Pow2(k) <= |leaves|
    ensures NodeAt(h, longer, k, p) == NodeAt(h, leaves, k, p)
    decreases k
  {
    if k > 0 {
      Doubled(p, Pow2(k - 1));
      FullNode(h, leaves, longer, k - 1, 2 * p);
      FullNode(h, leaves, longer, k - 1, 2 * p + 1);
    }
  }

  /** What Shift cuts off is less than the power of two. */
  lemma {:induction false} ShiftBounds(x: nat, k: nat)
    ensures Shift(x, k) * Pow2(k) <= x < Shift(x, k) * Pow2(k) + Pow2(k)
    decreases k
  {
    if k > 0 {
      ShiftBounds(x / 2, k - 1);
      Scale(Shift(x, k), Pow2(k - 1), x);
    }
  }

  lemma Scale(s: nat, w: nat, x: nat)
    requires s * w <= x / 2 < s * w + w
    ensures s * (2 * w) <= x < s * (2 * w) + 2 * w
  {
    var t := s * w;
    assert s * (2 * w) == 2 * t;
  }

  // ---- The stored siblings ----

  /** What level j stores for the next leaf: the full left neighbour, or nothing. */
  function Slot(h: Hash, leaves: seq<Digest>, j: nat): Digest {
    var p := Shift(|leaves|, j);
    if p % 2 == 1 then NodeAt(h, leaves, j, p - 1) else ZeroHash(h, j)
  }

  function Slots(h: Hash, leaves: seq<Digest>, k: nat): (s: seq<Digest>)
    ensures |s| == k
    ensures forall j :: 0 <= j < k ==> s[j] == Slot(h, leaves, j)
  {
    seq(k, j requires 0 <= j < k => Slot(h, leaves, j))
  }

  /** The slot is the sibling on the path of the next free position. */
  lemma SlotIsSibling(h: Hash, leaves: seq<Digest>, j: nat)
    ensures Slot(h, leaves, j) == NodeAt(h, leaves, j, Sibling(Shift(|leaves|, j)))
  {
    var p := Shift(|leaves|, j);
    ShiftBounds(|leaves|, j);
    if p % 2 == 0 {
      Doubled(p, Pow2(j));
      assert (p + 1) * Pow2(j) == p * Pow2(j) + Pow2(j);
      EmptyNode(h, leaves, j, p + 1);
    }
  }

  lemma {:induction false} SlotsArePathFrom(h: Hash, leaves: seq<Digest>, k: nat, height: nat)
    requires k <= height
    ensures PathOf(h, leaves, k, height, Shift(|leaves|, k)) == Slots(h, leaves, height)[k..]
    decreases height - k
  {
    if k < height {
      SlotIsSibling(h, leaves, k);
      ShiftOnce(|leaves|, k);
      SlotsArePathFrom(h, leaves, k + 1, height);
    }
  }

  /** The stored siblings are the path of the next free position, so they give the root. */
  lemma SlotsGiveRoot(h: Hash, leaves: seq<Digest>, height: nat)
    requires |leaves| < Pow2(height)
    ensures RootFrom(h, ZERO32, |leaves|, Slots(h, leaves, height)) == NodeAt(h, leaves, height, 0)
  {
    SlotsArePathFrom(h, leaves, 0, height);
    PathRecomputesRoot(h, leaves, height, |leaves|);
    assert Slots(h, leaves, height)[0..] == Slots(h, leaves, height);
  }

  // ---- One level of an append ----

  /** What one level of the update loop stores, and the node it hands up. */
  function StoreAt(h: Hash, stored: Digest, current: Digest, index: nat, changed: bool, i: nat): Digest {
    if !changed then stored else if index % 2 == 0 then current else ZeroHash(h, i)
  }

  function CarryUp(h: Hash, stored: Digest, current: Digest, index: nat, i: nat): Digest {
    if index % 2 == 0 then TwoToOne(h, current, ZeroHash(h, i)) else TwoToOne(h, stored, current)
  }

  lemma CarryIsParent(h: Hash, leaves: seq<Digest>, v: Digest, i: nat)
    ensures var n, more := |leaves|, leaves + [v];
            CarryUp(h, Slot(h, leaves, i), NodeAt(h, more, i, Shift(n, i)), Shift(n, i), i)
                == NodeAt(h, more, i + 1, Shift(n, i + 1))
  {
    var n, more, p := |leaves|, leaves + [v], Shift(|leaves|, i);
    ShiftBounds(n, i);
    ShiftOnce(n, i);
    if p % 2 == 0 {
      assert (p + 1) * Pow2(i) == p * Pow2(i) + Pow2(i);
      EmptyNode(h, more, i, p + 1);
    } else {
      assert (p - 1) * Pow2(i) + Pow2(i) == p * Pow2(i);
      FullNode(h, leaves, more, i, p - 1);
    }
  }

  /** Counting up by one moves a shifted number by at most one. */
  lemma {:induction false} ShiftNext(n: nat, i: nat)
    ensures Shift(n + 1, i) == Shift(n, i) || Shift(n + 1, i) == Shift(n, i) + 1
    decreases i
  {
    if i > 0 && (n + 1) / 2 != n / 2 {
      ShiftNext(n / 2, i - 1);
    }
  }

  lemma {:induction false} StoreIsSlot(h: Hash, leaves: seq<Digest>, v: Digest, i: nat)
    ensures var n, more := |leaves|, leaves + [v];
            StoreAt(h, Slot(h, leaves, i), NodeAt(h, more, i, Shift(n, i)), Shift(n, i),
                Shift(n, i) % 2 != Shift(n + 1, i) % 2, i) == Slot(h, more, i)
  {
    var n, more, p := |leaves|, leaves + [v], Shift(|leaves|, i);
    ShiftNext(n, i);
    ShiftBounds(n, i);
    if Shift(n + 1, i) == p && p % 2 == 1 {
      assert (p - 1) * Pow2(i) + Pow2(i) == p * Pow2(i);
      FullNode(h, leaves, more, i, p - 1);
    }
  }

  /** One level of the update loop keeps the invariants of the loop. */
  lemma LevelStep(h: Hash, leaves: seq<Digest>, v: Digest, i: nat, stored: Digest, current: Digest, index: nat,
          after: nat)
    requires index == Shift(|leaves|, i) && after == Shift(|leaves| + 1, i)
    requires stored == Slot(h, leaves, i) && current == NodeAt(h, leaves + [v], i, index)
    ensures index / 2 == Shift(|leaves|, i + 1) && after / 2 == Shift(|leaves| + 1, i + 1)
    ensures CarryUp(h, stored, current, index, i) == NodeAt(h, leaves + [v], i + 1, index / 2)
    ensures StoreAt(h, stored, current, index, index % 2 != after % 2, i) == Slot(h, leaves + [v], i)
  {
    CarryIsParent(h, leaves, v, i);
    StoreIsSlot(h, leaves, v, i);
    ShiftOnce(|leaves|, i);
    ShiftOnce(|leaves| + 1, i);
  }

  /** The update loop: it writes only the levels whose stored sibling changes and returns the top node. */
  method UpdateSiblings(h: Hash, siblings: array<Digest>, value: Digest, nextIndex: u64, ghost leaves: seq<Digest>)
    returns (root: Digest)
    requires nextIndex == |leaves| && siblings[..] == Slots(h, leaves, siblings.Length)
    modifies siblings
    ensures siblings[..] == Slots(h, leaves + [value], siblings.Length)
    ensures root == NodeAt(h, leaves + [value], siblings.Length, Shift(|leaves|, siblings.Length))
  {
    ghost var more, n := leaves + [value], |leaves|;
    var current := value;
    var index: nat, after: nat := nextIndex, nextIndex + 1;
    for i := 0 to siblings.Length
      invariant index == Shift(n, i) && after == Shift(n + 1, i)
      invariant current == NodeAt(h, more, i, index)
      invariant siblings[..i] == Slots(h, more, i)
      invariant siblings[i..] == Slots(h, leaves, siblings.Length)[i..]
    {
      assert siblings[i] == siblings[i..][0] == Slot(h, leaves, i);
      LevelStep(h, leaves, value, i, siblings[i], current, index, after);
      ghost var carried := CarryUp(h, siblings[i], current, index, i);
      ghost var done, rest := siblings[..i], siblings[i + 1..];
      // Bit i of n xor (n + 1): the two numbers differ in it.
      var changed := index % 2 != after % 2;
      if index % 2 == 0 {
        if changed {
          siblings[i] := current;
        }
        current := TwoToOne(h, current, ZeroHash(h, i));
      } else {
        current := TwoToOne(h, siblings[i], current);
        if changed {
          siblings[i] := ZeroHash(h, i);
        }
      }
      assert current == carried && siblings[i] == Slot(h, more, i);
      assert siblings[..i] == done && siblings[i + 1..] == rest;
      assert siblings[..i + 1] == done + [siblings[i]] == Slots(h, more, i + 1);
      assert Slots(h, leaves, siblings.Length)[i + 1..] == Slots(h, leaves, siblings.Length)[i..][1..];
      index, after := index / 2, after / 2;
    }
    root := current;
    assert siblings[..] == siblings[..siblings.Length];
  }

  // ---- Going back ----

  /** Where the counters agree above level i, so do the stored siblings. */
  lemma AgreeAbove(h: Hash, leaves: seq<Digest>, t: nat, i: nat)
    requires t <= |leaves| && Shift(t, i) == Shift(|leaves|, i)
    ensures Slot(h, leaves[..t], i) == Slot(h, leaves, i)
    ensures Shift(t, i + 1) == Shift(|leaves|, i + 1)
  {
    var p := Shift(t, i);
    ShiftOnce(t, i);
    ShiftOnce(|leaves|, i);
    ShiftBounds(t, i);
    if p % 2 == 1 {
      assert (p - 1) * Pow2(i) + Pow2(i) == p * Pow2(i);
      FullNode(h, leaves[..t], leaves, i, p - 1);
    }
  }

  /** The stored sibling of level i of the tree at counter t, if it was lost since. */
  function LostAt(h: Hash, leaves: seq<Digest>, t: nat, i: nat): seq<Digest>
    requires t <= |leaves|
  {
    if Shift(t, i) % 2 == 1 && Shift(t, i) != Shift(|leaves|, i) then [Slot(h, leaves[..t], i)] else []
  }

  /** The stored siblings of the tree at counter t that were lost since, from level i on. */
  function Lost(h: Hash, leaves: seq<Digest>, t: nat, height: nat, i: nat): seq<Digest>
    requires t <= |leaves| && i <= height
    decreases height - i
  {
    if i == height then []
    else LostAt(h, leaves, t, i) + Lost(h, leaves, t, height, i + 1)
  }

  lemma LostUnrolled(h: Hash, leaves: seq<Digest>, t: nat, height: nat, i: nat)
    requires t <= |leaves| && i < height && Shift(t, i) != Shift(|leaves|, i)
    ensures Shift(t, i) % 2 == 1
            ==> Lost(h, leaves, t, height, i) == [Slots(h, leaves[..t], height)[i]] + Lost(h, leaves, t, height, i + 1)
    ensures Shift(t, i) % 2 == 0 ==> Lost(h, leaves, t, height, i) == Lost(h, leaves, t, height, i + 1)
    ensures Shift(t, i) % 2 == 0 ==> Slots(h, leaves[..t], height)[i] == ZeroHash(h, i)
  {
  }

  lemma {:induction false} NothingLostAbove(h: Hash, leaves: seq<Digest>, t: nat, height: nat, i: nat)
    requires t <= |leaves| && i <= height && Shift(t, i) == Shift(|leaves|, i)
    ensures Lost(h, leaves, t, height, i) == []
    decreases height - i
  {
    if i < height {
      AgreeAbove(h, leaves, t, i);
      NothingLostAbove(h, leaves, t, height, i + 1);
    }
  }

  lemma {:induction false} SlotsAgreeAbove(h: Hash, leaves: seq<Digest>, t: nat, height: nat, i: nat)
    requires t <= |leaves| && i <= height && Shift(t, i) == Shift(|leaves|, i)
    ensures Slots(h, leaves[..t], height)[i..] == Slots(h, leaves, height)[i..]
    decreases height - i
  {
    if i < height {
      AgreeAbove(h, leaves, t, i);
      SlotsAgreeAbove(h, leaves, t, height, i + 1);
      FirstAndRest(Slots(h, leaves[..t], height), Slots(h, leaves, height), i);
    }
  }

  lemma FirstAndRest(a: seq<Digest>, b: seq<Digest>, i: nat)
    requires i < |a| == |b| && a[i] == b[i] && a[i + 1..] == b[i + 1..]
    ensures a[i..] == b[i..]
  {
    assert a[i..] == [a[i]] + a[i + 1..] && b[i..] == [b[i]] + b[i + 1..];
  }

  lemma Associate(a: seq<Digest>, b: seq<Digest>, c: seq<Digest>)
    ensures a + b + c == a + (b + c)
  {
  }

  /** Collect, from the siblings stored at counter `target`, those a tree at counter `current` has lost. */
  method LostSiblings(h: Hash, current: u64, target: u64, targetSiblings: seq<Digest>, ghost leaves: seq<Digest>)
    returns (r: Result<seq<Digest>, RevertError>)
    requires current == |leaves|
    requires target <= |leaves| ==> targetSiblings == Slots(h, leaves[..target], |targetSiblings|)
    ensures r == if target >= |leaves| then Err(RevertIndexTooHigh)
            else Ok(Lost(h, leaves, target, |targetSiblings|, 0))
  {
    if current == 0 || target >= current {
      return Err(RevertIndexTooHigh);
    }
    var lost := [];
    var tempIndex: nat, currentIndex: nat := target, current;
    for i := 0 to |targetSiblings|
      invariant tempIndex == Shift(target, i) && currentIndex == Shift(current, i)
      invariant lost + Lost(h, leaves, target, |targetSiblings|, i) == Lost(h, leaves, target, |targetSiblings|, 0)
    {
      ghost var before, rest := lost, Lost(h, leaves, target, |targetSiblings|, i + 1);
      // target xor current, shifted by i, is zero exactly if the shifted numbers are equal.
      if tempIndex % 2 == 1 && tempIndex != currentIndex {
        lost := lost + [targetSiblings[i]];
      }
      assert lost == before + LostAt(h, leaves, target, i);
      Associate(before, LostAt(h, leaves, target, i), rest);
      ShiftOnce(target, i);
      ShiftOnce(current, i);
      tempIndex, currentIndex := tempIndex / 2, currentIndex / 2;
    }
    assert lost + [] == lost;
    return Ok(lost);
  }

  method ClearSiblings(h: Hash, siblings: array<Digest>)
    modifies siblings
    ensures siblings[..] == Slots(h, [], siblings.Length)
  {
    NoLeaves(h, siblings.Length);
    for i := 0 to siblings.Length
      invariant forall j :: 0 <= j < i ==> siblings[j] == ZeroHash(h, j)
    {
      siblings[i] := ZeroHash(h, i);
    }
    assert siblings[..] == Slots(h, [], siblings.Length);
  }

  /** Restore one level: the next lost sibling if the target counter is odd there, an empty subtree otherwise. */
  method RestoreLevel(h: Hash, siblings: array<Digest>, i: nat, odd: bool, changed: seq<Digest>, used: nat)
    returns (r: Result<nat, RevertError>)
    requires i < siblings.Length && used <= |changed|
    modifies siblings
    ensures r == if !odd then Ok(used) else if used == |changed| then Err(NotEnoughChangedLeftSiblings)
            else Ok(used + 1)
    ensures r.Ok? ==> siblings[..i] == old(siblings[..i]) && siblings[i + 1..] == old(siblings[i + 1..])
    ensures r.Ok? ==> siblings[i] == if odd then changed[used] else ZeroHash(h, i)
  {
    if odd {
      if used >= |changed| {
        return Err(NotEnoughChangedLeftSiblings);
      }
      siblings[i] := changed[used];
      return Ok(used + 1);
    }
    siblings[i] := ZeroHash(h, i);
    return Ok(used);
  }

  /** Put the lost siblings back and clear the other changed levels. */
  method RestoreSiblings(h: Hash, siblings: array<Digest>, target: u64, current: u64, changed: seq<Digest>,
          ghost leaves: seq<Digest>)
    returns (r: Result<(), RevertError>)
    requires current == |leaves| && target < current && siblings[..] == Slots(h, leaves, siblings.Length)
    modifies siblings
    ensures r.Err? ==> r.error == NotEnoughChangedLeftSiblings
    ensures r.Err? <==> |changed| < |Lost(h, leaves, target, siblings.Length, 0)|
    ensures changed == Lost(h, leaves, target, siblings.Length, 0)
            ==> siblings[..] == Slots(h, leaves[..target], siblings.Length)
  {
    ghost var lost, height := Lost(h, leaves, target, siblings.Length, 0), siblings.Length;
    ghost var earlier, later := Slots(h, leaves[..target], height), Slots(h, leaves, height);
    var used: nat := 0;
    var targetIndex: nat, currentIndex: nat := target, current;
    var i: nat := 0;
    while i < siblings.Length && targetIndex != currentIndex
      invariant i <= height && used <= |changed|
      invariant targetIndex == Shift(target, i) && currentIndex == Shift(current, i)
      invariant used + |Lost(h, leaves, target, height, i)| == |lost|
      invariant changed == lost
                ==> changed[used..] == Lost(h, leaves, target, height, i) && siblings[..i] == earlier[..i]
      invariant siblings[i..] == later[i..]
    {
      ghost var done, rest := siblings[..i], siblings[i + 1..];
      assert rest == siblings[i..][1..] && later[i..][1..] == later[i + 1..];
      LostUnrolled(h, leaves, target, height, i);
      var level := RestoreLevel(h, siblings, i, targetIndex % 2 == 1, changed, used);
      if level.Err? {
        return Err(level.error);
      }
      if used < |changed| {
        FirstLost(changed, used, earlier[i], Lost(h, leaves, target, height, i + 1));
      }
      Regroup(siblings, i, done, rest, earlier, later);
      ShiftOnce(target, i);
      ShiftOnce(current, i);
      targetIndex, currentIndex := targetIndex / 2, currentIndex / 2;
      used, i := level.value, i + 1;
    }
    if targetIndex == currentIndex {
      NothingLostAbove(h, leaves, target, height, i);
      SlotsAgreeAbove(h, leaves, target, height, i);
    }
    Halves(siblings, earlier, i);
    return Ok(());
  }

  lemma Halves(siblings: array<Digest>, s: seq<Digest>, i: nat)
    requires i <= siblings.Length == |s|
    ensures siblings[..i] == s[..i] && siblings[i..] == s[i..] ==> siblings[..] == s
  {
    assert siblings[..] == siblings[..i] + siblings[i..];
    assert s == s[..i] + s[i..];
  }

  lemma FirstLost(changed: seq<Digest>, used: nat, d: Digest, rest: seq<Digest>)
    requires used < |changed|
    ensures changed[used..] == [d] + rest ==> changed[used] == d && changed[used + 1..] == rest
  {
    if changed[used..] == [d] + rest {
      assert changed[used] == changed[used..][0];
      assert changed[used + 1..] == changed[used..][1..] == rest;
    }
  }

  lemma Regroup(siblings: array<Digest>, i: nat, done: seq<Digest>, rest: seq<Digest>, earlier: seq<Digest>,
          later: seq<Digest>)
    requires i < siblings.Length == |earlier| == |later| && siblings[..i] == done && siblings[i + 1..] == rest
    ensures done == earlier[..i] && siblings[i] == earlier[i] ==> siblings[..i + 1] == earlier[..i + 1]
    ensures rest == later[i + 1..] ==> siblings[i + 1..] == later[i + 1..]
  {
    assert siblings[..i + 1] == done + [siblings[i]];
    assert earlier[..i + 1] == earlier[..i] + [earlier[i]];
  }

  // ---- The tree ----

  datatype RevertError = RevertIndexTooHigh | NotEnoughChangedLeftSiblings | RootPanic

  /**
   The root a tree of this height shows: that of all leaves as long as they fit, later that of
   the subtree the last leaf falls into.
   */
  function TopNode(h: Hash, leaves: seq<Digest>, height: nat): Digest {
    NodeAt(h, leaves, height, if |leaves| == 0 then 0 else Shift(|leaves| - 1, height))
  }

  /** While the leaves fit, the tree shows the root of all of them. */
  lemma TopIsRoot(h: Hash, leaves: seq<Digest>, height: nat)
    requires |leaves| <= Pow2(height)
    ensures TopNode(h, leaves, height) == NodeAt(h, leaves, height, 0)
  {
    if |leaves| > 0 {
      ShiftedOutIff(|leaves| - 1, height);
    }
  }

  /** A tree of a fixed height, at most the 32 of the bridge's trees. */
  class Tree {
    var nextIndex: u64
    var currentRoot: Digest
    const nextSiblings: array<Digest>

    /** The tree stores exactly what it needs of these leaves. */
    ghost predicate Stores(h: Hash, leaves: seq<Digest>)
      reads this, nextSiblings
    {
      var height := nextSiblings.Length;
      && height <= MAX_HEIGHT
      && nextIndex == |leaves|
      && nextSiblings[..] == Slots(h, leaves, height)
      && currentRoot == TopNode(h, leaves, height)
    }

    constructor (h: Hash, height: nat)
      requires height <= MAX_HEIGHT
      ensures Stores(h, []) && fresh(nextSiblings) && nextSiblings.Length == height
    {
      nextIndex := 0;
      currentRoot := ZeroHash(h, height);
      nextSiblings := new Digest[height](i requires 0 <= i => ZeroHash(h, i));
      new;
      EmptyNode(h, [], height, 0);
      NoLeaves(h, height);
      assert nextSiblings[..] == Slots(h, [], height);
    }

    /** Append a leaf; after the last possible one the counter starts again at zero. */
    method Append(h: Hash, value: Digest, ghost leaves: seq<Digest>)
      requires Stores(h, leaves)
      modifies this, nextSiblings
      ensures |leaves| < U64_MODULUS - 1 ==> Stores(h, leaves + [value])
      ensures currentRoot == TopNode(h, leaves + [value], nextSiblings.Length)
      ensures nextSiblings[..] == Slots(h, leaves + [value], nextSiblings.Length)
      ensures nextIndex == (|leaves| + 1) % U64_MODULUS
      ensures |leaves| < Pow2(nextSiblings.Length)
              ==> currentRoot == NodeAt(h, leaves + [value], nextSiblings.Length, 0)
    {
      var newRoot := UpdateSiblings(h, nextSiblings, value, nextIndex, leaves);
      if |leaves| < Pow2(nextSiblings.Length) {
        TopIsRoot(h, leaves + [value], nextSiblings.Length);
      }
      currentRoot := newRoot;
      nextIndex := (nextIndex + 1) % U64_MODULUS;
    }

    /** Rebuild a tree from its counter and stored siblings; the root is recomputed. */
    constructor FromSiblings(h: Hash, index: u64, siblings: seq<Digest>, ghost leaves: seq<Digest>)
      requires |siblings| <= MAX_HEIGHT && index == |leaves| < Pow2(|siblings|)
      requires siblings == Slots(h, leaves, |siblings|)
      ensures Stores(h, leaves) && fresh(nextSiblings) && nextSiblings.Length == |siblings|
    {
      var root := ComputeMerkleRoot(h, ZERO32, index, siblings);
      SlotsGiveRoot(h, leaves, |siblings|);
      TopIsRoot(h, leaves, |siblings|);
      nextIndex := index;
      currentRoot := root.value;
      nextSiblings := new Digest[|siblings|](i requires 0 <= i < |siblings| => siblings[i]);
      new;
      assert nextSiblings[..] == siblings;
    }

    /**
     Go back to an earlier counter with the stored siblings that were lost since. It fails
     with too few of them, and aborts if the earlier leaves did not fit the tree; with the
     right ones it restores the earlier tree.
     */
    method RevertToNextIndex(h: Hash, target: u64, changed: seq<Digest>, ghost leaves: seq<Digest>)
      returns (r: Result<(), RevertError>)
      requires Stores(h, leaves)
      modifies this, nextSiblings
      ensures r == Err(RevertIndexTooHigh) <==> target >= |leaves|
      ensures r == Err(RevertIndexTooHigh) ==> Stores(h, leaves)
      ensures target < |leaves| ==>
                (r == Err(NotEnoughChangedLeftSiblings)
                 <==> target > 0 && |changed| < |Lost(h, leaves, target, nextSiblings.Length, 0)|)
      ensures r == Err(RootPanic)
              <==> Pow2(nextSiblings.Length) <= target < |leaves|
                   && |changed| >= |Lost(h, leaves, target, nextSiblings.Length, 0)|
      ensures && target < |leaves| && target < Pow2(nextSiblings.Length)
              && changed == Lost(h, leaves, target, nextSiblings.Length, 0)
              ==> r.Ok? && Stores(h, leaves[..target])
    {
      if nextIndex == 0 || target >= nextIndex {
        return Err(RevertIndexTooHigh);
      }
      if target == 0 {
        ClearSiblings(h, nextSiblings);
        currentRoot := ZeroHash(h, nextSiblings.Length);
        EmptyNode(h, [], nextSiblings.Length, 0);
        nextIndex := 0;
        return Ok(());
      }
      r := RestoreSiblings(h, nextSiblings, target, nextIndex, changed, leaves);
      if r.Err? {
        return r;
      }
      var root := ComputeMerkleRoot(h, ZERO32, target, nextSiblings[..]);
      if root.Panic? {
        return Err(RootPanic);
      }
      SlotsGiveRoot(h, leaves[..target], nextSiblings.Length);
      TopIsRoot(h, leaves[..target], nextSiblings.Length);
      currentRoot := root.value;
      nextIndex := target;
    }
  }

  lemma NoLeaves(h: Hash, k: nat)
    ensures forall j :: 0 <= j < k ==> Slot(h, [], j) == ZeroHash(h, j)
  {
    forall j | 0 <= j < k
      ensures Slot(h, [], j) == ZeroHash(h, j)
    {
      ShiftedOutIff(0, j);
    }
  }
}
