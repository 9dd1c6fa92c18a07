/** Heights: which committed block each backlog item is, and which blocks were activated. */
module Alignment {
  import opened Bytes
  import opened Hashing
  import opened MintBuffer
  import opened Commitment
  import opened Backlog
  import opened Headers
  import opened Bridge
  import opened BridgeErrors
  import opened System
  import opened Coupling
  import opened ExactlyOnce
  import Txo = TxoBuffer

  function Items(m: Manager): seq<Info> {
    m.infos[..m.count]
  }

  function BlocksOf(acts: seq<Activation>): (r: seq<Block>)
    ensures |r| == |acts|
  {
    seq(|acts|, i requires 0 <= i < |acts| => acts[i].block)
  }

  /** Position of the first backlog item that is not yet activated. */
  function NextPosition(m: Manager): nat {
    if IsActive(m) then m.index + 1 else m.index
  }

  /** The blocks of the backlog that still wait for their activation. */
  function Waiting(h: Hash, m: Manager): seq<Block> {
    if IsDrained(m) || NextPosition(m) > m.count then [] else Carrying(h, m.start, Items(m), NextPosition(m))
  }

  /** Heights increase strictly and stay below the bound. */
  ghost predicate OrderedBelow(log: seq<Block>, bound: int) {
    |log| == 0 || (log[|log| - 1].height < bound && OrderedBelow(log[..|log| - 1], log[|log| - 1].height))
  }

  lemma {:induction false} OrderedMeans(log: seq<Block>, bound: int, i: nat, j: nat)
    requires OrderedBelow(log, bound) && i < j < |log|
    ensures log[i].height < log[j].height < bound
    decreases |log|
  {
    var n := |log| - 1;
    if j < n {
      OrderedMeans(log[..n], log[n].height, i, j);
    } else if i < n - 1 {
      OrderedMeans(log[..n], log[n].height, i, n - 1);
    }
  }

  lemma OrderedWeaken(log: seq<Block>, bound: int, wider: int)
    requires OrderedBelow(log, bound) && bound <= wider
    ensures OrderedBelow(log, wider)
  {
  }

  /** An activation shows the list committed for its block, and that list is not empty. */
  ghost predicate IsFaithful(h: Hash, a: Activation) {
    0 < |a.mints| <= U16_MAX && MintsHash(h, a.mints) == a.block.info.mintsHash
  }

  ghost predicate AllFaithful(h: Hash, acts: seq<Activation>) {
    forall i :: 0 <= i < |acts| ==> IsFaithful(h, acts[i])
  }

  /**
   The committed blocks are, in order, the activated ones and those waiting in the backlog;
   the last backlog item is the block at `top`.
   */
  ghost predicate Aligned(h: Hash, m: Manager, top: nat, committed: seq<Block>, acts: seq<Activation>) {
    && committed == BlocksOf(acts) + Waiting(h, m)
    && (!IsDrained(m) ==> m.start + m.count - 1 == top)
    && OrderedBelow(committed, top + 1)
  }

  ghost predicate SystemAligned(env: Env, s: System) {
    && s.bridge.header.finalized.height < U32_MAX
    && Aligned(env.h, s.bridge.backlog, s.bridge.header.finalized.height, s.history.committed, s.history.activated)
  }

  // ---- Blocks that carry deposits ----

  lemma {:induction false} CarryingContains(h: Hash, base: nat, items: seq<Info>, i: nat, j: nat)
    requires i <= j < |items| && !IsEmptyInfo(h, items[j])
    ensures Block(base + j, items[j]) in Carrying(h, base, items, i)
    decreases j - i
  {
    if i < j {
      CarryingContains(h, base, items, i + 1, j);
    }
  }

  lemma {:induction false} CarryingNothing(h: Hash, base: nat, items: seq<Info>, i: nat)
    requires i <= |items| && forall j :: i <= j < |items| ==> IsEmptyInfo(h, items[j])
    ensures Carrying(h, base, items, i) == []
    decreases |items| - i
  {
    if i < |items| {
      CarryingNothing(h, base, items, i + 1);
    }
  }

  lemma WaitingContains(h: Hash, m: Manager, i: nat)
    requires !IsDrained(m) && NextPosition(m) <= i < m.count && !IsEmptyInfo(h, m.infos[i])
    ensures Block(m.start + i, m.infos[i]) in Waiting(h, m)
  {
    assert Items(m)[i] == m.infos[i];
    CarryingContains(h, m.start, Items(m), NextPosition(m), i);
  }

  lemma WaitingIsCommitted(h: Hash, m: Manager, top: nat, committed: seq<Block>, acts: seq<Activation>)
    requires Aligned(h, m, top, committed, acts) && !IsDrained(m)
    ensures forall i ::
              NextPosition(m) <= i < m.count && !IsEmptyInfo(h, m.infos[i])
              ==> Block(m.start + i, m.infos[i]) in committed
  {
    forall i | NextPosition(m) <= i < m.count && !IsEmptyInfo(h, m.infos[i])
      ensures Block(m.start + i, m.infos[i]) in committed
    {
      WaitingContains(h, m, i);
    }
  }

  /** Nothing waits exactly if only empty blocks are left. */
  lemma NothingWaitsIff(h: Hash, m: Manager)
    requires !IsActive(m)
    ensures Waiting(h, m) == [] <==> forall i :: m.index <= i < m.count ==> IsEmptyInfo(h, m.infos[i])
  {
    if i :| m.index <= i < m.count && !IsEmptyInfo(h, m.infos[i]) {
      WaitingContains(h, m, i);
    } else if m.index <= m.count {
      assert forall i :: m.index <= i < m.count ==> Items(m)[i] == m.infos[i];
      CarryingNothing(h, m.start, Items(m), m.index);
    }
  }

  lemma BlocksOfAppended(acts: seq<Activation>, a: Activation)
    ensures BlocksOf(acts + [a]) == BlocksOf(acts) + [a.block]
  {
  }

  lemma {:induction false} SkipEmptyItems(h: Hash, base: nat, items: seq<Info>, i: nat, j: nat)
    requires i <= j <= |items| && forall k :: i <= k < j ==> IsEmptyInfo(h, items[k])
    ensures Carrying(h, base, items, i) == Carrying(h, base, items, j)
    decreases j - i
  {
    if i < j {
      SkipEmptyItems(h, base, items, i + 1, j);
    }
  }

  lemma {:induction false} CarryingOfTail(h: Hash, base: nat, items: seq<Info>, first: nat, j: nat)
    requires first + j <= |items|
    ensures Carrying(h, base + first, items[first..], j) == Carrying(h, base, items, first + j)
    decreases |items| - first - j
  {
    if first + j < |items| {
      CarryingOfTail(h, base, items, first, j + 1);
    }
  }

  lemma OrderedAppend(log: seq<Block>, b: Block)
    requires OrderedBelow(log, b.height)
    ensures OrderedBelow(log + [b], b.height + 1)
  {
    assert (log + [b])[..|log|] == log;
  }

  lemma Reassociate(log: seq<Block>, b: Block, rest: seq<Block>)
    ensures log + ([b] + rest) == log + [b] + rest
  {
  }

  lemma {:induction false} CarryingOrdered(h: Hash, log: seq<Block>, base: nat, items: seq<Info>, i: nat)
    requires i <= |items| && OrderedBelow(log, base + i)
    ensures OrderedBelow(log + Carrying(h, base, items, i), base + |items|)
    decreases |items| - i
  {
    if i == |items| {
      assert log + Carrying(h, base, items, i) == log;
    } else if IsEmptyInfo(h, items[i]) {
      OrderedWeaken(log, base + i, base + i + 1);
      CarryingOrdered(h, log, base, items, i + 1);
    } else {
      var b, rest := Block(base + i, items[i]), Carrying(h, base, items, i + 1);
      OrderedAppend(log, b);
      CarryingOrdered(h, log + [b], base, items, i + 1);
      Reassociate(log, b, rest);
    }
  }

  // ---- Loading ----

  /** A drained backlog is replaced by new blocks, from their first non-empty one on, which is active. */
  ghost predicate Loads(h: Hash, m': Manager, base: nat, items: seq<Info>, first: nat) {
    && first == NextNonEmpty(h, items, 0) < |items|
    && IsActive(m') && m'.index == 0 && m'.count == |items| - first && m'.start == base + first
    && Items(m') == items[first..]
  }

  lemma LoadedBlocks(h: Hash, m': Manager, base: nat, items: seq<Info>, first: nat)
    requires Loads(h, m', base, items, first)
    ensures Carrying(h, base, items, 0) == [Block(m'.start, m'.infos[0])] + Waiting(h, m')
  {
    SkipEmptyItems(h, base, items, 0, first);
    CarryingOfTail(h, base, items, first, 1);
    assert m'.infos[0] == Items(m')[0] == items[first];
  }

  /** Loading new blocks on top of an aligned, drained backlog keeps everything aligned. */
  lemma {:induction false} LoadKeepsAligned(h: Hash, m: Manager, m': Manager, top: nat, committed: seq<Block>,
          acts: seq<Activation>, items: seq<Info>, first: nat, a: Activation)
    requires IsDrained(m) && Aligned(h, m, top, committed, acts)
    requires Loads(h, m', top + 1, items, first) && a.block == Block(m'.start, m'.infos[0])
    ensures Aligned(h, m', top + |items|, committed + Carrying(h, top + 1, items, 0), acts + [a])
  {
    LoadedBlocks(h, m', top + 1, items, first);
    BlocksOfAppended(acts, a);
    CarryingOrdered(h, committed, top + 1, items, 0);
  }

  /** What a block update does: it commits the new blocks, and activates the first with deposits. */
  ghost predicate Extends(env: Env, s: System, s': System, items: seq<Info>) {
    var m', top, first := s'.bridge.backlog, s.bridge.header.finalized.height, NextNonEmpty(env.h, items, 0);
    && s'.bridge.header.finalized.height == top + |items|
    && s'.history.committed == s.history.committed + Carrying(env.h, top + 1, items, 0)
    && if first == |items| then
         m' == s.bridge.backlog && s'.history.activated == s.history.activated
       else
         && Loads(env.h, m', top + 1, items, first)
         && |s'.history.activated| == |s.history.activated| + 1
         && var a := s'.history.activated[|s.history.activated|];
            && s'.history.activated == s.history.activated + [a]
            && a.block == Block(m'.start, m'.infos[0]) && IsFaithful(env.h, a)
  }

  lemma ExtendKeepsAligned(env: Env, s: System, s': System, items: seq<Info>)
    requires SystemAligned(env, s) && IsDrained(s.bridge.backlog) && Extends(env, s, s', items)
    requires s'.bridge.header.finalized.height < U32_MAX
    ensures SystemAligned(env, s')
    ensures AllFaithful(env.h, s.history.activated) ==> AllFaithful(env.h, s'.history.activated)
  {
    var top := s.bridge.header.finalized.height;
    var first := NextNonEmpty(env.h, items, 0);
    if first == |items| {
      SkipEmptyItems(env.h, top + 1, items, 0, |items|);
      OrderedWeaken(s.history.committed, top + 1, top + 1 + |items|);
    } else {
      LoadKeepsAligned(env.h, s.bridge.backlog, s'.bridge.backlog, top, s.history.committed, s.history.activated,
          items, first, s'.history.activated[|s.history.activated|]);
    }
  }

  // ---- Block updates ----

  function NoDeposits(h: Hash): Info {
    Info(h(EMPTY_MINTS_PREIMAGE), h([]))
  }

  /** The one block of a single-block update; without a new deposit it counts as empty. */
  function SingleItem(env: Env, f: FinalizedState, g: FinalizedState): Info {
    if g.nextIndex == f.nextIndex then NoDeposits(env.h) else Info(g.mintsHash, g.txoHash)
  }

  /** The new blocks were loaded into m', whose first item is active and held by account a. */
  ghost predicate LoadedFrom(env: Env, m': Manager, base: nat, items: seq<Info>, first: nat, a: Account) {
    && Loads(env.h, m', base, items, first)
    && HoldsCurrent(env, m', a)
  }

  lemma SingleLoaded(env: Env, b: Bridge, proof: Bytes, next: BridgeHeader, addr: Key, a: Account, txo: Txo.Account)
    requires Complete(env.h, a) && txo.Buffer?
    requires SingleTransition(env, b, proof, next, addr, Memory(a), txo).Ok?
    ensures var m, f, g := SingleTransition(env, b, proof, next, addr, Memory(a), txo).value.backlog,
            b.header.finalized, next.finalized;
            if g.nextIndex == f.nextIndex then m == b.backlog
                else LoadedFrom(env, m, g.height, [Info(g.mintsHash, g.txoHash)], 0, a)
  {
    SingleLoads(env, b, proof, next, addr, a, txo);
    var m, info := SingleTransition(env, b, proof, next, addr, Memory(a), txo).value.backlog,
        Info(next.finalized.mintsHash, next.finalized.txoHash);
    if next.finalized.nextIndex != b.header.finalized.nextIndex {
      assert Items(m) == [info] == [info][0..];
    }
  }

  lemma ReorgLoaded(env: Env, b: Bridge, proof: Bytes, next: BridgeHeader, extra: seq<Info>, addr: Key, a: Account,
          txo: Txo.Account)
    requires Complete(env.h, a) && txo.Buffer?
    requires ReorgTransition(env, b, proof, next, extra, addr, Memory(a), txo).Ok?
    ensures var m, items := ReorgTransition(env, b, proof, next, extra, addr, Memory(a), txo).value.backlog,
            ReorgItems(extra, next.finalized);
            var first := NextNonEmpty(env.h, items, 0);
            if first == |items| then m == b.backlog
                else LoadedFrom(env, m, b.header.finalized.height + 1, items, first, a)
  {
    ReorgLoads(env, b, proof, next, extra, addr, a, txo);
  }

  /** Recording a load in the history is what the alignment expects. */
  lemma {:induction false} NotedLoad(env: Env, s: System, s': System, items: seq<Info>, a: Account)
    requires !IsActive(s.bridge.backlog)
    requires s'.bridge.header.finalized.height == s.bridge.header.finalized.height + |items|
    requires s'.history.committed == s.history.committed
             + Carrying(env.h, s.bridge.header.finalized.height + 1, items, 0)
    requires s'.history.activated == NoteActivation(s.history, s'.bridge.backlog, a).activated
    requires var first := NextNonEmpty(env.h, items, 0);
             if first == |items| then s'.bridge.backlog == s.bridge.backlog
             else LoadedFrom(env, s'.bridge.backlog, s.bridge.header.finalized.height + 1, items, first, a)
    ensures Extends(env, s, s', items)
  {
  }

  lemma FinishShape(env: Env, s: System, s': System, locked: Buffers, addr: Key,
          transition: Result<Bridge, BridgeError>, moved: bool, y: History)
    requires FinishUpdate(env, s, locked, addr, transition, moved, y) == Ok(s')
    ensures transition == Ok(s'.bridge)
    ensures s'.history == NoteActivation(y, s'.bridge.backlog, AccountAt(locked, addr).account)
  {
  }

  /** The history after a single-block update whose buffer is a. */
  function NotedAfterSingle(y: History, f: FinalizedState, g: FinalizedState, m': Manager, a: Account): History {
    var blocks := if f.nextIndex != g.nextIndex then [Block(g.height, Info(g.mintsHash, g.txoHash))] else [];
    NoteActivation(y.(committed := y.committed + blocks, recorded := y.recorded + [g]), m', a)
  }

  /** The history after a reorganization whose buffer is a. */
  function NotedAfterReorg(h: Hash, y: History, f: FinalizedState, items: seq<Info>, m': Manager, a: Account): History {
    NoteActivation(y.(committed := y.committed + Carrying(h, f.height + 1, items, 0)), m', a)
  }

  lemma BlockUpdateShape(env: Env, s: System, s': System, proof: Bytes, next: BridgeHeader, addr: Key, owner: Key)
    requires Sound(env) && BuffersWell(env, s.buffers)
    requires BlockUpdateStep(env, s, proof, next, addr, owner) == Ok(s')
    ensures LockAt(env, s.buffers, addr).Ok? && TxoAt(s, owner).Buffer?
    ensures var a := AccountAt(LockAt(env, s.buffers, addr).value, addr).account;
            && Complete(env.h, a)
            && SingleTransition(env, s.bridge, proof, next, addr, Memory(a), TxoAt(s, owner)) == Ok(s'.bridge)
            && s'.history == NotedAfterSingle(s.history, s.bridge.header.finalized, next.finalized,
                s'.bridge.backlog, a)
  {
    LockMeaning(env, s.buffers, addr);
    var locked: Buffers := LockAt(env, s.buffers, addr).value;
    var f, g := s.bridge.header.finalized, next.finalized;
    var blocks := if f.nextIndex != g.nextIndex then [Block(g.height, Info(g.mintsHash, g.txoHash))] else [];
    var y := s.history.(committed := s.history.committed + blocks, recorded := s.history.recorded + [g]);
    FinishShape(env, s, s', locked, addr,
        SingleTransition(env, s.bridge, proof, next, addr, MemoryAt(locked, addr), TxoAt(s, owner)),
        f.nextIndex != g.nextIndex, y);
  }

  lemma {:induction false} ReorgParts(env: Env, s: System, s': System, proof: Bytes, next: BridgeHeader,
          extra: seq<Info>, addr: Key, owner: Key)
    requires ReorgStep(env, s, proof, next, extra, addr, owner) == Ok(s')
    ensures LockAt(env, s.buffers, addr).Ok? && TxoAt(s, owner).Buffer?
    ensures var locked: Buffers := LockAt(env, s.buffers, addr).value;
            && ReorgTransition(env, s.bridge, proof, next, extra, addr, MemoryAt(locked, addr), TxoAt(s, owner))
                == Ok(s'.bridge)
            && s'.history == NotedAfterReorg(env.h, s.history, s.bridge.header.finalized,
                ReorgItems(extra, next.finalized), s'.bridge.backlog, AccountAt(locked, addr).account)
  {
    var locked: Buffers := LockAt(env, s.buffers, addr).value;
    ReorgLockedParts(env, s, s', locked, proof, next, extra, addr, TxoAt(s, owner), Reorganized(env, s, next, extra));
  }

  lemma ReorgLockedParts(env: Env, s: System, s': System, locked: Buffers, proof: Bytes, next: BridgeHeader,
          extra: seq<Info>, addr: Key, txo: Txo.Account, y: History)
    requires txo.Buffer? && ReorgLockedStep(env, s, locked, proof, next, extra, addr, txo, y) == Ok(s')
    ensures ReorgTransition(env, s.bridge, proof, next, extra, addr, MemoryAt(locked, addr), txo) == Ok(s'.bridge)
    ensures s'.history == NoteActivation(y, s'.bridge.backlog, AccountAt(locked, addr).account)
  {
    var moved := s.bridge.header.finalized.nextIndex != next.finalized.nextIndex;
    FinishShape(env, s, s', locked, addr,
        ReorgTransition(env, s.bridge, proof, next, extra, addr, MemoryAt(locked, addr), txo), moved, y);
  }

  lemma LockedAccount(env: Env, buffers: Buffers, addr: Key)
    requires Sound(env) && BuffersWell(env, buffers) && LockAt(env, buffers, addr).Ok?
    ensures var a := AccountAt(LockAt(env, buffers, addr).value, addr).account;
            Complete(env.h, a) && MemoryAt(LockAt(env, buffers, addr).value, addr) == Memory(a)
  {
    LockMeaning(env, buffers, addr);
  }

  lemma TransitionHeights(env: Env, b: Bridge, b': Bridge, proof: Bytes, next: BridgeHeader, addr: Key, mem: Bytes,
          txo: Txo.Account)
    requires txo.Buffer? && SingleTransition(env, b, proof, next, addr, mem, txo) == Ok(b')
    ensures b'.header == next && IsDrained(b.backlog) && next.tip.height > b.header.tip.height
    ensures next.finalized.height == (b.header.finalized.height + 1) % 0x1_0000_0000
    ensures b'.ring == Record(b.ring, next.finalized)
  {
  }

  lemma SingleCarrying(env: Env, f: FinalizedState, g: FinalizedState)
    requires g.nextIndex != f.nextIndex ==> !IsEmptyInfo(env.h, SingleItem(env, f, g))
    ensures Carrying(env.h, g.height, [SingleItem(env, f, g)], 0)
         == if g.nextIndex == f.nextIndex then [] else [Block(g.height, Info(g.mintsHash, g.txoHash))]
    ensures NextNonEmpty(env.h, [SingleItem(env, f, g)], 0) == if g.nextIndex == f.nextIndex then 1 else 0
  {
    assert Carrying(env.h, g.height, [SingleItem(env, f, g)], 1) == [];
  }

  lemma NotedSingle(env: Env, s: System, s': System, a: Account)
    requires !IsActive(s.bridge.backlog)
    requires s'.bridge.header.finalized.height == s.bridge.header.finalized.height + 1
    requires var f, g := s.bridge.header.finalized, s'.bridge.header.finalized;
             && s'.history.committed == s.history.committed
                 + (if g.nextIndex == f.nextIndex then [] else [Block(g.height, Info(g.mintsHash, g.txoHash))])
             && (if g.nextIndex == f.nextIndex then s'.bridge.backlog == s.bridge.backlog
                 else LoadedFrom(env, s'.bridge.backlog, g.height, [Info(g.mintsHash, g.txoHash)], 0, a))
    requires s'.history.activated == NoteActivation(s.history, s'.bridge.backlog, a).activated
    ensures Extends(env, s, s', [SingleItem(env, s.bridge.header.finalized, s'.bridge.header.finalized)])
  {
    SingleCarrying(env, s.bridge.header.finalized, s'.bridge.header.finalized);
    NotedLoad(env, s, s', [SingleItem(env, s.bridge.header.finalized, s'.bridge.header.finalized)], a);
  }

  lemma SingleExtends(env: Env, s: System, s': System, proof: Bytes, next: BridgeHeader, addr: Key, a: Account,
          txo: Txo.Account)
    requires !IsActive(s.bridge.backlog) && s.bridge.header.finalized.height < U32_MAX && Complete(env.h, a)
    requires txo.Buffer?
    requires SingleTransition(env, s.bridge, proof, next, addr, Memory(a), txo) == Ok(s'.bridge)
    requires s'.history == NotedAfterSingle(s.history, s.bridge.header.finalized, next.finalized, s'.bridge.backlog, a)
    ensures s'.bridge.header == next
    ensures Extends(env, s, s', [SingleItem(env, s.bridge.header.finalized, next.finalized)])
  {
    TransitionHeights(env, s.bridge, s'.bridge, proof, next, addr, Memory(a), txo);
    SingleLoaded(env, s.bridge, proof, next, addr, a, txo);
    NotedSingle(env, s, s', a);
  }

  lemma BlockUpdateExtends(env: Env, s: System, s': System, proof: Bytes, next: BridgeHeader, addr: Key, owner: Key)
    requires Sound(env) && Coupled(env, s.bridge.backlog, s.buffers) && s.bridge.header.finalized.height < U32_MAX
    requires BlockUpdateStep(env, s, proof, next, addr, owner) == Ok(s')
    ensures IsDrained(s.bridge.backlog) && s'.bridge.header == next
    ensures Extends(env, s, s', [SingleItem(env, s.bridge.header.finalized, next.finalized)])
  {
    BlockUpdateShape(env, s, s', proof, next, addr, owner);
    DrainedIsIdle(env, s.bridge.backlog, s.buffers);
    SingleExtends(env, s, s', proof, next, addr, AccountAt(LockAt(env, s.buffers, addr).value, addr).account,
        TxoAt(s, owner));
  }

  lemma ReorgHeights(env: Env, b: Bridge, b': Bridge, proof: Bytes, next: BridgeHeader, extra: seq<Info>, addr: Key,
          mem: Bytes, txo: Txo.Account)
    requires txo.Buffer? && ReorgTransition(env, b, proof, next, extra, addr, mem, txo) == Ok(b')
    ensures b'.header == next && IsDrained(b.backlog) && next.tip.height > b.header.tip.height
    ensures next.finalized.height == b.header.finalized.height + |ReorgItems(extra, next.finalized)|
    ensures b'.ring == b.ring
  {
  }

  lemma TransitionExtends(env: Env, s: System, s': System, proof: Bytes, next: BridgeHeader, extra: seq<Info>,
          addr: Key, a: Account, txo: Txo.Account)
    requires !IsActive(s.bridge.backlog) && Complete(env.h, a) && txo.Buffer?
    requires ReorgTransition(env, s.bridge, proof, next, extra, addr, Memory(a), txo) == Ok(s'.bridge)
    requires s'.history == NotedAfterReorg(env.h, s.history, s.bridge.header.finalized,
             ReorgItems(extra, next.finalized), s'.bridge.backlog, a)
    ensures s'.bridge.header == next
    ensures Extends(env, s, s', ReorgItems(extra, next.finalized))
  {
    ReorgHeights(env, s.bridge, s'.bridge, proof, next, extra, addr, Memory(a), txo);
    ReorgLoaded(env, s.bridge, proof, next, extra, addr, a, txo);
    NotedLoad(env, s, s', ReorgItems(extra, next.finalized), a);
  }

  lemma ReorgExtends(env: Env, s: System, s': System, proof: Bytes, next: BridgeHeader, extra: seq<Info>, addr: Key,
          owner: Key)
    requires Sound(env) && Coupled(env, s.bridge.backlog, s.buffers)
    requires ReorgStep(env, s, proof, next, extra, addr, owner) == Ok(s')
    ensures IsDrained(s.bridge.backlog) && s'.bridge.header == next
    ensures Extends(env, s, s', ReorgItems(extra, next.finalized))
  {
    ReorgParts(env, s, s', proof, next, extra, addr, owner);
    LockedAccount(env, s.buffers, addr);
    DrainedIsIdle(env, s.bridge.backlog, s.buffers);
    TransitionExtends(env, s, s', proof, next, extra, addr,
        AccountAt(LockAt(env, s.buffers, addr).value, addr).account, TxoAt(s, owner));
  }

  // ---- Activating the next block and claiming ----

  /** The backlog moved on to its next non-empty item, which is now active. */
  ghost predicate MovesOn(h: Hash, m: Manager, m1: Manager) {
    && !IsDrained(m) && !IsActive(m) && IsActive(m1)
    && m1.index == NextItem(h, m) < m.count
    && m1 == m.(index := m1.index, tracker := m1.tracker)
  }

  lemma MoveTakesFirstWaiting(h: Hash, m: Manager, m1: Manager)
    requires MovesOn(h, m, m1)
    ensures Waiting(h, m) == [Block(m1.start + m1.index, m1.infos[m1.index])] + Waiting(h, m1)
  {
    SkipEmptyItems(h, m.start, Items(m), m.index, m1.index);
  }

  lemma MoveKeepsAligned(h: Hash, m: Manager, m1: Manager, top: nat, committed: seq<Block>, acts: seq<Activation>,
          a: Activation)
    requires Aligned(h, m, top, committed, acts) && MovesOn(h, m, m1)
    requires a.block == Block(m1.start + m1.index, m1.infos[m1.index])
    ensures Aligned(h, m1, top, committed, acts + [a])
  {
    MoveTakesFirstWaiting(h, m, m1);
    BlocksOfAppended(acts, a);
  }

  lemma SetupMovesOn(env: Env, s: System, addr: Key, txo: Txo.Account)
    requires Sound(env) && Coupled(env, s.bridge.backlog, s.buffers) && txo.Buffer?
    requires SetupNext(env.h, env.bridge, s.bridge.backlog, addr, MemoryAt(s.buffers, addr), txo).Ok?
    requires LockAt(env, s.buffers, addr).Ok?
    ensures MovesOn(env.h, s.bridge.backlog,
            SetupNext(env.h, env.bridge, s.bridge.backlog, addr, MemoryAt(s.buffers, addr), txo).value)
  {
    AdvanceKeepsCoupled(env, s, addr, txo);
    LockMeaning(env, s.buffers, addr);
    LockedMemory(env, s.buffers, addr);
    SetupNextMeaning(env, s.bridge.backlog, addr, s.buffers[addr].account, txo);
  }

  lemma AdvanceKeepsAligned(env: Env, s: System, addr: Key, txo: Txo.Account)
    requires Sound(env) && Coupled(env, s.bridge.backlog, s.buffers) && SystemAligned(env, s) && txo.Buffer?
    requires SetupNext(env.h, env.bridge, s.bridge.backlog, addr, MemoryAt(s.buffers, addr), txo).Ok?
    requires LockAt(env, s.buffers, addr).Ok?
    ensures var m1 := SetupNext(env.h, env.bridge, s.bridge.backlog, addr, MemoryAt(s.buffers, addr), txo).value;
            m1.index < m1.count && SystemAligned(env, Advanced(env, s, m1, addr))
  {
    AdvanceKeepsCoupled(env, s, addr, txo);
    var m := s.bridge.backlog;
    SetupMovesOn(env, s, addr, txo);
    var m1 := SetupNext(env.h, env.bridge, m, addr, MemoryAt(s.buffers, addr), txo).value;
    var locked: Buffers := LockAt(env, s.buffers, addr).value;
    MoveKeepsAligned(env.h, m, m1, s.bridge.header.finalized.height, s.history.committed, s.history.activated,
        CurrentActivation(m1, locked[addr].account));
  }

  lemma AdvanceIsFaithful(env: Env, s: System, addr: Key, txo: Txo.Account)
    requires Sound(env) && Coupled(env, s.bridge.backlog, s.buffers) && AllFaithful(env.h, s.history.activated)
    requires txo.Buffer?
    requires SetupNext(env.h, env.bridge, s.bridge.backlog, addr, MemoryAt(s.buffers, addr), txo).Ok?
    requires LockAt(env, s.buffers, addr).Ok?
    ensures var m1 := SetupNext(env.h, env.bridge, s.bridge.backlog, addr, MemoryAt(s.buffers, addr), txo).value;
            m1.index < m1.count && AllFaithful(env.h, Advanced(env, s, m1, addr).history.activated)
  {
    AdvanceKeepsCoupled(env, s, addr, txo);
    SetupMovesOn(env, s, addr, txo);
  }

  lemma ClaimKeepsWaiting(h: Hash, m: Manager, m': Manager, g: nat)
    requires IsActive(m) && m.index < m.count && ClaimedGroup(m, m', g)
    ensures Waiting(h, m') == Waiting(h, m) && m'.start == m.start && m'.count == m.count
  {
  }

  lemma ClaimKeepsAligned(env: Env, s: System, s': System, addr: Key, g: nat, recipients: seq<Key>, mint: Key)
    requires SystemAligned(env, s) && GroupMinted(env, s, s', addr, g, recipients, mint)
    ensures SystemAligned(env, s')
  {
    ClaimKeepsWaiting(env.h, s.bridge.backlog, s'.bridge.backlog, g);
  }
}
