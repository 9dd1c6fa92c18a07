/** A block's way through the bridge, from the upload of its lists to its last mint. */
module FullCycle {
  import opened Bytes
  import opened Hashing
  import opened Mints
  import opened MintBuffer
  import opened MintBufferRuns
  import opened Commitment
  import opened Tracker
  import opened Backlog
  import opened Headers
  import opened Bridge
  import opened System
  import opened Coupling
  import opened ExactlyOnce
  import opened Alignment
  import opened Runs
  import opened Drain
  import opened DrainRuns
  import Txo = TxoBuffer
  import Indices = TxoIndices

  /** A proved next header that commits to the two lists of its block. */
  ghost predicate ProvedNext(env: Env, b: Bridge, proof: Bytes, next: BridgeHeader, ms: seq<PendingMint>,
          xs: seq<u32>) {
    var f, g := b.header.finalized, next.finalized;
    && g.height == f.height + 1 < U32_MAX && next.tip.height > b.header.tip.height
    && g.nextIndex == f.nextIndex + |ms|
    && OpensBlock(env.h, Info(g.mintsHash, g.txoHash), ms, xs)
    && !IsEmptyInfo(env.h, Info(g.mintsHash, g.txoHash))
    && env.verifies(proof, false, SingleInputs(env, b, next))
  }

  lemma LoadSucceeds(env: Env, m: Manager, g: FinalizedState, addr: Key, owner: Key, txo: Txo.Account,
          ms: seq<PendingMint>, xs: seq<u32>)
    requires IsDrained(m) && OpensBlock(env.h, Info(g.mintsHash, g.txoHash), ms, xs)
    requires !IsEmptyInfo(env.h, Info(g.mintsHash, g.txoHash))
    requires HoldsOutputs(owner, txo, g.height, Indices.IndexBytes(xs))
    ensures LoadSingle(env, m, g, |ms|, addr, txo).Ok?
  {
    OutputsAccepted(env.h, owner, txo, g.height, xs);
    var items := [Info(g.mintsHash, g.txoHash)];
    var m0 := Manager(items + m.infos[1..], 0, 1, g.height, Tracker(addr, NO_BITS, 0, 0));
    assert m0.infos[..1] == items;
  }

  lemma TransitionSucceeds(env: Env, b: Bridge, proof: Bytes, next: BridgeHeader, addr: Key, mem: Bytes, owner: Key,
          txo: Txo.Account, ms: seq<PendingMint>, xs: seq<u32>)
    requires IsDrained(b.backlog) && ProvedNext(env, b, proof, next, ms, xs)
    requires CheckMintBuffer(env.h, env.bridge, mem, next.finalized.mintsHash) == Ok(|ms|)
    requires HoldsOutputs(owner, txo, next.finalized.height, Indices.IndexBytes(xs))
    ensures SingleTransition(env, b, proof, next, addr, mem, txo).Ok?
  {
    LoadSucceeds(env, b.backlog, next.finalized, addr, owner, txo, ms, xs);
  }

  lemma UpdateAccepts(env: Env, s: System, locked: Buffers, proof: Bytes, next: BridgeHeader, addr: Key, owner: Key)
    requires addr == env.bufferOf(owner) && LockAt(env, s.buffers, addr) == Ok(locked) && TxoAt(s, owner).Buffer?
    requires s.bridge.header.finalized.nextIndex != next.finalized.nextIndex
    requires SingleTransition(env, s.bridge, proof, next, addr, MemoryAt(locked, addr), TxoAt(s, owner)).Ok?
    ensures BlockUpdateStep(env, s, proof, next, addr, owner).Ok?
  {
  }

  /** Locking a buffer that holds a list: the bridge then reads that list's count under its commitment. */
  lemma LockShows(env: Env, s: System, addr: Key, ms: seq<PendingMint>) returns (locked: Buffers)
    requires Sound(env) && SystemInvariant(env, s) && HoldsList(env, s, addr, ms) && |ms| <= DRAINABLE_MINTS
    ensures LockAt(env, s.buffers, addr) == Ok(locked) && addr in locked && locked[addr].account.Buffer?
    ensures Complete(env.h, locked[addr].account) && MintsOf(locked[addr].account) == ms
    ensures MemoryAt(locked, addr) == Memory(locked[addr].account)
    ensures CheckMintBuffer(env.h, env.bridge, MemoryAt(locked, addr), MintsHash(env.h, ms)) == Ok(|ms|)
  {
    assert LockAt(env, s.buffers, addr).Ok?;
    LockMeaning(env, s.buffers, addr);
    locked := LockAt(env, s.buffers, addr).value;
    LockedMemory(env, locked, addr);
    CheckAcceptsExactlyItsList(env.h, env.bridge, locked[addr].account, MintsHash(env.h, ms));
  }

  lemma UpdateSucceeds(env: Env, s: System, proof: Bytes, next: BridgeHeader, addr: Key, owner: Key,
          ms: seq<PendingMint>, xs: seq<u32>)
    requires Sound(env) && SystemInvariant(env, s) && IsDrained(s.bridge.backlog)
    requires ProvedNext(env, s.bridge, proof, next, ms, xs)
    requires HoldsList(env, s, addr, ms) && addr == env.bufferOf(owner)
    requires HoldsOutputs(owner, TxoAt(s, owner), next.finalized.height, Indices.IndexBytes(xs))
    ensures BlockUpdateStep(env, s, proof, next, addr, owner).Ok?
  {
    var locked := LockShows(env, s, addr, ms);
    TransitionSucceeds(env, s.bridge, proof, next, addr, MemoryAt(locked, addr), owner, TxoAt(s, owner), ms, xs);
    UpdateAccepts(env, s, locked, proof, next, addr, owner);
  }

  /** One activation was added, of this list. */
  ghost predicate Adds(acts: seq<Activation>, acts': seq<Activation>, ms: seq<PendingMint>) {
    |acts'| == |acts| + 1 && acts'[..|acts|] == acts && acts'[|acts|].mints == ms
  }

  /** Blocks that were just loaded, the first of them active with a list that can be claimed, are not stuck. */
  lemma LoadedIsFree(env: Env, m: Manager, base: nat, items: seq<Info>, first: nat, ms: seq<PendingMint>)
    requires Loads(env.h, m, base, items, first) && m.tracker.total <= DRAINABLE_MINTS && AllPayable(env, ms)
    requires !IsEmptyInfo(env.h, items[|items| - 1])
    requires forall i :: first < i < |items| && !IsEmptyInfo(env.h, items[i]) ==> Openable(env, items[i])
    ensures !Stuck(env, m, ms)
  {
    assert m.infos[m.count - 1] == Items(m)[m.count - 1] == items[|items| - 1];
    forall i: nat
      ensures !BlockedAt(env, m, i)
    {
      assert 1 <= i < m.count ==> m.infos[i] == Items(m)[i] == items[first + i];
    }
  }

  lemma UpdateKeepsBuffer(env: Env, s: System, s': System, proof: Bytes, next: BridgeHeader, addr: Key, owner: Key)
    requires IsBridgeBuffer(env, s, addr) && BlockUpdateStep(env, s, proof, next, addr, owner) == Ok(s')
    ensures IsBridgeBuffer(env, s', addr)
  {
  }

  /** The state after the update: one block, freshly active, with the uploaded list. */
  lemma UpdateActivates(env: Env, s: System, s': System, proof: Bytes, next: BridgeHeader, addr: Key, owner: Key,
          ms: seq<PendingMint>, xs: seq<u32>)
    requires Sound(env) && SystemInvariant(env, s) && ProvedNext(env, s.bridge, proof, next, ms, xs)
    requires HoldsList(env, s, addr, ms)
    requires BlockUpdateStep(env, s, proof, next, addr, owner) == Ok(s')
    ensures s'.bridge.header == next && Waiting(env.h, s'.bridge.backlog) == []
    ensures Loads(env.h, s'.bridge.backlog, next.finalized.height,
            [Info(next.finalized.mintsHash, next.finalized.txoHash)], 0)
    ensures s'.bridge.backlog.tracker.total == |ms| && Members(s'.bridge.backlog.tracker.claimed) == {}
    ensures Held(s') == ms
    ensures Adds(s.history.activated, s'.history.activated, ms)
  {
    BlockUpdateShape(env, s, s', proof, next, addr, owner);
    LockMeaning(env, s.buffers, addr);
    var a := AccountAt(LockAt(env, s.buffers, addr).value, addr).account;
    SingleLoads(env, s.bridge, proof, next, addr, a, TxoAt(s, owner));
    TransitionHeights(env, s.bridge, s'.bridge, proof, next, addr, Memory(a), TxoAt(s, owner));
    FreshHasNoClaims(s'.bridge.backlog, addr, a.header.count);
    SingleItemLoads(env, s'.bridge.backlog, a, next.finalized);
    UpdateHolds(env, s, s', proof, next, addr, owner);
  }

  lemma SingleItemLoads(env: Env, m: Manager, a: Account, g: FinalizedState)
    requires m.index == 0 && m.count == 1 && m.start == g.height && m.infos[0] == Info(g.mintsHash, g.txoHash)
    requires IsActive(m)
    requires !IsEmptyInfo(env.h, m.infos[0])
    ensures Loads(env.h, m, g.height, [Info(g.mintsHash, g.txoHash)], 0) && Waiting(env.h, m) == []
  {
    assert Items(m) == [Info(g.mintsHash, g.txoHash)] == [Info(g.mintsHash, g.txoHash)][0..];
  }

  /** An update that moves the index leaves its buffer locked, with the list it held. */
  lemma UpdateHolds(env: Env, s: System, s': System, proof: Bytes, next: BridgeHeader, addr: Key, owner: Key)
    requires BlockUpdateStep(env, s, proof, next, addr, owner) == Ok(s')
    requires s.bridge.header.finalized.nextIndex != next.finalized.nextIndex
    ensures LockAt(env, s.buffers, addr) == Ok(s'.buffers)
  {
  }

  lemma DrainedBalance(env: Env, s: System)
    requires SystemInvariant(env, s) && IsDrained(s.bridge.backlog)
    ensures multiset(s.history.minted) == AllActivated(s.history.activated)
    ensures s.history.committed == BlocksOf(s.history.activated)
  {
    DrainedIsIdle(env, s.bridge.backlog, s.buffers);
    assert StillOwed(s) == [];
  }

  lemma Reassociate(a: multiset<PendingMint>, b: multiset<PendingMint>, c: multiset<PendingMint>)
    ensures a + b + c == a + (b + c)
  {
  }

  lemma {:induction false} SplitActivations(acts: seq<Activation>, more: seq<Activation>)
    ensures AllActivated(acts + more) == AllActivated(acts) + AllActivated(more)
    decreases |more|
  {
    if |more| == 0 {
      assert acts + more == acts;
    } else {
      var n := |more| - 1;
      SplitActivations(acts, more[..n]);
      ConcatLast(acts, more);
      LastActivation(acts + more);
      LastActivation(more);
      Reassociate(AllActivated(acts), AllActivated(more[..n]), multiset(more[n].mints));
    }
  }

  lemma ConcatLast(a: seq<Activation>, b: seq<Activation>)
    requires |b| > 0
    ensures (a + b)[..|a + b| - 1] == a + b[..|b| - 1] && (a + b)[|a + b| - 1] == b[|b| - 1]
  {
  }

  lemma LastActivation(acts: seq<Activation>)
    requires |acts| > 0
    ensures AllActivated(acts) == AllActivated(acts[..|acts| - 1]) + multiset(acts[|acts| - 1].mints)
  {
  }

  function ListsOf(acts: seq<Activation>): (lists: seq<seq<PendingMint>>)
    ensures |lists| == |acts| && forall i :: 0 <= i < |acts| ==> lists[i] == acts[i].mints
  {
    seq(|acts|, i requires 0 <= i < |acts| => acts[i].mints)
  }

  lemma {:induction false} TogetherActivated(acts: seq<Activation>)
    ensures Together(ListsOf(acts)) == AllActivated(acts)
  {
    if |acts| > 0 {
      var n := |acts| - 1;
      assert ListsOf(acts)[..n] == ListsOf(acts[..n]);
      TogetherActivated(acts[..n]);
    }
  }

  /**
   From one drained state to a later one: exactly the lists activated in between were minted, and
   they open the blocks committed in between.
   */
  lemma MintedInBetween(env: Env, s: System, s': System) returns (lists: seq<seq<PendingMint>>)
    requires SystemInvariant(env, s) && IsDrained(s.bridge.backlog) && SystemInvariant(env, s')
    requires IsDrained(s'.bridge.backlog)
    requires s.history.activated <= s'.history.activated
    ensures s.history.committed <= s'.history.committed
    ensures lists == ListsOf(s'.history.activated[|s.history.activated|..])
    ensures Opens(env.h, s'.history.committed[|s.history.committed|..], lists)
    ensures multiset(s'.history.minted) == multiset(s.history.minted) + Together(lists)
  {
    var acts, more := s.history.activated, s'.history.activated[|s.history.activated|..];
    lists := ListsOf(more);
    DrainedBalance(env, s);
    DrainedBalance(env, s');
    BlocksPrefix(acts, s'.history.activated);
    SplitActivations(acts, more);
    TogetherActivated(more);
    NewListsOpen(env.h, s'.history.activated, |acts|);
  }

  lemma BlocksPrefix(acts: seq<Activation>, acts': seq<Activation>)
    requires acts <= acts'
    ensures acts' == acts + acts'[|acts|..] && BlocksOf(acts) <= BlocksOf(acts')
  {
  }

  lemma NewListsOpen(h: Hash, acts: seq<Activation>, k: nat)
    requires AllFaithful(h, acts) && k <= |acts|
    ensures Opens(h, BlocksOf(acts)[k..], ListsOf(acts[k..]))
  {
    forall i | 0 <= i < |acts| - k
      ensures |ListsOf(acts[k..])[i]| <= U16_MAX
      ensures MintsHash(h, ListsOf(acts[k..])[i]) == BlocksOf(acts)[k..][i].info.mintsHash
    {
      assert IsFaithful(h, acts[k + i]);
    }
  }

  lemma AllCommittedActivated(env: Env, s: System)
    requires SystemInvariant(env, s) && Waiting(env.h, s.bridge.backlog) == []
    ensures |s.history.committed| == |s.history.activated|
  {
  }

  lemma OneList(acts: seq<Activation>, k: nat)
    requires |acts| == k + 1
    ensures Together(ListsOf(acts[k..])) == multiset(acts[k].mints)
  {
    var lists := ListsOf(acts[k..]);
    assert lists[..0] == [] && Together([]) == multiset{};
  }

  lemma UpdateAsStep(env: Env, s: System, proof: Bytes, next: BridgeHeader, addr: Key, owner: Key)
    ensures StepOf(env, s, BlockUpdate(proof, next, addr, owner)) == BlockUpdateStep(env, s, proof, next, addr, owner)
  {
  }

  /** Upload both lists and update the header: the block is active and nothing is stuck. */
  lemma LoadBlock(env: Env, s: System, proof: Bytes, next: BridgeHeader, addr: Key, owner: Key, ms: seq<PendingMint>,
          xs: seq<u32>)
    returns (ops: seq<Operation>)
    requires Sound(env) && SystemInvariant(env, s) && IsDrained(s.bridge.backlog) && IsBridgeBuffer(env, s, addr)
    requires ProvedNext(env, s.bridge, proof, next, ms, xs) && AllPayable(env, ms) && addr == env.bufferOf(owner)
    ensures IsRun(env, s, ops)
    ensures var s' := RunOf(env, s, ops);
            && SystemInvariant(env, s') && s'.bridge.header == next && IsBridgeBuffer(env, s', addr)
            && !IsStuck(env, s')
            && Waiting(env.h, s'.bridge.backlog) == [] && Adds(s.history.activated, s'.history.activated, ms)
  {
    DrainedIsIdle(env, s.bridge.backlog, s.buffers);
    var up := UploadBoth(env, s, addr, owner, ms, next.finalized.height, Indices.IndexBytes(xs));
    var s1 := RunOf(env, s, up);
    RunKeepsSystemInvariant(env, s, up);
    UpdateSucceeds(env, s1, proof, next, addr, owner, ms, xs);
    var op := BlockUpdate(proof, next, addr, owner);
    UpdateAsStep(env, s1, proof, next, addr, owner);
    var s2 := StepOf(env, s1, op).value;
    UpdateActivates(env, s1, s2, proof, next, addr, owner, ms, xs);
    LoadedIsFree(env, s2.bridge.backlog, next.finalized.height,
        [Info(next.finalized.mintsHash, next.finalized.txoHash)], 0, ms);
    UpdateKeepsBuffer(env, s1, s2, proof, next, addr, owner);
    StepKeepsInvariant(env, s1, op);
    OneStep(env, s1, op);
    RunsConcat(env, s, up, [op]);
    ops := up + [op];
  }

  /**
   From any drained state, every block of at most 6144 mints that a proved header commits to
   can be brought in and minted if each of its groups can be paid: some run ends drained under
   that header and mints, on top of what was minted before, exactly the records of the list.
   */
  lemma BlockIsMinted(env: Env, s: System, proof: Bytes, next: BridgeHeader, addr: Key, owner: Key,
          ms: seq<PendingMint>, xs: seq<u32>)
    returns (ops: seq<Operation>)
    requires Sound(env) && SystemInvariant(env, s) && IsDrained(s.bridge.backlog) && IsBridgeBuffer(env, s, addr)
    requires ProvedNext(env, s.bridge, proof, next, ms, xs) && AllPayable(env, ms) && addr == env.bufferOf(owner)
    ensures IsRun(env, s, ops)
    ensures var s' := RunOf(env, s, ops);
            && IsDrained(s'.bridge.backlog) && s'.bridge.header == next
            && multiset(s'.history.minted) == multiset(s.history.minted) + multiset(ms)
  {
    var load := LoadBlock(env, s, proof, next, addr, owner, ms, xs);
    var s1 := RunOf(env, s, load);
    var drain := DrainRun(env, s1, addr, owner);
    var s2 := RunOf(env, s1, drain);
    RunKeepsSystemInvariant(env, s1, drain);
    RunsConcat(env, s, load, drain);
    ops := load + drain;
    OnlyOneBlock(env, s, s1, s2, ms);
  }

  lemma OnlyOneBlock(env: Env, s: System, s1: System, s2: System, ms: seq<PendingMint>)
    requires SystemInvariant(env, s) && IsDrained(s.bridge.backlog)
    requires SystemInvariant(env, s1) && Waiting(env.h, s1.bridge.backlog) == []
    requires Adds(s.history.activated, s1.history.activated, ms)
    requires SystemInvariant(env, s2) && IsDrained(s2.bridge.backlog) && OnlyClaims(s1, s2)
    ensures multiset(s2.history.minted) == multiset(s.history.minted) + multiset(ms)
  {
    AllCommittedActivated(env, s1);
    DrainedBalance(env, s2);
    assert s2.history.activated == s1.history.activated;
    var lists := MintedInBetween(env, s, s2);
    OneList(s2.history.activated, |s.history.activated|);
  }

  /** A block with a group that no mint can pay is stuck as soon as it is loaded. */
  lemma UnpayableBlockIsStuck(env: Env, s: System, s': System, proof: Bytes, next: BridgeHeader, addr: Key,
          owner: Key, ms: seq<PendingMint>, xs: seq<u32>)
    requires Sound(env) && SystemInvariant(env, s) && ProvedNext(env, s.bridge, proof, next, ms, xs)
    requires HoldsList(env, s, addr, ms)
    requires BlockUpdateStep(env, s, proof, next, addr, owner) == Ok(s')
    ensures IsStuck(env, s') <==> !AllPayable(env, ms)
  {
    UpdateActivates(env, s, s', proof, next, addr, owner, ms, xs);
    if AllPayable(env, ms) {
      LoadedIsFree(env, s'.bridge.backlog, next.finalized.height,
          [Info(next.finalized.mintsHash, next.finalized.txoHash)], 0, ms);
    } else {
      var g: nat :| g < GroupCount(|ms|) && !Payable(env, Group(ms, g));
      assert UnpayableAt(env, s'.bridge.backlog, ms, g);
    }
  }

  /** The same from a bridge that was only just initialized: its signer sets up a buffer first. */
  lemma FirstBlockIsMinted(env: Env, s0: System, proof: Bytes, next: BridgeHeader, owner: Key, ms: seq<PendingMint>,
          xs: seq<u32>)
    returns (ops: seq<Operation>)
    requires Sound(env) && IsInitial(env, s0) && ProvedNext(env, s0.bridge, proof, next, ms, xs) && AllPayable(env, ms)
    ensures IsRun(env, s0, ops)
    ensures var s' := RunOf(env, s0, ops);
            IsDrained(s'.bridge.backlog) && s'.bridge.header == next && multiset(s'.history.minted) == multiset(ms)
  {
    InitialInvariant(env, s0);
    var addr := env.bufferOf(owner);
    var setup := BufferInstruction(addr, Setup(env.bridge, owner));
    OneStep(env, s0, setup);
    StepKeepsInvariant(env, s0, setup);
    var s1 := Apply(env, s0, setup);
    var rest := BlockIsMinted(env, s1, proof, next, addr, owner, ms, xs);
    RunsConcat(env, s0, [setup], rest);
    ops := [setup] + rest;
  }

  // ---- A reorganization ----

  /**
   A proved header several blocks ahead. At most eight blocks are left from the first non-empty
   one on, the last one is not empty, the first one is opened by the two lists and every later
   non-empty one can be opened.
   */
  ghost predicate ProvedReorg(env: Env, b: Bridge, proof: Bytes, next: BridgeHeader, extra: seq<Info>,
          ms: seq<PendingMint>, xs: seq<u32>) {
    var f, g := b.header.finalized, next.finalized;
    var items := ReorgItems(extra, g);
    var first := NextNonEmpty(env.h, items, 0);
    && g.height == f.height + |items| < U32_MAX && next.tip.height > b.header.tip.height
    && g.nextIndex > f.nextIndex
    && first < |items| <= first + 8 && !IsEmptyInfo(env.h, items[|items| - 1])
    && OpensBlock(env.h, items[first], ms, xs) && AllPayable(env, ms)
    && (forall i :: first < i < |items| && !IsEmptyInfo(env.h, items[i]) ==> Openable(env, items[i]))
    && env.verifies(proof, true, ReorgTransitionInputs(env, b, next, extra))
  }

  lemma AppendAccepts(h: Hash, m: Manager, height: u32, items: seq<Info>, addr: Key, n: u16)
    requires IsDrained(m) && 0 < |items| <= 8 && !IsEmptyInfo(h, items[0])
    ensures AppendBlocks(h, m, height, items, addr, n, MintGroupInfo(n).0).Ok?
  {
    var m0 := Manager(items + m.infos[|items|..], 0, |items|, height, Tracker(addr, NO_BITS, 0, 0));
    assert m0.infos[..|items|] == items;
  }

  lemma LoadReorgSucceeds(env: Env, m: Manager, items: seq<Info>, first: nat, height: u32, addr: Key, mem: Bytes,
          owner: Key, txo: Txo.Account, ms: seq<PendingMint>, xs: seq<u32>)
    requires IsDrained(m) && first < |items| <= first + 8 && |items| - first - 1 <= height
    requires !IsEmptyInfo(env.h, items[first])
    requires OpensBlock(env.h, items[first], ms, xs)
    requires CheckMintBuffer(env.h, env.bridge, mem, items[first].mintsHash) == Ok(|ms|)
    requires HoldsOutputs(owner, txo, height - (|items| - first - 1), Indices.IndexBytes(xs))
    ensures LoadReorg(env, m, items, first, height, addr, mem, txo).Ok?
  {
    OutputsAccepted(env.h, owner, txo, height - (|items| - first - 1), xs);
    AppendAccepts(env.h, m, height - (|items| - first - 1), items[first..], addr, |ms|);
  }

  lemma ReorgTransitionSucceeds(env: Env, b: Bridge, proof: Bytes, next: BridgeHeader, extra: seq<Info>, addr: Key,
          mem: Bytes, owner: Key, txo: Txo.Account, ms: seq<PendingMint>, xs: seq<u32>)
    requires IsDrained(b.backlog) && ProvedReorg(env, b, proof, next, extra, ms, xs)
    requires var items := ReorgItems(extra, next.finalized);
             && CheckMintBuffer(env.h, env.bridge, mem, items[NextNonEmpty(env.h, items, 0)].mintsHash) == Ok(|ms|)
             && HoldsOutputs(owner, txo, next.finalized.height - (|items| - NextNonEmpty(env.h, items, 0) - 1),
                 Indices.IndexBytes(xs))
    ensures ReorgTransition(env, b, proof, next, extra, addr, mem, txo).Ok?
  {
    var items := ReorgItems(extra, next.finalized);
    LoadReorgSucceeds(env, b.backlog, items, NextNonEmpty(env.h, items, 0), next.finalized.height, addr, mem, owner,
        txo, ms, xs);
  }

  lemma ReorgAccepts(env: Env, s: System, locked: Buffers, proof: Bytes, next: BridgeHeader, extra: seq<Info>,
          addr: Key, owner: Key)
    requires addr == env.bufferOf(owner) && LockAt(env, s.buffers, addr) == Ok(locked) && TxoAt(s, owner).Buffer?
    requires s.bridge.header.finalized.nextIndex != next.finalized.nextIndex
    requires ReorgTransition(env, s.bridge, proof, next, extra, addr, MemoryAt(locked, addr), TxoAt(s, owner)).Ok?
    ensures ReorgStep(env, s, proof, next, extra, addr, owner).Ok?
    ensures ReorgStep(env, s, proof, next, extra, addr, owner).value.buffers == locked
  {
  }

  /** The height of the first block of a reorganization that carries deposits. */
  function FirstHeight(env: Env, next: BridgeHeader, extra: seq<Info>): int {
    var items := ReorgItems(extra, next.finalized);
    next.finalized.height - (|items| - NextNonEmpty(env.h, items, 0) - 1)
  }

  /** With the lists of its first block uploaded the reorganization is accepted. */
  lemma ReorgSucceeds(env: Env, s: System, proof: Bytes, next: BridgeHeader, extra: seq<Info>, addr: Key, owner: Key,
          ms: seq<PendingMint>, xs: seq<u32>)
    returns (s': System)
    requires Sound(env) && SystemInvariant(env, s) && IsDrained(s.bridge.backlog)
    requires ProvedReorg(env, s.bridge, proof, next, extra, ms, xs)
    requires HoldsList(env, s, addr, ms) && addr == env.bufferOf(owner)
    requires HoldsOutputs(owner, TxoAt(s, owner), FirstHeight(env, next, extra), Indices.IndexBytes(xs))
    ensures ReorgStep(env, s, proof, next, extra, addr, owner) == Ok(s')
    ensures LockAt(env, s.buffers, addr) == Ok(s'.buffers)
  {
    var locked := LockShows(env, s, addr, ms);
    ReorgTransitionSucceeds(env, s.bridge, proof, next, extra, addr, MemoryAt(locked, addr), owner, TxoAt(s, owner),
        ms, xs);
    ReorgAccepts(env, s, locked, proof, next, extra, addr, owner);
    s' := ReorgStep(env, s, proof, next, extra, addr, owner).value;
  }

  lemma ReorgBacklog(env: Env, s: System, s': System, proof: Bytes, next: BridgeHeader, extra: seq<Info>, addr: Key,
          owner: Key, ms: seq<PendingMint>, xs: seq<u32>)
    requires Sound(env) && SystemInvariant(env, s) && ProvedReorg(env, s.bridge, proof, next, extra, ms, xs)
    requires HoldsList(env, s, addr, ms)
    requires ReorgStep(env, s, proof, next, extra, addr, owner) == Ok(s')
    requires LockAt(env, s.buffers, addr) == Ok(s'.buffers)
    ensures Held(s') == ms && IsBridgeBuffer(env, s', addr) && s'.bridge.backlog.tracker.total == |ms|
  {
    ReorgParts(env, s, s', proof, next, extra, addr, owner);
    LockMeaning(env, s.buffers, addr);
    LockedMemory(env, s'.buffers, addr);
    ReorgLoads(env, s.bridge, proof, next, extra, addr, s'.buffers[addr].account, TxoAt(s, owner));
  }

  /** It loads its blocks, and nothing is stuck. */
  lemma ReorgActivates(env: Env, s: System, s': System, proof: Bytes, next: BridgeHeader, extra: seq<Info>,
          addr: Key, owner: Key, ms: seq<PendingMint>, xs: seq<u32>)
    requires Sound(env) && SystemInvariant(env, s) && ProvedReorg(env, s.bridge, proof, next, extra, ms, xs)
    requires HoldsList(env, s, addr, ms)
    requires ReorgStep(env, s, proof, next, extra, addr, owner) == Ok(s')
    requires LockAt(env, s.buffers, addr) == Ok(s'.buffers)
    requires SystemInvariant(env, s')
    ensures s'.bridge.header == next && IsBridgeBuffer(env, s', addr) && !IsStuck(env, s')
    ensures s'.history.committed == s.history.committed + NewBlocks(env, s.bridge, next, extra)
    ensures Adds(s.history.activated, s'.history.activated, ms)
  {
    ReorgBacklog(env, s, s', proof, next, extra, addr, owner, ms, xs);
    ReorgExtends(env, s, s', proof, next, extra, addr, owner);
    ReorgIsFree(env, s.bridge, s'.bridge.backlog, proof, next, extra, ms, xs);
    AddsLast(env, s', s.history.activated, ms);
  }

  lemma ReorgIsFree(env: Env, b: Bridge, m: Manager, proof: Bytes, next: BridgeHeader, extra: seq<Info>,
          ms: seq<PendingMint>, xs: seq<u32>)
    requires ProvedReorg(env, b, proof, next, extra, ms, xs) && m.tracker.total == |ms|
    requires var items := ReorgItems(extra, next.finalized);
             Loads(env.h, m, b.header.finalized.height + 1, items, NextNonEmpty(env.h, items, 0))
    ensures !Stuck(env, m, ms)
  {
    var items := ReorgItems(extra, next.finalized);
    LoadedIsFree(env, m, b.header.finalized.height + 1, items, NextNonEmpty(env.h, items, 0), ms);
  }

  /** The activation added last is that of the active block. */
  lemma AddsLast(env: Env, s: System, acts: seq<Activation>, ms: seq<PendingMint>)
    requires SystemInvariant(env, s) && IsActive(s.bridge.backlog) && Held(s) == ms
    requires |s.history.activated| == |acts| + 1 && s.history.activated[..|acts|] == acts
    ensures Adds(acts, s.history.activated, ms)
  {
  }

  /** The blocks of a reorganization that carry deposits. */
  function NewBlocks(env: Env, b: Bridge, next: BridgeHeader, extra: seq<Info>): seq<Block> {
    Carrying(env.h, b.header.finalized.height + 1, ReorgItems(extra, next.finalized), 0)
  }

  /** The blocks are loaded: the first one is active with the list, and nothing is stuck. */
  ghost predicate BlocksLoaded(env: Env, s: System, s': System, next: BridgeHeader, extra: seq<Info>, addr: Key,
          ms: seq<PendingMint>) {
    && SystemInvariant(env, s') && s'.bridge.header == next && IsBridgeBuffer(env, s', addr) && !IsStuck(env, s')
    && s'.history.committed == s.history.committed + NewBlocks(env, s.bridge, next, extra)
    && Adds(s.history.activated, s'.history.activated, ms)
  }

  lemma ReorgAfterUpload(env: Env, s: System, proof: Bytes, next: BridgeHeader, extra: seq<Info>, addr: Key,
          owner: Key, ms: seq<PendingMint>, xs: seq<u32>)
    requires Sound(env) && SystemInvariant(env, s) && IsDrained(s.bridge.backlog)
    requires ProvedReorg(env, s.bridge, proof, next, extra, ms, xs)
    requires HoldsList(env, s, addr, ms) && addr == env.bufferOf(owner)
    requires HoldsOutputs(owner, TxoAt(s, owner), FirstHeight(env, next, extra), Indices.IndexBytes(xs))
    ensures var op := Reorg(proof, next, extra, addr, owner);
            Admissible(env, s, op) && BlocksLoaded(env, s, Apply(env, s, op), next, extra, addr, ms)
  {
    var op := Reorg(proof, next, extra, addr, owner);
    var s' := ReorgSucceeds(env, s, proof, next, extra, addr, owner, ms, xs);
    ReorgAsStep(env, s, s', op);
    ReorgAdmissible(env, s, op, ms, xs);
    StepKeepsInvariant(env, s, op);
    ReorgActivates(env, s, s', proof, next, extra, addr, owner, ms, xs);
  }

  lemma FirstHeightBounds(env: Env, b: Bridge, proof: Bytes, next: BridgeHeader, extra: seq<Info>,
          ms: seq<PendingMint>, xs: seq<u32>)
    requires ProvedReorg(env, b, proof, next, extra, ms, xs)
    ensures 0 < FirstHeight(env, next, extra) < U32_MAX
  {
  }

  /** Upload the lists of the first block and reorganize. */
  lemma LoadReorgBlocks(env: Env, s: System, proof: Bytes, next: BridgeHeader, extra: seq<Info>, addr: Key,
          owner: Key, ms: seq<PendingMint>, xs: seq<u32>)
    returns (ops: seq<Operation>)
    requires Sound(env) && SystemInvariant(env, s) && IsDrained(s.bridge.backlog) && IsBridgeBuffer(env, s, addr)
    requires ProvedReorg(env, s.bridge, proof, next, extra, ms, xs) && addr == env.bufferOf(owner)
    ensures IsRun(env, s, ops) && BlocksLoaded(env, s, RunOf(env, s, ops), next, extra, addr, ms)
  {
    DrainedIsIdle(env, s.bridge.backlog, s.buffers);
    FirstHeightBounds(env, s.bridge, proof, next, extra, ms, xs);
    var up := UploadBoth(env, s, addr, owner, ms, FirstHeight(env, next, extra), Indices.IndexBytes(xs));
    var s1 := RunOf(env, s, up);
    RunKeepsSystemInvariant(env, s, up);
    ReorgAfterUpload(env, s1, proof, next, extra, addr, owner, ms, xs);
    var op := Reorg(proof, next, extra, addr, owner);
    OneStep(env, s1, op);
    RunsConcat(env, s, up, [op]);
    ops := up + [op];
  }

  lemma ReorgAdmissible(env: Env, s: System, op: Operation, ms: seq<PendingMint>, xs: seq<u32>)
    requires op.Reorg? && ProvedReorg(env, s.bridge, op.proof, op.header, op.extra, ms, xs)
    ensures Admissible(env, s, op)
  {
  }

  lemma ReorgAsStep(env: Env, s: System, s': System, op: Operation)
    requires op.Reorg? && ReorgStep(env, s, op.proof, op.header, op.extra, op.addr, op.owner) == Ok(s')
    ensures StepOf(env, s, op) == Ok(s') && Apply(env, s, op) == s'
  {
  }

  /**
   From any drained state, a proved reorganization of up to eight blocks whose lists can be
   opened and paid can be brought in and minted: some run ends drained under its header and
   mints, on top of what was minted before, one list for each of its blocks with deposits that
   opens the block's commitment.
   */
  lemma ReorgIsMinted(env: Env, s: System, proof: Bytes, next: BridgeHeader, extra: seq<Info>, addr: Key, owner: Key,
          ms: seq<PendingMint>, xs: seq<u32>)
    returns (ops: seq<Operation>, lists: seq<seq<PendingMint>>)
    requires Sound(env) && SystemInvariant(env, s) && IsDrained(s.bridge.backlog) && IsBridgeBuffer(env, s, addr)
    requires ProvedReorg(env, s.bridge, proof, next, extra, ms, xs) && addr == env.bufferOf(owner)
    ensures IsRun(env, s, ops)
    ensures var s', blocks := RunOf(env, s, ops), NewBlocks(env, s.bridge, next, extra);
            && IsDrained(s'.bridge.backlog) && s'.bridge.header == next
            && s'.history.committed == s.history.committed + blocks
            && Opens(env.h, blocks, lists) && |lists| > 0 && lists[0] == ms
            && multiset(s'.history.minted) == multiset(s.history.minted) + Together(lists)
  {
    var load := LoadReorgBlocks(env, s, proof, next, extra, addr, owner, ms, xs);
    var s1 := RunOf(env, s, load);
    var drain := DrainRun(env, s1, addr, owner);
    var s2 := RunOf(env, s1, drain);
    RunKeepsSystemInvariant(env, s1, drain);
    RunsConcat(env, s, load, drain);
    ops := load + drain;
    lists := MintedInBetween(env, s, s2);
    FirstOfLists(s.history.activated, s1.history.activated, s2.history.activated, ms);
  }

  lemma FirstOfLists(a: seq<Activation>, b: seq<Activation>, c: seq<Activation>, ms: seq<PendingMint>)
    requires Adds(a, b, ms) && b <= c
    ensures |ListsOf(c[|a|..])| > 0 && ListsOf(c[|a|..])[0] == ms
  {
    assert c[|a|] == b[|a|];
  }
}
