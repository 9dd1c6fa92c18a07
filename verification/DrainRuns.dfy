/** A run that drains every backlog that is not stuck: upload the next block, claim its groups, go on. */
module DrainRuns {
  import opened Bytes
  import opened Hashing
  import opened Mints
  import opened MintBuffer
  import opened MintBufferRuns
  import opened Commitment
  import opened Tracker
  import opened Backlog
  import opened Bridge
  import opened System
  import opened Coupling
  import opened ExactlyOnce
  import opened Alignment
  import opened Runs
  import opened Drain
  import Txo = TxoBuffer
  import Indices = TxoIndices

  // ---- Putting runs together ----

  lemma {:induction false} RunsConcat(env: Env, s: System, xs: seq<Operation>, ys: seq<Operation>)
    requires IsRun(env, s, xs) && IsRun(env, RunOf(env, s, xs), ys)
    ensures IsRun(env, s, xs + ys) && RunOf(env, s, xs + ys) == RunOf(env, RunOf(env, s, xs), ys)
    decreases |xs|
  {
    if |xs| == 0 {
      assert xs + ys == ys;
    } else {
      assert (xs + ys)[0] == xs[0] && (xs + ys)[1..] == xs[1..] + ys;
      RunsConcat(env, Apply(env, s, xs[0]), xs[1..], ys);
    }
  }

  lemma OneStep(env: Env, s: System, op: Operation)
    requires Admissible(env, s, op)
    ensures IsRun(env, s, [op]) && RunOf(env, s, [op]) == Apply(env, s, op)
  {
    assert [op][1..] == [];
    assert IsRun(env, Apply(env, s, op), []);
    assert RunOf(env, Apply(env, s, op), []) == Apply(env, s, op);
  }

  function BufferOps(addr: Key, ix: seq<Instruction>): (ops: seq<Operation>)
    ensures |ops| == |ix|
  {
    if |ix| == 0 then [] else [BufferInstruction(addr, ix[0])] + BufferOps(addr, ix[1..])
  }

  ghost predicate ByOthers(env: Env, ix: seq<Instruction>) {
    forall i :: i in ix ==> !i.Setup? && i != Lock(env.bridge) && i != Unlock(env.bridge)
  }

  lemma {:induction false} RunBufferOps(env: Env, s: System, addr: Key, ix: seq<Instruction>)
    requires ByOthers(env, ix) && addr in s.buffers
    ensures IsRun(env, s, BufferOps(addr, ix))
    ensures RunOf(env, s, BufferOps(addr, ix))
            == s.(buffers := s.buffers[addr := MintBufferRuns.Run(env.h, s.buffers[addr], ix)])
    decreases |ix|
  {
    if |ix| == 0 {
      assert s.buffers[addr := s.buffers[addr]] == s.buffers;
    } else {
      assert ix[0] in ix;
      var op, ops := BufferInstruction(addr, ix[0]), BufferOps(addr, ix);
      var s1 := Apply(env, s, op);
      assert s1 == s.(buffers := s.buffers[addr := MintBufferRuns.Transact(env.h, s.buffers[addr], ix[0])]);
      assert ops[0] == op && ops[1..] == BufferOps(addr, ix[1..]);
      assert forall i :: i in ix[1..] ==> i in ix;
      RunBufferOps(env, s1, addr, ix[1..]);
      var m := MintBufferRuns.Run(env.h, s.buffers[addr], ix);
      assert s1.buffers[addr := m] == s.buffers[addr := m];
    }
  }

  function TxoOps(owner: Key, ix: seq<Txo.Instruction>): (ops: seq<Operation>)
    ensures |ops| == |ix|
  {
    if |ix| == 0 then [] else [TxoInstruction(owner, ix[0])] + TxoOps(owner, ix[1..])
  }

  lemma {:induction false} RunTxoOps(env: Env, s: System, owner: Key, ix: seq<Txo.Instruction>)
    requires owner in s.txos || |ix| > 0
    ensures IsRun(env, s, TxoOps(owner, ix))
    ensures RunOf(env, s, TxoOps(owner, ix)) == s.(txos := s.txos[owner := Txo.Run(owner, TxoAt(s, owner), ix)])
    decreases |ix|
  {
    if |ix| == 0 {
      assert s.txos[owner := s.txos[owner]] == s.txos;
    } else {
      var op, ops := TxoInstruction(owner, ix[0]), TxoOps(owner, ix);
      var s1 := Apply(env, s, op);
      assert s1 == s.(txos := s.txos[owner := Txo.Transact(owner, TxoAt(s, owner), ix[0])]);
      assert ops[0] == op && ops[1..] == TxoOps(owner, ix[1..]);
      RunTxoOps(env, s1, owner, ix[1..]);
      var a := Txo.Run(owner, TxoAt(s, owner), ix);
      assert s1.txos[owner := a] == s.txos[owner := a];
    }
  }

  // ---- Uploads ----

  function InsertOf(writer: Key, ms: seq<PendingMint>, g: nat): Instruction
    requires g < GroupCount(|ms|) && |ms| <= DRAINABLE_MINTS
  {
    Insert(writer, g, MintListBytes(Group(ms, g)), [])
  }

  function UploadOf(writer: Key, ms: seq<PendingMint>): seq<Instruction>
    requires |ms| <= DRAINABLE_MINTS
  {
    [Reinit(writer, |ms|, [])] + seq(GroupCount(|ms|), g requires 0 <= g < GroupCount(|ms|) => InsertOf(writer, ms, g))
  }

  lemma UploadOfIsUpload(env: Env, writer: Key, ms: seq<PendingMint>)
    requires |ms| <= DRAINABLE_MINTS
    ensures IsUpload(UploadOf(writer, ms), writer, ms, Upwards(0, GroupCount(|ms|)))
    ensures ByOthers(env, UploadOf(writer, ms))
  {
    var ix := UploadOf(writer, ms);
    assert |ix[1..]| == GroupCount(|ms|);
    assert forall g: nat :: g < GroupCount(|ms|) ==> ix[1..][g] == InsertOf(writer, ms, g);
  }

  ghost predicate IsBridgeBuffer(env: Env, s: System, addr: Key) {
    addr in s.buffers && s.buffers[addr].account.Buffer? && s.buffers[addr].account.header.locker == env.bridge
  }

  /** The buffer at addr holds the list, complete and unlocked. */
  ghost predicate HoldsList(env: Env, s: System, addr: Key, ms: seq<PendingMint>) {
    && IsBridgeBuffer(env, s, addr) && |ms| > 0
    && var a := s.buffers[addr].account;
       && Complete(env.h, a) && a.header.isLocked == 0
       && a.header.initialized == a.header.count == |ms| && MintsOf(a) == ms
  }

  lemma LayoutHoldsList(h: Hash, a: Account, ms: seq<PendingMint>)
    requires a.Buffer? && 0 < |ms| <= DRAINABLE_MINTS && a.body == Layout(h, ms)
    requires a.header.count == |ms| && a.header.groups == GroupCount(|ms|)
    ensures Complete(h, a) && MintsOf(a) == ms
  {
    LayoutParts(h, ms);
    ParseMintListBytes(ms);
  }

  lemma UploadMints(env: Env, s: System, addr: Key, ms: seq<PendingMint>) returns (ops: seq<Operation>)
    requires Sound(env) && BuffersWell(env, s.buffers) && NoneLocked(env, s.buffers) && IsBridgeBuffer(env, s, addr)
    requires 0 < |ms| <= DRAINABLE_MINTS
    ensures IsRun(env, s, ops) && HoldsList(env, RunOf(env, s, ops), addr, ms)
    ensures RunOf(env, s, ops) == s.(buffers := RunOf(env, s, ops).buffers)
  {
    var m := s.buffers[addr];
    var ix := UploadOf(m.account.header.writer, ms);
    UploadOfIsUpload(env, m.account.header.writer, ms);
    SmallSlotsSafe(ix[1..], |ms|, |m.account.body|);
    UploadDelivers(env.h, m, ix, ms);
    LayoutHoldsList(env.h, MintBufferRuns.Run(env.h, m, ix).account, ms);
    ops := BufferOps(addr, ix);
    RunBufferOps(env, s, addr, ix);
  }

  function ChunksOf(owner: Key, batch: u32, data: Bytes): seq<Txo.Instruction>
    requires |data| < 0x1_0000_0000
  {
    seq(Indices.ChunkCount(|data|), c requires 0 <= c < Indices.ChunkCount(|data|)
        => Indices.ChunkWrite(owner, batch, data, c))
  }

  lemma ChunksOfIsChunking(owner: Key, batch: u32, data: Bytes)
    requires |data| < 0x1_0000_0000
    ensures Indices.IsChunking(ChunksOf(owner, batch, data), owner, batch, data)
  {
    var ws := ChunksOf(owner, batch, data);
    forall c: nat | 900 * c < |data|
      ensures Indices.ChunkWrite(owner, batch, data, c) in ws
    {
      assert ws[c] == Indices.ChunkWrite(owner, batch, data, c);
    }
    forall i | i in ws
      ensures exists c: nat :: 900 * c < |data| && i == Indices.ChunkWrite(owner, batch, data, c)
    {
      var c: nat :| c < |ws| && ws[c] == i;
      assert 900 * c < |data| && i == Indices.ChunkWrite(owner, batch, data, c);
    }
  }

  /** The account holds exactly these bytes for the block at this height. */
  predicate HoldsOutputs(owner: Key, a: Txo.Account, height: u32, data: Bytes) {
    a.Buffer? && Txo.Owned(owner, a) && a.header.height == height && a.header.size == |data| && a.body == data
  }

  lemma UploadOpenedOutputs(env: Env, s: System, owner: Key, height: u32, data: Bytes) returns (ops: seq<Operation>)
    requires TxoAt(s, owner).Buffer? && Txo.Owned(owner, TxoAt(s, owner)) && |data| <= Txo.MAX_BODY
    ensures IsRun(env, s, ops) && HoldsOutputs(owner, TxoAt(RunOf(env, s, ops), owner), height, data)
    ensures RunOf(env, s, ops) == s.(txos := RunOf(env, s, ops).txos)
  {
    var a := TxoAt(s, owner);
    var batch := Txo.NextBatch(a.header.batch);
    var os := Txo.GrowthSteps(owner, batch, height, |a.body|, |data|);
    var close := Txo.SetDataLength(owner, |data|, false, batch, height, true, []);
    var ws := ChunksOf(owner, batch, data);
    ChunksOfIsChunking(owner, batch, data);
    Indices.ChunksArePieces(ws, owner, batch, data);
    Txo.UploadInAnyOrder(owner, a, batch, height, data, os, ws, close);
    ops := TxoOps(owner, os + ws + [close]);
    RunTxoOps(env, s, owner, os + ws + [close]);
  }

  lemma UploadOutputs(env: Env, s: System, owner: Key, height: u32, data: Bytes) returns (ops: seq<Operation>)
    requires TxosOwned(s.txos) && |data| <= Txo.MAX_BODY
    ensures IsRun(env, s, ops) && HoldsOutputs(owner, TxoAt(RunOf(env, s, ops), owner), height, data)
    ensures RunOf(env, s, ops) == s.(txos := RunOf(env, s, ops).txos)
  {
    var init := TxoInstruction(owner, Txo.Initialize(owner));
    OneStep(env, s, init);
    var s1 := Apply(env, s, init);
    Txo.TransactKeepsOwned(owner, TxoAt(s, owner), Txo.Initialize(owner));
    ops := UploadOpenedOutputs(env, s1, owner, height, data);
    RunsConcat(env, s, [init], ops);
    ops := [init] + ops;
  }

  // ---- Claims that succeed ----

  function Recipients(ms: seq<PendingMint>): (r: seq<Key>)
    ensures PaysTo(ms, r)
  {
    seq(|ms|, i requires 0 <= i < |ms| => ms[i].recipient)
  }

  lemma GroupLength(ms: seq<PendingMint>, g: nat)
    requires g < GroupCount(|ms|)
    ensures |Group(ms, g)| == GroupEnd(|ms|, g) - 24 * g <= 24
  {
    GroupBounds(|ms|, g);
  }

  lemma ClaimPasses(env: Env, s: System, m: Manager, addr: Key, g: u16, unlock: bool, recipients: seq<Key>, mint: Key)
    requires addr == m.tracker.account && Precheck(m, g, addr).Ok?
    requires Precheck(m, g, addr).value.canUnlock == unlock && Precheck(m, g, addr).value.size == |recipients|
    requires ReadMints(MemoryAt(s.buffers, addr), Precheck(m, g, addr).value.offset, recipients).Ok?
    requires unlock ==> UnlockAt(env, s.buffers, addr).Ok?
    ensures ClaimStep(env, s, m, false, addr, g, unlock, recipients, TokenCall(mint, true)).Ok?
            <==> AllOn(env, mint, recipients)
  {
  }

  lemma GroupReadable(h: Hash, a: Account, g: nat)
    requires Complete(h, a) && g < GroupCount(a.header.count) && 0 < a.header.count
    ensures var recipients := Recipients(Group(MintsOf(a), g));
            && |recipients| == GroupEnd(a.header.count, g) - 24 * g
            && ReadMints(Memory(a), 72 + 32 * GroupCount(a.header.count) + 960 * g, recipients).Ok?
  {
    GroupLength(MintsOf(a), g);
    ClaimReadsGroup(h, a, g, Recipients(Group(MintsOf(a), g)));
  }

  /** The checks of a claim of group g against the buffer of the active block. */
  lemma ClaimChecks(env: Env, m: Manager, a: Account, g: u16)
    requires IsActive(m) && Consistent(m.tracker) && HoldsCurrent(env, m, a) && EnsureCanClaim(m.tracker, g).Ok?
    ensures g < GroupCount(|MintsOf(a)|) && Precheck(m, g, m.tracker.account).Ok?
    ensures var c, recipients := Precheck(m, g, m.tracker.account).value, Recipients(Group(MintsOf(a), g));
            && c.canUnlock == (m.tracker.remaining == 1) && c.size == |recipients|
            && ReadMints(Memory(a), c.offset, recipients).Ok?
  {
    PrecheckAccepts(m, g, m.tracker.account);
    PrecheckMeaning(m, g, m.tracker.account);
    GroupReadable(env.h, a, g);
  }

  /**
   While a block is active, claiming any claimable group to its own recipients succeeds exactly
   if they are token accounts of the mint.
   */
  lemma ClaimSucceedsIff(env: Env, s: System, g: u16, mint: Key)
    requires Sound(env) && Coupled(env, s.bridge.backlog, s.buffers)
    requires IsActive(s.bridge.backlog) && EnsureCanClaim(s.bridge.backlog.tracker, g).Ok?
    ensures var m := s.bridge.backlog;
            var a := s.buffers[m.tracker.account].account;
            && g < GroupCount(|MintsOf(a)|)
            && (ClaimStep(env, s, m, false, m.tracker.account, g, m.tracker.remaining == 1,
                Recipients(Group(MintsOf(a), g)), TokenCall(mint, true)).Ok?
                <==> SameMint(env, mint, Group(MintsOf(a), g)))
  {
    var m := s.bridge.backlog;
    var addr := m.tracker.account;
    var a := s.buffers[addr].account;
    ClaimChecks(env, m, a, g);
    LockedMemory(env, s.buffers, addr);
    UnlockMeaning(env, s.buffers, addr);
    ClaimPasses(env, s, m, addr, g, m.tracker.remaining == 1, Recipients(Group(MintsOf(a), g)), mint);
    SameMintIff(env, mint, Group(MintsOf(a), g), Recipients(Group(MintsOf(a), g)));
  }

  /**
   With the buffer lockable and a group of ordinary size, advancing and claiming is claiming in
   the advanced state.
   */
  lemma AdvanceClaimsAlike(env: Env, s: System, m1: Manager, addr: Key, group: u16, unlock: bool,
          recipients: seq<Key>, token: TokenCall)
    requires m1.index < m1.count && LockAt(env, s.buffers, addr).Ok?
    requires Precheck(m1, group, addr).Ok? ==> Precheck(m1, group, addr).value.size <= 24
    ensures ClaimStep(env, s, m1, true, addr, group, unlock, recipients, token)
         == ClaimStep(env, Advanced(env, s, m1, addr), m1, false, addr, group, unlock, recipients, token)
  {
  }

  lemma GroupSizeAtMost24(m: Manager, g: u16, addr: Key)
    requires Precheck(m, g, addr).Ok?
    ensures Precheck(m, g, addr).value.size <= 24
  {
  }

  // ---- The next activation succeeds ----

  lemma {:induction false} OutputsAccepted(h: Hash, owner: Key, txo: Txo.Account, height: u32, xs: seq<u32>)
    requires HoldsOutputs(owner, txo, height, Indices.IndexBytes(xs)) && |xs| <= U16_MAX
    ensures |txo.body| == 4 * |xs| && CheckTxos(h, txo, |xs|, Indices.TxoHash(h, xs)).Ok?
  {
    assert txo.body[..4 * |xs|] == txo.body;
  }

  lemma ActivateAccepts(h: Hash, bridge: Key, m: Manager, addr: Key, mem: Bytes, txo: Txo.Account, n: u16)
    requires m.index < m.count && txo.Buffer? && txo.header.height == (m.start + m.index) % 0x1_0000_0000
    requires CheckMintBuffer(h, bridge, mem, m.infos[m.index].mintsHash) == Ok(n)
    requires CheckTxos(h, txo, n, m.infos[m.index].txoHash).Ok?
    ensures Activate(h, bridge, m, addr, mem, txo).Ok?
  {
  }

  lemma {:induction false} SetupSucceeds(env: Env, m: Manager, addr: Key, mem: Bytes, owner: Key, txo: Txo.Account,
          xs: seq<u32>)
    requires !IsDrained(m) && !IsActive(m) && NextItem(env.h, m) < m.count && m.start + m.count <= 0x1_0000_0000
    requires |xs| <= U16_MAX
    requires CheckMintBuffer(env.h, env.bridge, mem, m.infos[NextItem(env.h, m)].mintsHash) == Ok(|xs|)
    requires Indices.TxoHash(env.h, xs) == m.infos[NextItem(env.h, m)].txoHash
    requires HoldsOutputs(owner, txo, m.start + NextItem(env.h, m), Indices.IndexBytes(xs))
    ensures SetupNext(env.h, env.bridge, m, addr, mem, txo).Ok?
  {
    FastForwardMeaning(env.h, m);
    OutputsAccepted(env.h, owner, txo, m.start + NextItem(env.h, m), xs);
    ActivateAccepts(env.h, env.bridge, FastForward(env.h, m), addr, mem, txo, |xs|);
  }

  lemma ReadyToAdvance(env: Env, s: System, addr: Key, owner: Key, ms: seq<PendingMint>, xs: seq<u32>)
    requires Sound(env) && SystemInvariant(env, s) && NeedsAdvance(s.bridge.backlog)
    requires NextItem(env.h, s.bridge.backlog) < s.bridge.backlog.count
    requires OpensBlock(env.h, s.bridge.backlog.infos[NextItem(env.h, s.bridge.backlog)], ms, xs)
    requires HoldsList(env, s, addr, ms)
    requires HoldsOutputs(owner, TxoAt(s, owner), s.bridge.backlog.start + NextItem(env.h, s.bridge.backlog),
             Indices.IndexBytes(xs))
    ensures SetupNext(env.h, env.bridge, s.bridge.backlog, addr, MemoryAt(s.buffers, addr), TxoAt(s, owner)).Ok?
    ensures LockAt(env, s.buffers, addr).Ok?
  {
    LockedMemory(env, s.buffers, addr);
    CheckAcceptsExactlyItsList(env.h, env.bridge, s.buffers[addr].account,
        s.bridge.backlog.infos[NextItem(env.h, s.bridge.backlog)].mintsHash);
    SetupSucceeds(env, s.bridge.backlog, addr, MemoryAt(s.buffers, addr), owner, TxoAt(s, owner), xs);
  }

  lemma FirstGroupClaimable(t: Tracker, addr: Key, count: u16)
    requires t == Tracker(addr, NO_BITS, count, GroupCount(count)) && count > 0
    ensures EnsureCanClaim(t, 0).Ok?
  {
    FreshConsistent(addr, count);
    NoBitsMembers();
    TotalGroupsMeaning(t);
    ClaimableGroups(t, 0);
  }

  lemma AdvancedIsFresh(env: Env, s: System, addr: Key, txo: Txo.Account)
    requires Sound(env) && SystemInvariant(env, s) && txo.Buffer?
    requires SetupNext(env.h, env.bridge, s.bridge.backlog, addr, MemoryAt(s.buffers, addr), txo).Ok?
    requires LockAt(env, s.buffers, addr).Ok?
    ensures var m1 := SetupNext(env.h, env.bridge, s.bridge.backlog, addr, MemoryAt(s.buffers, addr), txo).value;
            IsActive(m1) && m1.tracker.total <= U16_MAX && FreshlyActive(m1, addr, m1.tracker.total)
                && m1.tracker.total > 0
  {
    AdvanceKeepsCoupled(env, s, addr, txo);
    LockMeaning(env, s.buffers, addr);
    LockedMemory(env, s.buffers, addr);
    SetupNextMeaning(env, s.bridge.backlog, addr, s.buffers[addr].account, txo);
  }

  lemma FirstClaimSucceeds(env: Env, s: System, m1: Manager, addr: Key, txo: Txo.Account, ms: seq<PendingMint>,
          mint: Key)
    returns (recipients: seq<Key>)
    requires Sound(env) && SystemInvariant(env, s) && txo.Buffer? && LockAt(env, s.buffers, addr).Ok?
    requires SetupNext(env.h, env.bridge, s.bridge.backlog, addr, MemoryAt(s.buffers, addr), txo) == Ok(m1)
    requires HoldsList(env, s, addr, ms) && SameMint(env, mint, Group(ms, 0))
    ensures ClaimStep(env, s, m1, true, addr, 0, m1.tracker.remaining == 1, recipients, TokenCall(mint, true)).Ok?
  {
    AdvanceKeepsCoupled(env, s, addr, txo);
    AdvancedIsFresh(env, s, addr, txo);
    FirstGroupClaimable(m1.tracker, addr, m1.tracker.total);
    var s1 := Advanced(env, s, m1, addr);
    LockMeaning(env, s.buffers, addr);
    assert MintsOf(s1.buffers[addr].account) == ms;
    ClaimSucceedsIff(env, s1, 0, mint);
    recipients := Recipients(Group(ms, 0));
    if Precheck(m1, 0, addr).Ok? {
      GroupSizeAtMost24(m1, 0, addr);
    }
    AdvanceClaimsAlike(env, s, m1, addr, 0, m1.tracker.remaining == 1, recipients, TokenCall(mint, true));
  }

  lemma AutoAdvancePasses(env: Env, s: System, m1: Manager, addr: Key, owner: Key, group: u16, unlock: bool,
          recipients: seq<Key>, token: TokenCall)
    requires NeedsAdvance(s.bridge.backlog) && TxoAt(s, owner).Buffer?
    requires SetupNext(env.h, env.bridge, s.bridge.backlog, addr, MemoryAt(s.buffers, addr), TxoAt(s, owner)) == Ok(m1)
    requires ClaimStep(env, s, m1, true, addr, group, unlock, recipients, token).Ok?
    ensures AutoAdvanceStep(env, s, addr, owner, group, unlock, recipients, token).Ok?
  {
  }

  /** After the uploads some auto-advance succeeds. */
  lemma AdvanceSucceeds(env: Env, s: System, addr: Key, owner: Key, ms: seq<PendingMint>, mint: Key)
    returns (unlock: bool, recipients: seq<Key>)
    requires Sound(env) && SystemInvariant(env, s) && NeedsAdvance(s.bridge.backlog) && TxoAt(s, owner).Buffer?
    requires SetupNext(env.h, env.bridge, s.bridge.backlog, addr, MemoryAt(s.buffers, addr), TxoAt(s, owner)).Ok?
    requires LockAt(env, s.buffers, addr).Ok? && HoldsList(env, s, addr, ms) && SameMint(env, mint, Group(ms, 0))
    ensures AutoAdvanceStep(env, s, addr, owner, 0, unlock, recipients, TokenCall(mint, true)).Ok?
  {
    var m1 := SetupNext(env.h, env.bridge, s.bridge.backlog, addr, MemoryAt(s.buffers, addr), TxoAt(s, owner)).value;
    unlock := m1.tracker.remaining == 1;
    recipients := FirstClaimSucceeds(env, s, m1, addr, TxoAt(s, owner), ms, mint);
    AutoAdvancePasses(env, s, m1, addr, owner, 0, unlock, recipients, TokenCall(mint, true));
  }

  lemma AutoAdvanceAsStep(env: Env, s: System, addr: Key, owner: Key, group: u16, unlock: bool, recipients: seq<Key>,
          token: TokenCall)
    ensures StepOf(env, s, AutoAdvance(addr, owner, group, unlock, recipients, token))
         == AutoAdvanceStep(env, s, addr, owner, group, unlock, recipients, token)
  {
  }

  // ---- One round: some uploads, then a claim ----

  lemma ClaimKeepsBuffer(env: Env, s: System, m: Manager, advanced: bool, target: Key, group: u16, unlock: bool,
          recipients: seq<Key>, token: TokenCall, addr: Key)
    requires IsBridgeBuffer(env, s, addr)
    requires ClaimStep(env, s, m, advanced, target, group, unlock, recipients, token).Ok?
    ensures IsBridgeBuffer(env, ClaimStep(env, s, m, advanced, target, group, unlock, recipients, token).value, addr)
  {
  }

  lemma AutoAdvanceKeepsBuffer(env: Env, s: System, op: Operation, addr: Key)
    requires IsBridgeBuffer(env, s, addr) && op.AutoAdvance? && StepOf(env, s, op).Ok?
    ensures IsBridgeBuffer(env, StepOf(env, s, op).value, addr)
  {
    var m := s.bridge.backlog;
    if NeedsAdvance(m) {
      var m1 := AutoAdvanceParts(env, s, StepOf(env, s, op).value, op.addr, op.owner, op.group, op.unlock,
          op.recipients, op.token);
      ClaimKeepsBuffer(env, s, m1, true, op.addr, op.group, op.unlock, op.recipients, op.token, addr);
    } else {
      ClaimKeepsBuffer(env, s, m, false, op.addr, op.group, op.unlock, op.recipients, op.token, addr);
    }
  }

  lemma ClaimStaysFree(env: Env, m: Manager, m': Manager, held: seq<PendingMint>, held': seq<PendingMint>, g: nat)
    requires !Stuck(env, m, held) && !IsDrained(m) && IsActive(m) && m.index < m.count && ClaimedGroup(m, m', g)
    requires IsActive(m') ==> held' == held
    ensures !Stuck(env, m', held')
  {
    forall i: nat
      ensures !BlockedAt(env, m', i)
    {
      assert !BlockedAt(env, m, i);
    }
    forall k: nat
      ensures !UnpayableAt(env, m', held', k)
    {
      assert !UnpayableAt(env, m, held, k);
    }
  }

  lemma MoveStaysFree(env: Env, m: Manager, m1: Manager, held: seq<PendingMint>, held1: seq<PendingMint>)
    requires !Stuck(env, m, held) && MovesOn(env.h, m, m1) && m1.tracker.total <= DRAINABLE_MINTS
    requires AllPayable(env, held1)
    ensures !Stuck(env, m1, held1)
  {
    forall i: nat
      ensures !BlockedAt(env, m1, i)
    {
      assert !BlockedAt(env, m, i);
    }
  }

  /** A backlog that is idle and not stuck has a next block, and lists that open it. */
  lemma NextIsOpenable(env: Env, m: Manager, held: seq<PendingMint>) returns (ms: seq<PendingMint>, xs: seq<u32>)
    requires NeedsAdvance(m) && !Stuck(env, m, held)
    ensures NextItem(env.h, m) < m.count && OpensBlock(env.h, m.infos[NextItem(env.h, m)], ms, xs)
    ensures AllPayable(env, ms)
  {
    var j := NextItem(env.h, m);
    assert m.infos[..m.count][m.count - 1] == m.infos[m.count - 1];
    assert m.infos[..m.count][j] == m.infos[j];
    assert !BlockedAt(env, m, j);
    ms, xs :| OpensBlock(env.h, m.infos[j], ms, xs) && AllPayable(env, ms);
  }

  /** No new block was committed, and activations were only added. */
  ghost predicate OnlyClaims(s: System, s': System) {
    && s'.bridge.header == s.bridge.header
    && s'.history.committed == s.history.committed
    && s.history.activated <= s'.history.activated
  }

  /** What a round leaves behind. */
  ghost predicate Progress(env: Env, s: System, s': System, addr: Key, owner: Key) {
    && SystemInvariant(env, s') && IsBridgeBuffer(env, s', addr) && OnlyClaims(s, s')
    && !IsStuck(env, s') && Lower(s.bridge.backlog, s'.bridge.backlog)
  }

  /** Of a block that is not stuck every claimable group can be paid on some mint. */
  lemma ClaimablePayable(env: Env, s: System, g: u16) returns (mint: Key)
    requires SystemInvariant(env, s) && IsActive(s.bridge.backlog) && !IsStuck(env, s)
    requires EnsureCanClaim(s.bridge.backlog.tracker, g).Ok?
    ensures g < GroupCount(|Held(s)|) && SameMint(env, mint, Group(Held(s), g))
  {
    var t := s.bridge.backlog.tracker;
    TotalGroupsMeaning(t);
    ClaimableGroups(t, g);
    assert !UnpayableAt(env, s.bridge.backlog, Held(s), g);
    mint :| SameMint(env, mint, Group(Held(s), g));
  }

  lemma ActiveRound(env: Env, s: System, addr: Key, owner: Key) returns (op: Operation)
    requires Sound(env) && SystemInvariant(env, s) && IsBridgeBuffer(env, s, addr)
    requires IsActive(s.bridge.backlog) && !IsStuck(env, s)
    ensures Admissible(env, s, op) && Progress(env, s, Apply(env, s, op), addr, owner)
  {
    var m := s.bridge.backlog;
    var g := SomeGroupClaimable(m.tracker);
    var mint := ClaimablePayable(env, s, g);
    ClaimSucceedsIff(env, s, g, mint);
    var recipients := Recipients(Group(MintsOf(s.buffers[m.tracker.account].account), g));
    op := AutoAdvance(m.tracker.account, owner, g, m.tracker.remaining == 1, recipients, TokenCall(mint, true));
    StepKeepsInvariant(env, s, op);
    AutoAdvanceKeepsBuffer(env, s, op, addr);
    AutoAdvanceFrame(env, s, op.addr, op.owner, op.group, op.unlock, op.recipients, op.token);
    EveryClaimLowers(env, s, op);
    ActiveClaimKeepsHeld(env, s, Apply(env, s, op), m.tracker.account, g, m.tracker.remaining == 1, recipients,
        TokenCall(mint, true));
    ClaimStaysFree(env, m, Apply(env, s, op).bridge.backlog, Held(s), Held(Apply(env, s, op)), g);
  }

  lemma SetupTotal(env: Env, s: System, m1: Manager, addr: Key, txo: Txo.Account, ms: seq<PendingMint>)
    requires HoldsList(env, s, addr, ms) && txo.Buffer?
    requires SetupNext(env.h, env.bridge, s.bridge.backlog, addr, MemoryAt(s.buffers, addr), txo) == Ok(m1)
    ensures m1.tracker.total == |ms|
  {
    LockedMemory(env, s.buffers, addr);
    SetupNextMeaning(env, s.bridge.backlog, addr, s.buffers[addr].account, txo);
  }

  lemma AdvancedHeld(env: Env, s: System, m1: Manager, addr: Key, ms: seq<PendingMint>)
    requires Sound(env) && SystemInvariant(env, s) && HoldsList(env, s, addr, ms)
    requires m1.index < m1.count && m1.tracker.account == addr && LockAt(env, s.buffers, addr).Ok?
    ensures Held(Advanced(env, s, m1, addr)) == ms
  {
    LockMeaning(env, s.buffers, addr);
  }

  lemma AdvanceStaysFree(env: Env, s: System, s': System, m1: Manager, op: Operation, ms: seq<PendingMint>)
    requires Sound(env) && SystemInvariant(env, s) && !IsStuck(env, s) && op.AutoAdvance?
    requires HoldsList(env, s, op.addr, ms) && m1.tracker.total == |ms| <= DRAINABLE_MINTS && AllPayable(env, ms)
    requires MovesOn(env.h, s.bridge.backlog, m1) && TxoAt(s, op.owner).Buffer? && LockAt(env, s.buffers, op.addr).Ok?
    requires SetupNext(env.h, env.bridge, s.bridge.backlog, op.addr, MemoryAt(s.buffers, op.addr),
             TxoAt(s, op.owner)) == Ok(m1)
    requires ClaimStep(env, s, m1, true, op.addr, op.group, op.unlock, op.recipients, op.token) == Ok(s')
    ensures !IsStuck(env, s')
  {
    AdvanceKeeps(env, s, op.addr, TxoAt(s, op.owner));
    AdvanceThenClaim(env, s, m1, op.addr, op.group, op.unlock, op.recipients, op.token);
    var s1 := Advanced(env, s, m1, op.addr);
    AdvancedHeld(env, s, m1, op.addr, ms);
    MoveStaysFree(env, s.bridge.backlog, m1, Held(s), ms);
    ActiveClaimKeepsHeld(env, s1, s', op.addr, op.group, op.unlock, op.recipients, op.token);
    ClaimStaysFree(env, m1, s'.bridge.backlog, ms, Held(s'), op.group);
  }

  lemma AdvanceProgress(env: Env, s: System, op: Operation, addr: Key, owner: Key, ms: seq<PendingMint>)
    requires Sound(env) && SystemInvariant(env, s) && IsBridgeBuffer(env, s, addr)
    requires NeedsAdvance(s.bridge.backlog) && !IsStuck(env, s)
    requires HoldsList(env, s, addr, ms) && |ms| <= DRAINABLE_MINTS && AllPayable(env, ms)
    requires op.AutoAdvance? && op.addr == addr && op.owner == owner && StepOf(env, s, op).Ok?
    ensures Progress(env, s, Apply(env, s, op), addr, owner)
  {
    var s' := StepOf(env, s, op).value;
    StepKeepsInvariant(env, s, op);
    AutoAdvanceKeepsBuffer(env, s, op, addr);
    AutoAdvanceFrame(env, s, op.addr, op.owner, op.group, op.unlock, op.recipients, op.token);
    EveryClaimLowers(env, s, op);
    var m1 := AdvancingClaim(env, s, s', addr, owner, op.group, op.unlock, op.recipients, op.token);
    SetupTotal(env, s, m1, addr, TxoAt(s, owner), ms);
    AdvanceStaysFree(env, s, s', m1, op, ms);
  }

  /** Upload both lists of the next block. */
  lemma UploadBoth(env: Env, s: System, addr: Key, owner: Key, ms: seq<PendingMint>, height: u32, data: Bytes)
    returns (ops: seq<Operation>)
    requires Sound(env) && BuffersWell(env, s.buffers) && NoneLocked(env, s.buffers) && IsBridgeBuffer(env, s, addr)
    requires TxosOwned(s.txos) && 0 < |ms| <= DRAINABLE_MINTS && |data| <= Txo.MAX_BODY
    ensures IsRun(env, s, ops)
    ensures var s' := RunOf(env, s, ops);
            && s' == s.(buffers := s'.buffers, txos := s'.txos)
            && HoldsList(env, s', addr, ms) && HoldsOutputs(owner, TxoAt(s', owner), height, data)
            && IsBridgeBuffer(env, s', addr)
  {
    var up := UploadMints(env, s, addr, ms);
    var s1 := RunOf(env, s, up);
    var out := UploadOutputs(env, s1, owner, height, data);
    RunsConcat(env, s, up, out);
    ops := up + out;
  }

  /** Between blocks, uploads do not make a backlog stuck. */
  lemma UploadStaysFree(env: Env, s: System, s1: System)
    requires !IsStuck(env, s) && !IsActive(s.bridge.backlog) && s1.bridge == s.bridge
    ensures !IsStuck(env, s1)
  {
  }

  lemma IdleRound(env: Env, s: System, addr: Key, owner: Key) returns (ops: seq<Operation>)
    requires Sound(env) && SystemInvariant(env, s) && IsBridgeBuffer(env, s, addr)
    requires NeedsAdvance(s.bridge.backlog) && !IsStuck(env, s)
    ensures IsRun(env, s, ops) && Progress(env, s, RunOf(env, s, ops), addr, owner)
  {
    var m := s.bridge.backlog;
    var ms, xs := NextIsOpenable(env, m, Held(s));
    var up := UploadBoth(env, s, addr, owner, ms, m.start + NextItem(env.h, m), Indices.IndexBytes(xs));
    var s1 := RunOf(env, s, up);
    RunKeepsSystemInvariant(env, s, up);
    ReadyToAdvance(env, s1, addr, owner, ms, xs);
    assert Payable(env, Group(ms, 0));
    var mint :| SameMint(env, mint, Group(ms, 0));
    var unlock, recipients := AdvanceSucceeds(env, s1, addr, owner, ms, mint);
    var op := AutoAdvance(addr, owner, 0, unlock, recipients, TokenCall(mint, true));
    AutoAdvanceAsStep(env, s1, addr, owner, 0, unlock, recipients, TokenCall(mint, true));
    UploadStaysFree(env, s, s1);
    AdvanceProgress(env, s1, op, addr, owner, ms);
    OneStep(env, s1, op);
    RunsConcat(env, s, up, [op]);
    ops := up + [op];
  }

  // ---- The whole run ----

  /** A backlog that is not stuck is drained by some run. */
  lemma {:induction false} DrainRun(env: Env, s: System, addr: Key, owner: Key) returns (ops: seq<Operation>)
    requires Sound(env) && SystemInvariant(env, s) && IsBridgeBuffer(env, s, addr) && !IsStuck(env, s)
    ensures IsRun(env, s, ops) && IsDrained(RunOf(env, s, ops).bridge.backlog) && OnlyClaims(s, RunOf(env, s, ops))
    decreases BlocksLeft(s.bridge.backlog) + 1, s.bridge.backlog.tracker.remaining
  {
    var m := s.bridge.backlog;
    if IsDrained(m) {
      ops := [];
    } else {
      if IsActive(m) {
        var op := ActiveRound(env, s, addr, owner);
        OneStep(env, s, op);
        ops := [op];
      } else {
        ops := IdleRound(env, s, addr, owner);
      }
      var rest := DrainRun(env, RunOf(env, s, ops), addr, owner);
      RunsConcat(env, s, ops, rest);
      ops := ops + rest;
    }
  }

  ghost predicate DrainedBy(env: Env, s: System, ops: seq<Operation>) {
    IsRun(env, s, ops) && IsDrained(RunOf(env, s, ops).bridge.backlog)
  }

  /**
   A backlog can be drained exactly if its last block is not empty, its active block has at
   most 6144 mints and no unclaimed group that no mint can pay, and every later non-empty block
   opens to lists of at most 6144 entries whose groups can all be paid.
   */
  lemma DrainableIff(env: Env, s: System, addr: Key, owner: Key)
    requires Sound(env) && SystemInvariant(env, s) && IsBridgeBuffer(env, s, addr)
    ensures (exists ops :: DrainedBy(env, s, ops)) <==> !IsStuck(env, s)
  {
    if IsStuck(env, s) {
      forall ops | IsRun(env, s, ops)
        ensures !DrainedBy(env, s, ops)
      {
        StuckForever(env, s, ops);
      }
    } else {
      var ops := DrainRun(env, s, addr, owner);
      assert DrainedBy(env, s, ops);
    }
  }
}
