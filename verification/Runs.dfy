/** Every run of all programs together. */
module Runs {
  import opened Bytes
  import opened Hashing
  import opened Mints
  import opened MintBuffer
  import opened MintBufferRuns
  import opened Commitment
  import opened Tracker
  import opened Backlog
  import opened Headers
  import opened Bridge
  import opened System
  import opened Coupling
  import opened ExactlyOnce
  import opened Alignment
  import Txo = TxoBuffer

  ghost predicate SystemInvariant(env: Env, s: System) {
    && Coupled(env, s.bridge.backlog, s.buffers)
    && Accounted(s)
    && SystemAligned(env, s)
    && AllFaithful(env.h, s.history.activated)
    && PaidInKind(env, s.history)
    && TxosOwned(s.txos)
  }

  /** Every TXO buffer is its owner's. */
  ghost predicate TxosOwned(txos: map<Key, Txo.Account>) {
    forall owner :: owner in txos ==> Txo.Owned(owner, txos[owner])
  }

  // ---- One operation ----

  lemma BufferInstructionKeeps(env: Env, s: System, addr: Key, i: Instruction)
    requires Sound(env) && SystemInvariant(env, s) && i != Lock(env.bridge) && i != Unlock(env.bridge)
    ensures SystemInvariant(env,
            s.(buffers := s.buffers[addr := TransactAt(env.h, env.bufferOf, addr, AccountAt(s.buffers, addr), i)]))
  {
    BufferInstructionKeepsCoupled(env, s.bridge.backlog, s.buffers, addr, i);
    OtherBuffersKeep(env, s, s.buffers[addr := TransactAt(env.h, env.bufferOf, addr, AccountAt(s.buffers, addr), i)]);
  }

  /** Of the buffers only the active one matters beyond the coupling. */
  lemma OtherBuffersKeep(env: Env, s: System, buffers: Buffers)
    requires SystemInvariant(env, s) && Coupled(env, s.bridge.backlog, buffers)
    requires IsActive(s.bridge.backlog)
             ==> buffers[s.bridge.backlog.tracker.account] == s.buffers[s.bridge.backlog.tracker.account]
    ensures SystemInvariant(env, s.(buffers := buffers))
  {
    assert StillOwed(s.(buffers := buffers)) == StillOwed(s);
  }

  lemma TxoInstructionKeeps(env: Env, s: System, owner: Key, i: Txo.Instruction)
    requires SystemInvariant(env, s)
    ensures SystemInvariant(env, s.(txos := s.txos[owner := Txo.Transact(owner, TxoAt(s, owner), i)]))
  {
    var s' := s.(txos := s.txos[owner := Txo.Transact(owner, TxoAt(s, owner), i)]);
    Txo.TransactKeepsOwned(owner, TxoAt(s, owner), i);
    assert StillOwed(s') == StillOwed(s);
  }

  lemma BlockUpdateKeeps(env: Env, s: System, s': System, proof: Bytes, next: BridgeHeader, addr: Key, owner: Key)
    requires Sound(env) && SystemInvariant(env, s) && next.finalized.height < U32_MAX
    requires BlockUpdateStep(env, s, proof, next, addr, owner) == Ok(s')
    ensures SystemInvariant(env, s')
  {
    BlockUpdateMintsNothing(env, s, s', proof, next, addr, owner);
    BlockUpdateKeepsCoupled(env, s, proof, next, addr, owner);
    BlockUpdateKeepsAccounted(env, s, proof, next, addr, owner);
    BlockUpdateExtends(env, s, s', proof, next, addr, owner);
    ExtendKeepsAligned(env, s, s', [SingleItem(env, s.bridge.header.finalized, next.finalized)]);
  }

  /** A block update touches neither the TXO buffers nor the record of mints. */
  ghost predicate MintsNothing(s: System, s': System) {
    s'.txos == s.txos && s'.history.minted == s.history.minted && s'.history.paidOn == s.history.paidOn
  }

  lemma BlockUpdateMintsNothing(env: Env, s: System, s': System, proof: Bytes, next: BridgeHeader, addr: Key,
          owner: Key)
    requires BlockUpdateStep(env, s, proof, next, addr, owner) == Ok(s')
    ensures MintsNothing(s, s')
  {
  }

  lemma ReorgMintsNothing(env: Env, s: System, s': System, proof: Bytes, next: BridgeHeader, extra: seq<Info>,
          addr: Key, owner: Key)
    requires ReorgStep(env, s, proof, next, extra, addr, owner) == Ok(s')
    ensures MintsNothing(s, s')
  {
  }

  lemma ReorgKeeps(env: Env, s: System, s': System, proof: Bytes, next: BridgeHeader, extra: seq<Info>, addr: Key,
          owner: Key)
    requires Sound(env) && SystemInvariant(env, s) && next.finalized.height < U32_MAX
    requires IndexMovesWithDeposits(env, s, next, extra) && ReorgStep(env, s, proof, next, extra, addr, owner) == Ok(s')
    ensures SystemInvariant(env, s')
  {
    ReorgMintsNothing(env, s, s', proof, next, extra, addr, owner);
    ReorgCoupledIff(env, s, proof, next, extra, addr, owner);
    ReorgKeepsAccounted(env, s, proof, next, extra, addr, owner);
    ReorgExtends(env, s, s', proof, next, extra, addr, owner);
    ExtendKeepsAligned(env, s, s', ReorgItems(extra, next.finalized));
  }

  lemma ClaimKeeps(env: Env, s: System, addr: Key, group: u16, unlock: bool, recipients: seq<Key>, token: TokenCall)
    requires Sound(env) && SystemInvariant(env, s)
    requires ClaimStep(env, s, s.bridge.backlog, false, addr, group, unlock, recipients, token).Ok?
    ensures SystemInvariant(env,
            ClaimStep(env, s, s.bridge.backlog, false, addr, group, unlock, recipients, token).value)
  {
    var s' := ClaimStep(env, s, s.bridge.backlog, false, addr, group, unlock, recipients, token).value;
    ClaimKeepsCoupled(env, s, addr, group, unlock, recipients, token);
    ClaimMintsGroup(env, s, addr, group, unlock, recipients, token);
    ClaimKeepsTxos(env, s, s', addr, group, unlock, recipients, token);
    GroupMintedKeeps(env, s, s', addr, group, recipients, token.mint);
  }

  lemma ClaimKeepsTxos(env: Env, s: System, s': System, addr: Key, group: u16, unlock: bool, recipients: seq<Key>,
          token: TokenCall)
    requires ClaimStep(env, s, s.bridge.backlog, false, addr, group, unlock, recipients, token) == Ok(s')
    ensures s'.txos == s.txos
  {
  }

  lemma GroupMintedKeeps(env: Env, s: System, s': System, addr: Key, group: nat, recipients: seq<Key>, mint: Key)
    requires SystemInvariant(env, s) && Coupled(env, s'.bridge.backlog, s'.buffers) && s'.txos == s.txos
    requires GroupMinted(env, s, s', addr, group, recipients, mint)
    ensures SystemInvariant(env, s')
  {
    ClaimKeepsAccounted(env, s, s', addr, group, recipients, mint);
    ClaimKeepsAligned(env, s, s', addr, group, recipients, mint);
    ClaimPaysInKind(env, s, s', addr, group, recipients, mint);
  }

  lemma AdvanceKeeps(env: Env, s: System, addr: Key, txo: Txo.Account)
    requires Sound(env) && SystemInvariant(env, s) && txo.Buffer?
    requires SetupNext(env.h, env.bridge, s.bridge.backlog, addr, MemoryAt(s.buffers, addr), txo).Ok?
    requires LockAt(env, s.buffers, addr).Ok?
    ensures var m1 := SetupNext(env.h, env.bridge, s.bridge.backlog, addr, MemoryAt(s.buffers, addr), txo).value;
            m1.index < m1.count && SystemInvariant(env, Advanced(env, s, m1, addr))
  {
    AdvanceKeepsCoupled(env, s, addr, txo);
    AdvanceKeepsAccounted(env, s, addr, txo);
    AdvanceKeepsAligned(env, s, addr, txo);
    AdvanceIsFaithful(env, s, addr, txo);
  }

  lemma AutoAdvanceKeeps(env: Env, s: System, addr: Key, owner: Key, group: u16, unlock: bool, recipients: seq<Key>,
          token: TokenCall)
    requires Sound(env) && SystemInvariant(env, s)
    requires AutoAdvanceStep(env, s, addr, owner, group, unlock, recipients, token).Ok?
    ensures SystemInvariant(env, AutoAdvanceStep(env, s, addr, owner, group, unlock, recipients, token).value)
  {
    if NeedsAdvance(s.bridge.backlog) {
      var txo := TxoAt(s, owner);
      var m1 := SetupNext(env.h, env.bridge, s.bridge.backlog, addr, MemoryAt(s.buffers, addr), txo).value;
      ClaimNeedsLock(env, s, m1, addr, group, unlock, recipients, token);
      AdvanceKeeps(env, s, addr, txo);
      AdvanceThenClaim(env, s, m1, addr, group, unlock, recipients, token);
      ClaimKeeps(env, Advanced(env, s, m1, addr), addr, group, unlock, recipients, token);
    } else {
      ClaimKeeps(env, s, addr, group, unlock, recipients, token);
    }
  }

  lemma ClaimNeedsLock(env: Env, s: System, m: Manager, addr: Key, group: u16, unlock: bool, recipients: seq<Key>,
          token: TokenCall)
    requires ClaimStep(env, s, m, true, addr, group, unlock, recipients, token).Ok?
    ensures LockAt(env, s.buffers, addr).Ok?
  {
  }

  /** Only the accounts, the backlog, the finalized height and four logs matter to the invariant. */
  lemma InvariantFrame(env: Env, s: System, s': System)
    requires SystemInvariant(env, s)
    requires s'.buffers == s.buffers && s'.bridge.backlog == s.bridge.backlog && s'.bridge.header == s.bridge.header
    requires s'.history.minted == s.history.minted && s'.history.activated == s.history.activated
    requires s'.history.committed == s.history.committed && s'.history.paidOn == s.history.paidOn && s'.txos == s.txos
    ensures SystemInvariant(env, s')
  {
    assert StillOwed(s') == StillOwed(s);
  }

  lemma PaymentFrame(env: Env, s: System, op: Operation)
    requires (op.ManualDeposit? || op.Withdraw? || op.OperatorWithdraw?) && StepOf(env, s, op).Ok?
    ensures var s' := StepOf(env, s, op).value;
            && s'.buffers == s.buffers && s'.txos == s.txos
            && s'.bridge.backlog == s.bridge.backlog && s'.bridge.header == s.bridge.header
            && s'.history.minted == s.history.minted && s'.history.paidOn == s.history.paidOn
            && s'.history.activated == s.history.activated && s'.history.committed == s.history.committed
  {
  }

  /** Every admissible operation keeps the invariant. */
  lemma StepKeepsInvariant(env: Env, s: System, op: Operation)
    requires Sound(env) && SystemInvariant(env, s) && Admissible(env, s, op)
    ensures SystemInvariant(env, Apply(env, s, op))
  {
    if StepOf(env, s, op).Ok? {
      match op {
        case BufferInstruction(addr, i) => BufferInstructionKeeps(env, s, addr, i);
        case TxoInstruction(owner, i) => TxoInstructionKeeps(env, s, owner, i);
        case BlockUpdate(proof, header, addr, owner) =>
          BlockUpdateKeeps(env, s, StepOf(env, s, op).value, proof, header, addr, owner);
        case Reorg(proof, header, extra, addr, owner) =>
          ReorgKeeps(env, s, StepOf(env, s, op).value, proof, header, extra, addr, owner);
        case MintGroup(signer, addr, group, unlock, recipients, token) =>
          ClaimKeeps(env, s, addr, group, unlock, recipients, token);
        case AutoAdvance(addr, owner, group, unlock, recipients, token) =>
          AutoAdvanceKeeps(env, s, addr, owner, group, unlock, recipients, token);
        case Initialize(_, _, _, _, _) =>
        case _ =>
          PaymentFrame(env, s, op);
          InvariantFrame(env, s, StepOf(env, s, op).value);
      }
    }
  }

  // ---- Whole runs ----

  lemma {:induction false} RunKeepsSystemInvariant(env: Env, s: System, ops: seq<Operation>)
    requires Sound(env) && SystemInvariant(env, s) && IsRun(env, s, ops)
    ensures SystemInvariant(env, RunOf(env, s, ops))
    decreases |ops|
  {
    if |ops| > 0 {
      StepKeepsInvariant(env, s, ops[0]);
      RunKeepsSystemInvariant(env, Apply(env, s, ops[0]), ops[1..]);
    }
  }

  lemma InitialInvariant(env: Env, s: System)
    requires IsInitial(env, s)
    ensures SystemInvariant(env, s)
  {
    FreshConsistent(ZERO32, 0);
  }

  // ---- A second initialization ----

  /** No block is active or waits, and the new header is not below a block committed before. */
  ghost predicate MayInitialize(env: Env, s: System, first: BridgeHeader) {
    var m, log := s.bridge.backlog, s.history.committed;
    && !IsActive(m)
    && (forall i :: m.index <= i < m.count ==> IsEmptyInfo(env.h, m.infos[i]))
    && (|log| > 0 ==> log[|log| - 1].height <= first.finalized.height)
    && first.finalized.height < U32_MAX
  }

  /** Initialization forgets which buffer is locked: lock and tracker stay coupled exactly if no block is active. */
  lemma InitializeCoupledIff(env: Env, s: System, op: Operation)
    requires op.Initialize? && Coupled(env, s.bridge.backlog, s.buffers)
    ensures var s' := Apply(env, s, op);
            Coupled(env, s'.bridge.backlog, s'.buffers) <==> !IsActive(s.bridge.backlog)
  {
    FreshConsistent(ZERO32, 0);
  }

  lemma InitializeAlignedIff(env: Env, s: System, op: Operation)
    requires op.Initialize? && SystemAligned(env, s) && !IsActive(s.bridge.backlog)
    ensures SystemAligned(env, Apply(env, s, op)) <==> MayInitialize(env, s, op.first)
  {
    NothingWaitsIff(env.h, s.bridge.backlog);
  }

  /** The whole invariant outlives an initialization exactly if nothing was pending and the heights do not clash. */
  lemma InitializeKeepsInvariantIff(env: Env, s: System, op: Operation)
    requires op.Initialize? && SystemInvariant(env, s)
    ensures SystemInvariant(env, Apply(env, s, op)) <==> MayInitialize(env, s, op.first)
  {
    InitializeCoupledIff(env, s, op);
    if !IsActive(s.bridge.backlog) {
      InitializeAlignedIff(env, s, op);
    }
  }

  /** A run in which, besides, the bridge may be initialized again while nothing is pending. */
  ghost predicate IsLongRun(env: Env, s: System, ops: seq<Operation>)
    decreases |ops|
  {
    || |ops| == 0
    || ((Admissible(env, s, ops[0]) || (ops[0].Initialize? && MayInitialize(env, s, ops[0].first)))
        && IsLongRun(env, Apply(env, s, ops[0]), ops[1..]))
  }

  lemma {:induction false} LongRunKeepsInvariant(env: Env, s: System, ops: seq<Operation>)
    requires Sound(env) && SystemInvariant(env, s) && IsLongRun(env, s, ops)
    ensures SystemInvariant(env, RunOf(env, s, ops))
    decreases |ops|
  {
    if |ops| > 0 {
      if Admissible(env, s, ops[0]) {
        StepKeepsInvariant(env, s, ops[0]);
      } else {
        InitializeKeepsInvariantIff(env, s, ops[0]);
      }
      LongRunKeepsInvariant(env, Apply(env, s, ops[0]), ops[1..]);
    }
  }

  /** The invariant holds after every run from an initialized bridge. */
  lemma EveryRun(env: Env, s0: System, ops: seq<Operation>)
    requires Sound(env) && IsInitial(env, s0) && IsLongRun(env, s0, ops)
    ensures SystemInvariant(env, RunOf(env, s0, ops))
  {
    InitialInvariant(env, s0);
    LongRunKeepsInvariant(env, s0, ops);
  }

  /**
   After every run: the tracker is non-empty exactly if the bridge holds a lock; it then
   holds exactly one, on the buffer the tracker names, which is complete and stores the
   list committed for the current backlog item.
   */
  lemma TrackerMatchesLock(env: Env, s0: System, ops: seq<Operation>)
    requires Sound(env) && IsInitial(env, s0) && IsLongRun(env, s0, ops)
    ensures var s := RunOf(env, s0, ops);
            var m := s.bridge.backlog;
            && (forall x ::
                  x in s.buffers ==>
                    (IsLockedFor(env, s.buffers[x].account) <==> IsActive(m) && x == m.tracker.account))
            && (IsActive(m)
               ==> m.tracker.account in s.buffers && HoldsCurrent(env, m, s.buffers[m.tracker.account].account))
  {
    EveryRun(env, s0, ops);
  }

  /** After every run the counter is the number of unmarked groups, and only existing groups are marked. */
  lemma TrackerConsistentAlways(env: Env, s0: System, ops: seq<Operation>)
    requires Sound(env) && IsInitial(env, s0) && IsLongRun(env, s0, ops)
    ensures var t := RunOf(env, s0, ops).bridge.backlog.tracker;
            && t.remaining == GroupCount(t.total) - |Members(t.claimed)|
            && (forall g :: g in Members(t.claimed) ==> g < GroupCount(t.total))
            && (t.remaining == 0 <==> Members(t.claimed) == Below(GroupCount(t.total)))
  {
    EveryRun(env, s0, ops);
    var t := RunOf(env, s0, ops).bridge.backlog.tracker;
    TotalGroupsMeaning(t);
    RemainingZeroIffAllClaimed(t);
  }

  /**
   After every run: mints made and mints owed for the active block are together exactly the
   records of the activated lists, and the committed blocks are, in order of height, the
   activated ones followed by those that wait.
   */
  lemma MintedAndOwed(env: Env, s0: System, ops: seq<Operation>)
    requires Sound(env) && IsInitial(env, s0) && IsLongRun(env, s0, ops)
    ensures var s := RunOf(env, s0, ops);
            && multiset(s.history.minted) + multiset(StillOwed(s)) == AllActivated(s.history.activated)
            && s.history.committed == BlocksOf(s.history.activated) + Waiting(env.h, s.bridge.backlog)
            && AllFaithful(env.h, s.history.activated)
            && OrderedBelow(s.history.committed, s.bridge.header.finalized.height + 1)
  {
    EveryRun(env, s0, ops);
  }

  /** Item i of the backlog is the block at height start + i. */
  ghost predicate HeightsMatch(env: Env, s: System) {
    var m, acts := s.bridge.backlog, s.history.activated;
    && m.start + m.count - 1 == s.bridge.header.finalized.height
    && (IsActive(m)
       ==> m.index < m.count && |acts| > 0 && acts[|acts| - 1].block == Block(m.start + m.index, m.infos[m.index])
           && m.tracker.total == |acts[|acts| - 1].mints| > 0)
    && (forall i ::
          NextPosition(m) <= i < m.count && !IsEmptyInfo(env.h, m.infos[i])
          ==> Block(m.start + i, m.infos[i]) in s.history.committed)
  }

  lemma InvariantHeights(env: Env, s: System)
    requires SystemInvariant(env, s) && !IsDrained(s.bridge.backlog)
    ensures HeightsMatch(env, s)
  {
    WaitingIsCommitted(env.h, s.bridge.backlog, s.bridge.header.finalized.height, s.history.committed,
        s.history.activated);
  }

  /**
   While the backlog is not drained, its item i is the block at height start + i: the last one
   is the finalized one, the active one was activated last, the non-empty later ones were committed.
   */
  lemma BacklogHeights(env: Env, s0: System, ops: seq<Operation>)
    requires Sound(env) && IsInitial(env, s0) && IsLongRun(env, s0, ops)
    ensures !IsDrained(RunOf(env, s0, ops).bridge.backlog) ==> HeightsMatch(env, RunOf(env, s0, ops))
  {
    EveryRun(env, s0, ops);
    if !IsDrained(RunOf(env, s0, ops).bridge.backlog) {
      InvariantHeights(env, RunOf(env, s0, ops));
    }
  }

  // ---- When the backlog is drained ----

  /** Lists that open the commitments of the blocks. */
  ghost predicate Opens(h: Hash, blocks: seq<Block>, lists: seq<seq<PendingMint>>) {
    && |lists| == |blocks|
    && forall i :: 0 <= i < |blocks| ==> |lists[i]| <= U16_MAX && MintsHash(h, lists[i]) == blocks[i].info.mintsHash
  }

  function Together(lists: seq<seq<PendingMint>>): multiset<PendingMint> {
    if |lists| == 0 then multiset{} else Together(lists[..|lists| - 1]) + multiset(lists[|lists| - 1])
  }

  ghost predicate NoCollision(h: Hash, acts: seq<Activation>, lists: seq<seq<PendingMint>>) {
    && |acts| == |lists|
    && forall i :: 0 <= i < |acts| ==> CollisionFree(h, HashedForMints(h, acts[i].mints) + HashedForMints(h, lists[i]))
  }

  lemma {:induction false} OpeningsAreActivated(h: Hash, acts: seq<Activation>, lists: seq<seq<PendingMint>>)
    requires AllFaithful(h, acts) && Opens(h, BlocksOf(acts), lists) && NoCollision(h, acts, lists)
    ensures AllActivated(acts) == Together(lists)
    decreases |acts|
  {
    var n := |acts| - 1;
    if n >= 0 {
      assert IsFaithful(h, acts[n]) && BlocksOf(acts)[n] == acts[n].block;
      MintsHashBinding(h, acts[n].mints, lists[n]);
      assert BlocksOf(acts[..n]) == BlocksOf(acts)[..n];
      OpeningsAreActivated(h, acts[..n], lists[..n]);
    }
  }

  /**
   Whenever the backlog is drained, every committed block was activated once, in order, and
   the mints made are a permutation of the committed lists: for any lists that open the
   commitments, unless messages hashed for them collide.
   */
  lemma DrainedMintsExactlyOnce(env: Env, s0: System, ops: seq<Operation>, lists: seq<seq<PendingMint>>)
    requires Sound(env) && IsInitial(env, s0) && IsLongRun(env, s0, ops)
    requires IsDrained(RunOf(env, s0, ops).bridge.backlog)
    requires Opens(env.h, RunOf(env, s0, ops).history.committed, lists)
    requires NoCollision(env.h, RunOf(env, s0, ops).history.activated, lists)
    ensures var y := RunOf(env, s0, ops).history;
            && BlocksOf(y.activated) == y.committed
            && multiset(y.minted) == Together(lists)
  {
    EveryRun(env, s0, ops);
    var s := RunOf(env, s0, ops);
    assert s.history.committed == BlocksOf(s.history.activated);
    assert !IsActive(s.bridge.backlog);
    OpeningsAreActivated(env.h, s.history.activated, lists);
  }

  /** The records minted on one mint account. */
  function PaidIn(minted: seq<PendingMint>, paidOn: seq<Key>, mint: Key): seq<PendingMint>
    requires |minted| == |paidOn|
  {
    if |minted| == 0 then []
    else
      var n := |minted| - 1;
      PaidIn(minted[..n], paidOn[..n], mint) + if paidOn[n] == mint then [minted[n]] else []
  }

  lemma LastCounts(ms: seq<PendingMint>, r: PendingMint)
    requires |ms| > 0
    ensures var n := |ms| - 1;
            multiset(ms)[r] == multiset(ms[..n])[r] + if ms[n] == r then 1 else 0
  {
    assert ms == ms[..|ms| - 1] + [ms[|ms| - 1]];
  }

  lemma {:induction false} PaidInCounts(env: Env, minted: seq<PendingMint>, paidOn: seq<Key>, mint: Key, r: PendingMint)
    requires |minted| == |paidOn|
    requires forall i :: 0 <= i < |minted| ==> env.mintOf(minted[i].recipient) == Some(paidOn[i])
    ensures multiset(PaidIn(minted, paidOn, mint))[r]
         == if env.mintOf(r.recipient) == Some(mint) then multiset(minted)[r] else 0
    decreases |minted|
  {
    if |minted| > 0 {
      var n := |minted| - 1;
      PaidInCounts(env, minted[..n], paidOn[..n], mint, r);
      LastCounts(minted, r);
    }
  }

  /**
   Whenever the backlog is drained, each committed record was minted exactly once in the token of
   its recipient's account and in no other: in the bridge's own token exactly those records
   whose recipients hold it.
   */
  lemma DrainedPaysInKind(env: Env, s0: System, ops: seq<Operation>, lists: seq<seq<PendingMint>>, mint: Key,
          r: PendingMint)
    requires Sound(env) && IsInitial(env, s0) && IsLongRun(env, s0, ops)
    requires IsDrained(RunOf(env, s0, ops).bridge.backlog)
    requires Opens(env.h, RunOf(env, s0, ops).history.committed, lists)
    requires NoCollision(env.h, RunOf(env, s0, ops).history.activated, lists)
    ensures var y := RunOf(env, s0, ops).history;
            && |y.minted| == |y.paidOn|
            && multiset(PaidIn(y.minted, y.paidOn, mint))[r]
                == (if env.mintOf(r.recipient) == Some(mint) then Together(lists)[r] else 0)
            && (r in Together(lists) ==> env.mintOf(r.recipient).Some?)
  {
    EveryRun(env, s0, ops);
    DrainedMintsExactlyOnce(env, s0, ops, lists);
    AllPaidInKind(env, RunOf(env, s0, ops).history, mint, r);
  }

  lemma AllPaidInKind(env: Env, y: History, mint: Key, r: PendingMint)
    requires PaidInKind(env, y)
    ensures multiset(PaidIn(y.minted, y.paidOn, mint))[r]
            == (if env.mintOf(r.recipient) == Some(mint) then multiset(y.minted)[r] else 0)
    ensures r in multiset(y.minted) ==> env.mintOf(r.recipient).Some?
  {
    PaidInCounts(env, y.minted, y.paidOn, mint, r);
  }

  // ---- Heights ----

  /** A successful single-block update raises the finalized height exactly if it was not the largest u32. */
  lemma SingleUpdateRaisesHeightIff(env: Env, b: Bridge, b': Bridge, proof: Bytes, next: BridgeHeader, addr: Key,
          mem: Bytes, txo: Txo.Account)
    requires txo.Buffer? && SingleTransition(env, b, proof, next, addr, mem, txo) == Ok(b')
    ensures b'.header.finalized.height > b.header.finalized.height <==> b.header.finalized.height < U32_MAX
    ensures b'.header.tip.height > b.header.tip.height
  {
    TransitionHeights(env, b, b', proof, next, addr, mem, txo);
  }

  ghost predicate HigherHeader(a: BridgeHeader, b: BridgeHeader) {
    a.finalized.height < b.finalized.height && a.tip.height < b.tip.height
  }

  lemma BlockUpdateRaises(env: Env, s: System, s': System, proof: Bytes, next: BridgeHeader, addr: Key, owner: Key)
    requires Sound(env) && BuffersWell(env, s.buffers) && s.bridge.header.finalized.height < U32_MAX
    requires BlockUpdateStep(env, s, proof, next, addr, owner) == Ok(s')
    ensures HigherHeader(s.bridge.header, s'.bridge.header)
  {
    BlockUpdateShape(env, s, s', proof, next, addr, owner);
    var a := AccountAt(LockAt(env, s.buffers, addr).value, addr).account;
    TransitionHeights(env, s.bridge, s'.bridge, proof, next, addr, Memory(a), TxoAt(s, owner));
  }

  lemma ReorgRaises(env: Env, s: System, s': System, proof: Bytes, next: BridgeHeader, extra: seq<Info>, addr: Key,
          owner: Key)
    requires ReorgStep(env, s, proof, next, extra, addr, owner) == Ok(s')
    ensures HigherHeader(s.bridge.header, s'.bridge.header) && s'.bridge.ring == s.bridge.ring
  {
    ReorgParts(env, s, s', proof, next, extra, addr, owner);
    ReorgHeights(env, s.bridge, s'.bridge, proof, next, extra, addr,
        MemoryAt(LockAt(env, s.buffers, addr).value, addr), TxoAt(s, owner));
  }

  /** A claim touches only the backlog of the bridge's state. */
  lemma ClaimFrame(env: Env, s: System, m: Manager, advanced: bool, addr: Key, group: u16, unlock: bool,
          recipients: seq<Key>, token: TokenCall)
    requires ClaimStep(env, s, m, advanced, addr, group, unlock, recipients, token).Ok?
    ensures var s' := ClaimStep(env, s, m, advanced, addr, group, unlock, recipients, token).value;
            && s'.bridge == s.bridge.(backlog := s'.bridge.backlog)
            && s'.history == s.history.(minted := s'.history.minted, paidOn := s'.history.paidOn,
                activated := s'.history.activated, strayed := s'.history.strayed)
            && s.history.activated <= s'.history.activated
  {
  }

  /** Apart from block updates no operation touches the header or the ring of recent blocks. */
  lemma OthersKeepHeader(env: Env, s: System, op: Operation)
    requires !op.BlockUpdate? && !op.Reorg? && !op.Initialize?
    ensures var s' := Apply(env, s, op);
            s'.bridge.header == s.bridge.header && s'.bridge.ring == s.bridge.ring
                && s'.history.recorded == s.history.recorded
  {
    if StepOf(env, s, op).Ok? {
      match op {
        case MintGroup(signer, addr, group, unlock, recipients, token) =>
          ClaimFrame(env, s, s.bridge.backlog, false, addr, group, unlock, recipients, token);
        case AutoAdvance(addr, owner, group, unlock, recipients, token) =>
          AutoAdvanceFrame(env, s, addr, owner, group, unlock, recipients, token);
        case _ =>
      }
    }
  }

  lemma AutoAdvanceFrame(env: Env, s: System, addr: Key, owner: Key, group: u16, unlock: bool, recipients: seq<Key>,
          token: TokenCall)
    requires AutoAdvanceStep(env, s, addr, owner, group, unlock, recipients, token).Ok?
    ensures var s' := AutoAdvanceStep(env, s, addr, owner, group, unlock, recipients, token).value;
            && s'.bridge == s.bridge.(backlog := s'.bridge.backlog)
            && s'.history == s.history.(minted := s'.history.minted, paidOn := s'.history.paidOn,
                activated := s'.history.activated, strayed := s'.history.strayed)
            && s.history.activated <= s'.history.activated
  {
    var m := s.bridge.backlog;
    if NeedsAdvance(m) {
      var m1 := SetupNext(env.h, env.bridge, m, addr, MemoryAt(s.buffers, addr), TxoAt(s, owner)).value;
      ClaimFrame(env, s, m1, true, addr, group, unlock, recipients, token);
    } else {
      ClaimFrame(env, s, m, false, addr, group, unlock, recipients, token);
    }
  }

  lemma StepHeights(env: Env, s: System, op: Operation)
    requires Sound(env) && SystemInvariant(env, s) && !op.Initialize?
    ensures var after := Apply(env, s, op).bridge.header;
            after == s.bridge.header || HigherHeader(s.bridge.header, after)
  {
    if StepOf(env, s, op).Ok? {
      match op {
        case BlockUpdate(proof, header, addr, owner) =>
          BlockUpdateRaises(env, s, StepOf(env, s, op).value, proof, header, addr, owner);
        case Reorg(proof, header, extra, addr, owner) =>
          ReorgRaises(env, s, StepOf(env, s, op).value, proof, header, extra, addr, owner);
        case _ => OthersKeepHeader(env, s, op);
      }
    }
  }

  /** Over every run the header is replaced only by headers whose finalized and tip heights are both larger. */
  lemma {:induction false} HeightsRise(env: Env, s: System, ops: seq<Operation>)
    requires Sound(env) && SystemInvariant(env, s) && IsRun(env, s, ops)
    ensures var after := RunOf(env, s, ops).bridge.header;
            after == s.bridge.header || HigherHeader(s.bridge.header, after)
    decreases |ops|
  {
    if |ops| > 0 {
      StepKeepsInvariant(env, s, ops[0]);
      StepHeights(env, s, ops[0]);
      HeightsRise(env, Apply(env, s, ops[0]), ops[1..]);
    }
  }

  /** Initialization takes whatever header it is given; from there on the heights rise as before. */
  lemma HeightsSinceInitialize(env: Env, s: System, op: Operation, ops: seq<Operation>)
    requires Sound(env) && SystemInvariant(env, s) && op.Initialize? && MayInitialize(env, s, op.first)
    requires IsRun(env, Apply(env, s, op), ops)
    ensures var after := RunOf(env, s, [op] + ops).bridge.header;
            after == op.first || HigherHeader(op.first, after)
  {
    assert ([op] + ops)[1..] == ops;
    InitializeKeepsInvariantIff(env, s, op);
    HeightsRise(env, Apply(env, s, op), ops);
  }

  /** From every bridge above height zero some initialization lowers the height. */
  lemma InitializeCanLowerHeights(env: Env, s: System, op: Operation)
    requires s.bridge.header.finalized.height > 0
    requires op.Initialize? && op.first == s.bridge.header.(finalized := s.bridge.header.finalized.(height := 0))
    ensures Apply(env, s, op).bridge.header.finalized.height < s.bridge.header.finalized.height
  {
  }
}
