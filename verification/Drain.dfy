/** When a loaded backlog can be drained, and a run that drains it. */
module Drain {
  import opened Bytes
  import opened Hashing
  import opened Mints
  import opened MintBuffer
  import opened MintBufferRuns
  import opened Commitment
  import opened Tracker
  import opened Backlog
  import opened Bridge
  import opened System
  import opened Coupling
  import opened ExactlyOnce
  import opened Alignment
  import opened Runs
  import Txo = TxoBuffer
  import Indices = TxoIndices

  // ---- Every claim makes progress ----

  /** Twice the blocks left, less one for an active block. */
  function BlocksLeft(m: Manager): int {
    2 * (m.count - m.index) - if IsActive(m) then 1 else 0
  }

  predicate Lower(m: Manager, m': Manager) {
    || BlocksLeft(m') < BlocksLeft(m)
    || (BlocksLeft(m') == BlocksLeft(m) && m'.tracker.remaining < m.tracker.remaining)
  }

  predicate IsClaim(op: Operation) {
    op.MintGroup? || op.AutoAdvance?
  }

  lemma ClaimLowers(m: Manager, m': Manager, g: nat)
    requires IsActive(m) && m.index < m.count && ClaimedGroup(m, m', g)
    ensures Lower(m, m')
  {
  }

  lemma MoveThenClaimLowers(h: Hash, m: Manager, m1: Manager, m': Manager)
    requires MovesOn(h, m, m1) && Lower(m1, m')
    ensures Lower(m, m')
  {
  }

  // ---- What an accepted claim goes through ----

  lemma ActiveClaim(env: Env, s: System, addr: Key, group: u16, unlock: bool, recipients: seq<Key>, token: TokenCall)
    requires Sound(env) && SystemInvariant(env, s)
    requires ClaimStep(env, s, s.bridge.backlog, false, addr, group, unlock, recipients, token).Ok?
    ensures var s' := ClaimStep(env, s, s.bridge.backlog, false, addr, group, unlock, recipients, token).value;
            && IsActive(s.bridge.backlog) && s.bridge.backlog.index < s.bridge.backlog.count
            && ClaimedGroup(s.bridge.backlog, s'.bridge.backlog, group)
  {
    ClaimMintsGroup(env, s, addr, group, unlock, recipients, token);
  }

  lemma AutoAdvanceParts(env: Env, s: System, s': System, addr: Key, owner: Key, group: u16, unlock: bool,
          recipients: seq<Key>, token: TokenCall)
    returns (m1: Manager)
    requires NeedsAdvance(s.bridge.backlog)
    requires AutoAdvanceStep(env, s, addr, owner, group, unlock, recipients, token) == Ok(s')
    ensures TxoAt(s, owner).Buffer?
    ensures SetupNext(env.h, env.bridge, s.bridge.backlog, addr, MemoryAt(s.buffers, addr), TxoAt(s, owner)) == Ok(m1)
    ensures ClaimStep(env, s, m1, true, addr, group, unlock, recipients, token) == Ok(s')
  {
    m1 := SetupNext(env.h, env.bridge, s.bridge.backlog, addr, MemoryAt(s.buffers, addr), TxoAt(s, owner)).value;
  }

  lemma AdvancedClaim(env: Env, s: System, s': System, m1: Manager, addr: Key, txo: Txo.Account, group: u16,
          unlock: bool, recipients: seq<Key>, token: TokenCall)
    requires Sound(env) && SystemInvariant(env, s) && txo.Buffer? && LockAt(env, s.buffers, addr).Ok?
    requires SetupNext(env.h, env.bridge, s.bridge.backlog, addr, MemoryAt(s.buffers, addr), txo) == Ok(m1)
    requires ClaimStep(env, s, m1, true, addr, group, unlock, recipients, token) == Ok(s')
    ensures m1.index < m1.count && ClaimedGroup(m1, s'.bridge.backlog, group)
  {
    AdvanceKeeps(env, s, addr, txo);
    AdvanceThenClaim(env, s, m1, addr, group, unlock, recipients, token);
    ActiveClaim(env, Advanced(env, s, m1, addr), addr, group, unlock, recipients, token);
  }

  /** An accepted auto-advance from an idle backlog moves on to the next block and claims a group of it. */
  lemma AdvancingClaim(env: Env, s: System, s': System, addr: Key, owner: Key, group: u16, unlock: bool,
          recipients: seq<Key>, token: TokenCall)
    returns (m1: Manager)
    requires Sound(env) && SystemInvariant(env, s) && NeedsAdvance(s.bridge.backlog)
    requires AutoAdvanceStep(env, s, addr, owner, group, unlock, recipients, token) == Ok(s')
    ensures TxoAt(s, owner).Buffer?
    ensures SetupNext(env.h, env.bridge, s.bridge.backlog, addr, MemoryAt(s.buffers, addr), TxoAt(s, owner)) == Ok(m1)
    ensures LockAt(env, s.buffers, addr).Ok?
    ensures MovesOn(env.h, s.bridge.backlog, m1) && m1.index < m1.count && ClaimedGroup(m1, s'.bridge.backlog, group)
  {
    m1 := AutoAdvanceParts(env, s, s', addr, owner, group, unlock, recipients, token);
    ClaimNeedsLock(env, s, m1, addr, group, unlock, recipients, token);
    SetupMovesOn(env, s, addr, TxoAt(s, owner));
    AdvancedClaim(env, s, s', m1, addr, TxoAt(s, owner), group, unlock, recipients, token);
  }

  lemma ActiveClaimLowers(env: Env, s: System, s': System, addr: Key, group: u16, unlock: bool, recipients: seq<Key>,
          token: TokenCall)
    requires Sound(env) && SystemInvariant(env, s)
    requires ClaimStep(env, s, s.bridge.backlog, false, addr, group, unlock, recipients, token) == Ok(s')
    ensures Lower(s.bridge.backlog, s'.bridge.backlog)
  {
    ActiveClaim(env, s, addr, group, unlock, recipients, token);
    ClaimLowers(s.bridge.backlog, s'.bridge.backlog, group);
  }

  lemma AdvancingClaimLowers(env: Env, s: System, s': System, addr: Key, owner: Key, group: u16, unlock: bool,
          recipients: seq<Key>, token: TokenCall)
    requires Sound(env) && SystemInvariant(env, s) && NeedsAdvance(s.bridge.backlog)
    requires AutoAdvanceStep(env, s, addr, owner, group, unlock, recipients, token) == Ok(s')
    ensures Lower(s.bridge.backlog, s'.bridge.backlog)
  {
    var m1 := AdvancingClaim(env, s, s', addr, owner, group, unlock, recipients, token);
    ClaimLowers(m1, s'.bridge.backlog, group);
    MoveThenClaimLowers(env.h, s.bridge.backlog, m1, s'.bridge.backlog);
  }

  /** Every accepted claim, of whatever kind, lowers the measure. */
  lemma EveryClaimLowers(env: Env, s: System, op: Operation)
    requires Sound(env) && SystemInvariant(env, s) && IsClaim(op) && StepOf(env, s, op).Ok?
    ensures Lower(s.bridge.backlog, StepOf(env, s, op).value.bridge.backlog)
  {
    var s' := StepOf(env, s, op).value;
    match op {
      case MintGroup(signer, addr, group, unlock, recipients, token) =>
        ActiveClaimLowers(env, s, s', addr, group, unlock, recipients, token);
      case AutoAdvance(addr, owner, group, unlock, recipients, token) =>
        if NeedsAdvance(s.bridge.backlog) {
          AdvancingClaimLowers(env, s, s', addr, owner, group, unlock, recipients, token);
        } else {
          ActiveClaimLowers(env, s, s', addr, group, unlock, recipients, token);
        }
    }
  }

  // ---- Backlogs that can never be drained ----

  /** Some mint can pay all these records in one transaction: their recipients are token accounts of it. */
  ghost predicate Payable(env: Env, ms: seq<PendingMint>) {
    exists mint: Key :: SameMint(env, mint, ms)
  }

  ghost predicate AllPayable(env: Env, ms: seq<PendingMint>) {
    forall g: nat :: g < GroupCount(|ms|) ==> Payable(env, Group(ms, g))
  }

  /** Lists of mints and outputs that open both commitments of a block and are small enough to be claimed. */
  ghost predicate OpensBlock(h: Hash, info: Info, ms: seq<PendingMint>, xs: seq<u32>) {
    && 0 < |ms| <= DRAINABLE_MINTS && |xs| == |ms|
    && MintsHash(h, ms) == info.mintsHash
    && Indices.TxoHash(h, xs) == info.txoHash
  }

  /** The block can be opened to lists whose every group can be claimed. */
  ghost predicate Openable(env: Env, info: Info) {
    exists ms, xs :: OpensBlock(env.h, info, ms, xs) && AllPayable(env, ms)
  }

  predicate EndsEmpty(h: Hash, m: Manager) {
    m.count > 0 && IsEmptyInfo(h, m.infos[m.count - 1])
  }

  predicate Oversized(m: Manager) {
    IsActive(m) && m.tracker.total > DRAINABLE_MINTS
  }

  /** Group g of the list of the active block is still to be claimed, and no mint can pay it. */
  ghost predicate UnpayableAt(env: Env, m: Manager, held: seq<PendingMint>, g: nat) {
    IsActive(m) && g < GroupCount(|held|) && g !in Members(m.tracker.claimed) && !Payable(env, Group(held, g))
  }

  /** Item i waits for an activation that cannot succeed, or not with a list that can be claimed. */
  ghost predicate BlockedAt(env: Env, m: Manager, i: nat) {
    NextPosition(m) <= i < m.count && !IsEmptyInfo(env.h, m.infos[i]) && !Openable(env, m.infos[i])
  }

  /**
   The backlog ends in an empty block, its active block, whose list is `held`, is too large or
   has a group that cannot be paid, or a later block cannot be opened.
   */
  ghost predicate Stuck(env: Env, m: Manager, held: seq<PendingMint>) {
    && !IsDrained(m)
    && (|| EndsEmpty(env.h, m)
        || Oversized(m)
        || (exists g: nat :: UnpayableAt(env, m, held, g))
        || (exists i: nat :: BlockedAt(env, m, i)))
  }

  /** The list the buffer of the active block holds. */
  function Held(s: System): seq<PendingMint> {
    MintsHeld(AccountAt(s.buffers, s.bridge.backlog.tracker.account).account)
  }

  ghost predicate IsStuck(env: Env, s: System) {
    Stuck(env, s.bridge.backlog, Held(s))
  }

  /** A reorganization whose last block is empty loads a backlog that is stuck from the start. */
  lemma EmptyEndIsStuck(env: Env, m': Manager, base: nat, items: seq<Info>, first: nat, held: seq<PendingMint>)
    requires Loads(env.h, m', base, items, first) && IsEmptyInfo(env.h, items[|items| - 1])
    ensures Stuck(env, m', held)
  {
    assert m'.infos[m'.count - 1] == Items(m')[m'.count - 1] == items[first..][m'.count - 1];
  }

  /** While a group is unclaimed the block stays active. */
  lemma UnclaimedStaysActive(t: Tracker, g: nat)
    requires Consistent(t) && g < GroupCount(t.total) && g !in Members(t.claimed)
    ensures t.remaining != 0
  {
    RemainingZeroIffAllClaimed(t);
    TotalGroupsMeaning(t);
  }

  lemma ClaimStaysStuck(env: Env, m: Manager, m': Manager, held: seq<PendingMint>, held': seq<PendingMint>, g: nat)
    requires Stuck(env, m, held) && IsActive(m) && m.index < m.count && ClaimedGroup(m, m', g)
    requires !IsEmptyInfo(env.h, m.infos[m.index]) && Consistent(m'.tracker) && |held| == m.tracker.total
    requires g < GroupCount(|held|) && Payable(env, Group(held, g)) && (IsActive(m') ==> held' == held)
    ensures Stuck(env, m', held')
  {
    if Oversized(m) {
      OversizedNeverDone(m'.tracker);
    } else if i: nat :| BlockedAt(env, m, i) {
      assert BlockedAt(env, m', i);
    } else if k: nat :| UnpayableAt(env, m, held, k) {
      UnclaimedStaysActive(m'.tracker, k);
      assert UnpayableAt(env, m', held', k);
    }
  }

  lemma BuffersOpen(env: Env, a: Account, txo: Txo.Account, info: Info)
    requires Complete(env.h, a) && txo.Buffer? && 0 < a.header.count <= DRAINABLE_MINTS && AllPayable(env, MintsOf(a))
    requires MintsHash(env.h, MintsOf(a)) == info.mintsHash && CheckTxos(env.h, txo, a.header.count, info.txoHash).Ok?
    ensures Openable(env, info)
  {
    var raw := txo.body[..4 * a.header.count];
    Indices.IndexBytesOfParse(raw);
    assert OpensBlock(env.h, info, MintsOf(a), Indices.ParseIndices(raw));
  }

  /** An activated block of claimable size and groups was opened by the lists in its two buffers. */
  lemma ActivatedIsOpened(env: Env, s: System, addr: Key, txo: Txo.Account)
    requires Sound(env) && SystemInvariant(env, s) && txo.Buffer?
    requires SetupNext(env.h, env.bridge, s.bridge.backlog, addr, MemoryAt(s.buffers, addr), txo).Ok?
    requires LockAt(env, s.buffers, addr).Ok?
    ensures var m1 := SetupNext(env.h, env.bridge, s.bridge.backlog, addr, MemoryAt(s.buffers, addr), txo).value;
            && m1.index < m1.count
            && (Oversized(m1) || Openable(env, m1.infos[m1.index])
                || exists g: nat :: UnpayableAt(env, m1, Held(Advanced(env, s, m1, addr)), g))
  {
    AdvanceKeepsCoupled(env, s, addr, txo);
    LockMeaning(env, s.buffers, addr);
    LockedMemory(env, s.buffers, addr);
    SetupNextMeaning(env, s.bridge.backlog, addr, s.buffers[addr].account, txo);
    var m1 := SetupNext(env.h, env.bridge, s.bridge.backlog, addr, MemoryAt(s.buffers, addr), txo).value;
    var a := Advanced(env, s, m1, addr).buffers[addr].account;
    FreshHasNoClaims(m1, addr, a.header.count);
    if g: nat :| g < GroupCount(|MintsOf(a)|) && !Payable(env, Group(MintsOf(a), g)) {
      assert UnpayableAt(env, m1, Held(Advanced(env, s, m1, addr)), g);
    } else if !Oversized(m1) {
      BuffersOpen(env, a, txo, m1.infos[m1.index]);
    }
  }

  lemma MoveStaysStuck(env: Env, m: Manager, m1: Manager, held: seq<PendingMint>, held1: seq<PendingMint>)
    requires Stuck(env, m, held) && !IsActive(m) && MovesOn(env.h, m, m1)
    requires Oversized(m1) || Openable(env, m1.infos[m1.index]) || exists g: nat :: UnpayableAt(env, m1, held1, g)
    ensures Stuck(env, m1, held1)
  {
    if !EndsEmpty(env.h, m) && Openable(env, m1.infos[m1.index]) {
      var i: nat :| BlockedAt(env, m, i);
      assert m.infos[..m.count][i] == m.infos[i];
      assert BlockedAt(env, m1, i);
    }
  }

  /** A claim of the active block leaves the list alone unless it was the last one. */
  lemma ActiveClaimKeepsHeld(env: Env, s: System, s': System, addr: Key, group: u16, unlock: bool,
          recipients: seq<Key>, token: TokenCall)
    requires Sound(env) && SystemInvariant(env, s)
    requires ClaimStep(env, s, s.bridge.backlog, false, addr, group, unlock, recipients, token) == Ok(s')
    ensures var m, m' := s.bridge.backlog, s'.bridge.backlog;
            && IsActive(m) && m.index < m.count && !IsEmptyInfo(env.h, m.infos[m.index]) && ClaimedGroup(m, m', group)
            && Consistent(m'.tracker) && |Held(s)| == m.tracker.total
            && group < GroupCount(|Held(s)|) && Payable(env, Group(Held(s), group))
            && (IsActive(m') ==> Held(s') == Held(s))
  {
    ClaimMintsGroup(env, s, addr, group, unlock, recipients, token);
    ClaimKeeps(env, s, addr, group, unlock, recipients, token);
    TotalGroupsMeaning(s.bridge.backlog.tracker);
    assert SameMint(env, token.mint, Group(Held(s), group));
  }

  lemma ActiveClaimStaysStuck(env: Env, s: System, addr: Key, group: u16, unlock: bool, recipients: seq<Key>,
          token: TokenCall)
    requires Sound(env) && SystemInvariant(env, s) && IsStuck(env, s)
    requires ClaimStep(env, s, s.bridge.backlog, false, addr, group, unlock, recipients, token).Ok?
    ensures IsStuck(env, ClaimStep(env, s, s.bridge.backlog, false, addr, group, unlock, recipients, token).value)
  {
    var s' := ClaimStep(env, s, s.bridge.backlog, false, addr, group, unlock, recipients, token).value;
    ActiveClaimKeepsHeld(env, s, s', addr, group, unlock, recipients, token);
    ClaimStaysStuck(env, s.bridge.backlog, s'.bridge.backlog, Held(s), Held(s'), group);
  }

  lemma AdvanceStaysStuck(env: Env, s: System, m1: Manager, addr: Key, txo: Txo.Account)
    requires Sound(env) && SystemInvariant(env, s) && NeedsAdvance(s.bridge.backlog) && IsStuck(env, s)
    requires txo.Buffer? && LockAt(env, s.buffers, addr).Ok?
    requires SetupNext(env.h, env.bridge, s.bridge.backlog, addr, MemoryAt(s.buffers, addr), txo) == Ok(m1)
    ensures m1.index < m1.count && IsStuck(env, Advanced(env, s, m1, addr))
  {
    SetupMovesOn(env, s, addr, txo);
    ActivatedIsOpened(env, s, addr, txo);
    MoveStaysStuck(env, s.bridge.backlog, m1, Held(s), Held(Advanced(env, s, m1, addr)));
  }

  lemma AutoAdvanceStaysStuck(env: Env, s: System, addr: Key, owner: Key, group: u16, unlock: bool,
          recipients: seq<Key>, token: TokenCall)
    requires Sound(env) && SystemInvariant(env, s) && IsStuck(env, s)
    requires AutoAdvanceStep(env, s, addr, owner, group, unlock, recipients, token).Ok?
    ensures IsStuck(env, AutoAdvanceStep(env, s, addr, owner, group, unlock, recipients, token).value)
  {
    if NeedsAdvance(s.bridge.backlog) {
      var s' := AutoAdvanceStep(env, s, addr, owner, group, unlock, recipients, token).value;
      var m1 := AdvancingClaim(env, s, s', addr, owner, group, unlock, recipients, token);
      AdvanceStaysStuck(env, s, m1, addr, TxoAt(s, owner));
      AdvanceKeeps(env, s, addr, TxoAt(s, owner));
      AdvanceThenClaim(env, s, m1, addr, group, unlock, recipients, token);
      ActiveClaimStaysStuck(env, Advanced(env, s, m1, addr), addr, group, unlock, recipients, token);
    } else {
      ActiveClaimStaysStuck(env, s, addr, group, unlock, recipients, token);
    }
  }

  lemma UpdateNeedsDrained(env: Env, s: System, op: Operation)
    requires (op.BlockUpdate? || op.Reorg?) && !IsDrained(s.bridge.backlog)
    ensures StepOf(env, s, op).Err?
  {
  }

  lemma OthersKeepBacklog(env: Env, s: System, op: Operation)
    requires !op.BlockUpdate? && !op.Reorg? && !op.MintGroup? && !op.AutoAdvance? && !op.Initialize?
    ensures Apply(env, s, op).bridge.backlog == s.bridge.backlog
    ensures !op.BufferInstruction? ==> Apply(env, s, op).buffers == s.buffers
  {
  }

  /** Nobody else's instruction changes the list of the active block. */
  lemma BufferInstructionStaysStuck(env: Env, s: System, addr: Key, i: Instruction)
    requires Sound(env) && SystemInvariant(env, s) && IsStuck(env, s) && i != Lock(env.bridge)
    requires i != Unlock(env.bridge)
    ensures IsStuck(env, Apply(env, s, BufferInstruction(addr, i)))
  {
    var m, s' := s.bridge.backlog, Apply(env, s, BufferInstruction(addr, i));
    BufferInstructionKeepsCoupled(env, m, s.buffers, addr, i);
    if IsActive(m) {
      assert Held(s') == Held(s);
    } else {
      assert forall g: nat :: !UnpayableAt(env, m, Held(s), g);
    }
  }

  lemma OthersStayStuck(env: Env, s: System, op: Operation)
    requires IsStuck(env, s) && !op.BufferInstruction?
    requires !op.BlockUpdate? && !op.Reorg? && !op.MintGroup? && !op.AutoAdvance? && !op.Initialize?
    ensures IsStuck(env, Apply(env, s, op))
  {
    OthersKeepBacklog(env, s, op);
    assert Held(Apply(env, s, op)) == Held(s);
  }

  lemma {:induction false} MintGroupStaysStuck(env: Env, s: System, signer: Key, addr: Key, group: u16, unlock: bool,
          recipients: seq<Key>, token: TokenCall)
    requires Sound(env) && SystemInvariant(env, s) && IsStuck(env, s)
    requires MintGroupStep(env, s, signer, addr, group, unlock, recipients, token).Ok?
    ensures IsStuck(env, MintGroupStep(env, s, signer, addr, group, unlock, recipients, token).value)
  {
    ActiveClaimStaysStuck(env, s, addr, group, unlock, recipients, token);
  }

  lemma StepStaysStuck(env: Env, s: System, op: Operation)
    requires Sound(env) && SystemInvariant(env, s) && IsStuck(env, s) && Admissible(env, s, op)
    ensures IsStuck(env, Apply(env, s, op))
  {
    if StepOf(env, s, op).Ok? {
      match op {
        case BufferInstruction(addr, i) => BufferInstructionStaysStuck(env, s, addr, i);
        case BlockUpdate(_, _, _, _) => UpdateNeedsDrained(env, s, op);
        case Reorg(_, _, _, _, _) => UpdateNeedsDrained(env, s, op);
        case MintGroup(signer, addr, group, unlock, recipients, token) =>
          MintGroupStaysStuck(env, s, signer, addr, group, unlock, recipients, token);
        case AutoAdvance(addr, owner, group, unlock, recipients, token) =>
          AutoAdvanceStaysStuck(env, s, addr, owner, group, unlock, recipients, token);
        case Initialize(_, _, _, _, _) =>
        case _ => OthersStayStuck(env, s, op);
      }
    }
  }

  /** No run drains a stuck backlog. */
  lemma {:induction false} StuckForever(env: Env, s: System, ops: seq<Operation>)
    requires Sound(env) && SystemInvariant(env, s) && IsRun(env, s, ops) && IsStuck(env, s)
    ensures !IsDrained(RunOf(env, s, ops).bridge.backlog)
    decreases |ops|
  {
    if |ops| > 0 {
      StepKeepsInvariant(env, s, ops[0]);
      StepStaysStuck(env, s, ops[0]);
      StuckForever(env, Apply(env, s, ops[0]), ops[1..]);
    }
  }
}
