/** The bridge's tracker and the locks of the buffers stay in step. */
module Coupling {
  import opened Bytes
  import opened Mints
  import opened MintBuffer
  import opened MintBufferRuns
  import opened Commitment
  import opened Tracker
  import opened Backlog
  import opened Headers
  import opened Bridge
  import opened System
  import Txo = TxoBuffer

  predicate IsLockedFor(env: Env, a: Account) {
    a.Buffer? && a.header.locker == env.bridge && a.header.isLocked != 0
  }

  ghost predicate BuffersWell(env: Env, buffers: Buffers) {
    forall addr :: addr in buffers ==> Invariant(env.h, buffers[addr])
  }

  /** Of all buffers only the one at `addr` is locked by the bridge. */
  ghost predicate OnlyLocked(env: Env, buffers: Buffers, addr: Key) {
    && addr in buffers
    && forall x :: x in buffers ==> (IsLockedFor(env, buffers[x].account) <==> x == addr)
  }

  ghost predicate NoneLocked(env: Env, buffers: Buffers) {
    forall x :: x in buffers ==> !IsLockedFor(env, buffers[x].account)
  }

  /** The buffer is complete and holds the list committed for the current, non-empty item of the backlog. */
  ghost predicate HoldsCurrent(env: Env, m: Manager, a: Account) {
    && m.index < m.count && !IsEmptyInfo(env.h, m.infos[m.index])
    && Complete(env.h, a)
    && 0 < a.header.count == m.tracker.total
    && MintsHash(env.h, MintsOf(a)) == m.infos[m.index].mintsHash
  }

  /**
   The tracker is non-empty exactly when the buffer it names is locked, no other bridge
   buffer is ever locked, and the locked one holds the committed list.
   */
  ghost predicate Coupled(env: Env, m: Manager, buffers: Buffers) {
    && BuffersWell(env, buffers)
    && Consistent(m.tracker)
    && if IsActive(m)
       then OnlyLocked(env, buffers, m.tracker.account) && HoldsCurrent(env, m, buffers[m.tracker.account].account)
       else NoneLocked(env, buffers)
  }

  lemma DrainedIsIdle(env: Env, m: Manager, buffers: Buffers)
    requires Coupled(env, m, buffers) && IsDrained(m)
    ensures !IsActive(m) && NoneLocked(env, buffers)
  {
  }

  // ---- Instructions of other signers ----

  lemma ForeignInstruction(env: Env, buffers: Buffers, addr: Key, i: Instruction)
    requires Sound(env) && BuffersWell(env, buffers)
    requires i != Lock(env.bridge) && i != Unlock(env.bridge)
    ensures var before, after := AccountAt(buffers, addr),
            TransactAt(env.h, env.bufferOf, addr, AccountAt(buffers, addr), i);
            && Invariant(env.h, after)
            && (IsLockedFor(env, before.account) <==> IsLockedFor(env, after.account))
            && (IsLockedFor(env, before.account) ==> after == before)
  {
    var m := AccountAt(buffers, addr);
    TransactKeepsInvariant(env.h, m, i);
    if IsLockedFor(env, m.account) {
      assert [i][1..] == [];
      FrozenWhileLocked(env.h, m, [i]);
      assert Run(env.h, m, [i]) == Run(env.h, Transact(env.h, m, i), []);
    }
  }

  lemma BufferInstructionKeepsCoupled(env: Env, m: Manager, buffers: Buffers, addr: Key, i: Instruction)
    requires Sound(env) && Coupled(env, m, buffers)
    requires i != Lock(env.bridge) && i != Unlock(env.bridge)
    ensures Coupled(env, m, buffers[addr := TransactAt(env.h, env.bufferOf, addr, AccountAt(buffers, addr), i)])
    ensures IsActive(m) ==> buffers[addr := TransactAt(env.h, env.bufferOf, addr, AccountAt(buffers, addr),
            i)][m.tracker.account] == buffers[m.tracker.account]
  {
    ForeignInstruction(env, buffers, addr, i);
  }

  // ---- The bridge's own lock and unlock ----

  lemma LockMeaning(env: Env, buffers: Buffers, addr: Key)
    requires Sound(env) && BuffersWell(env, buffers) && LockAt(env, buffers, addr).Ok?
    ensures var b := LockAt(env, buffers, addr).value;
            && addr in buffers && buffers[addr].account.Buffer?
            && !IsLockedFor(env, buffers[addr].account)
            && b == buffers[addr := b[addr]]
            && b[addr].account == buffers[addr].account.(header := buffers[addr].account.header.(isLocked := 1))
            && BuffersWell(env, b)
            && Complete(env.h, b[addr].account)
            && IsLockedFor(env, b[addr].account)
            && (NoneLocked(env, buffers) ==> OnlyLocked(env, b, addr))
  {
    var m := AccountAt(buffers, addr);
    CallsAreTransactions(env, buffers, addr);
    TransactKeepsInvariant(env.h, m, Lock(env.bridge));
    LockedIsComplete(env.h, Transact(env.h, m, Lock(env.bridge)));
  }

  /** A buffer as its locker releases it: announcing no mints and unlocked, otherwise as it was. */
  function Released(a: Account): Account
    requires a.Buffer?
  {
    Buffer(Header(a.header.locker, a.header.writer, 0, a.header.mode, 0, 0, 0), a.body)
  }

  lemma UnlockMeaning(env: Env, buffers: Buffers, addr: Key)
    requires Sound(env) && BuffersWell(env, buffers) && OnlyLocked(env, buffers, addr)
    ensures UnlockAt(env, buffers, addr).Ok?
    ensures var b := UnlockAt(env, buffers, addr).value;
            && BuffersWell(env, b) && NoneLocked(env, b) && b == buffers[addr := b[addr]]
            && b[addr] == Monitored(Released(buffers[addr].account), map[])
  {
    CallsAreTransactions(env, buffers, addr);
    TransactKeepsInvariant(env.h, AccountAt(buffers, addr), Unlock(env.bridge));
  }

  // ---- Activating a block ----

  /** A backlog that has just been pointed at the buffer at `addr`, none of its groups claimed. */
  ghost predicate FreshlyActive(m: Manager, addr: Key, count: u16) {
    m.tracker == Tracker(addr, NO_BITS, count, GroupCount(count))
  }

  lemma FreshlyActiveCoupled(env: Env, m: Manager, buffers: Buffers, addr: Key, count: u16)
    requires BuffersWell(env, buffers) && OnlyLocked(env, buffers, addr)
    requires FreshlyActive(m, addr, count) && HoldsCurrent(env, m, buffers[addr].account)
    ensures IsActive(m) && Coupled(env, m, buffers)
  {
    FreshConsistent(addr, count);
  }

  /** An accepted check of a complete buffer, as the facts about its list. */
  lemma CheckedHoldsList(env: Env, a: Account, txo: Txo.Account, info: Info, count: u16)
    requires Complete(env.h, a) && txo.Buffer? && !IsEmptyInfo(env.h, info)
    requires CheckMintBuffer(env.h, env.bridge, Memory(a), info.mintsHash) == Ok(count)
    requires CheckTxos(env.h, txo, count, info.txoHash).Ok?
    ensures 0 < a.header.count == count && MintsHash(env.h, MintsOf(a)) == info.mintsHash
  {
    AcceptedBuffer(env.h, env.bridge, a, info.mintsHash);
    ActivatedIsNonEmpty(env.h, env.bridge, a, txo, info);
  }

  lemma LockedMemory(env: Env, buffers: Buffers, addr: Key)
    requires addr in buffers && buffers[addr].account.Buffer?
    ensures MemoryAt(buffers, addr) == Memory(buffers[addr].account)
  {
  }

  /** Locking does not change what the bridge's check looks at. */
  lemma CheckIgnoresLock(env: Env, a: Account, d: Digest)
    requires a.Buffer?
    ensures var locked := a.(header := a.header.(isLocked := 1));
            CheckMintBuffer(env.h, env.bridge, Memory(locked), d) == CheckMintBuffer(env.h, env.bridge, Memory(a), d)
  {
    var locked := a.(header := a.header.(isLocked := 1));
    MemoryFields(a);
    MemoryFields(locked);
    var groups := MintGroupInfo(a.header.count).0;
    if 32 * groups <= |a.body| {
      MemoryFromCount(a, 32 * groups);
      MemoryFromCount(locked, 32 * groups);
    }
  }

  // ---- Block updates ----

  lemma SingleLoads(env: Env, b: Bridge, proof: Bytes, next: BridgeHeader, addr: Key, a: Account, txo: Txo.Account)
    requires Complete(env.h, a) && txo.Buffer?
    requires SingleTransition(env, b, proof, next, addr, Memory(a), txo).Ok?
    ensures var m, g := SingleTransition(env, b, proof, next, addr, Memory(a), txo).value.backlog, next.finalized;
            if g.nextIndex == b.header.finalized.nextIndex then m == b.backlog
            else
              && !IsEmptyInfo(env.h, Info(g.mintsHash, g.txoHash))
              && m.index == 0 && m.count == 1 && m.start == g.height
              && m.infos[0] == Info(g.mintsHash, g.txoHash)
              && FreshlyActive(m, addr, a.header.count) && HoldsCurrent(env, m, a)
  {
    var f, g := b.header.finalized, next.finalized;
    if g.nextIndex != f.nextIndex {
      var claims: u16 := g.nextIndex - f.nextIndex;
      AcceptedBuffer(env.h, env.bridge, a, g.mintsHash);
      MintGroupInfoMeaning(claims);
      AppendNonEmpty(env.h, b.backlog, g.height, [Info(g.mintsHash, g.txoHash)], addr, claims, MintGroupInfo(claims).0);
    }
  }

  lemma ReorgLoads(env: Env, b: Bridge, proof: Bytes, next: BridgeHeader, extra: seq<Info>, addr: Key, a: Account,
          txo: Txo.Account)
    requires Complete(env.h, a) && txo.Buffer?
    requires ReorgTransition(env, b, proof, next, extra, addr, Memory(a), txo).Ok?
    ensures var m, g := ReorgTransition(env, b, proof, next, extra, addr, Memory(a), txo).value.backlog, next.finalized;
            var items := ReorgItems(extra, g);
            var first := NextNonEmpty(env.h, items, 0);
            if first == |items| then m == b.backlog
            else
              && m.index == 0 && m.count == |items| - first && m.start == b.header.finalized.height + 1 + first
              && m.infos[..m.count] == items[first..]
              && FreshlyActive(m, addr, a.header.count) && HoldsCurrent(env, m, a)
  {
    var g := next.finalized;
    var items := ReorgItems(extra, g);
    var first := NextNonEmpty(env.h, items, 0);
    if first < |items| {
      var info := items[first];
      var count := CheckMintBuffer(env.h, env.bridge, Memory(a), info.mintsHash).value;
      CheckedHoldsList(env, a, txo, info, count);
      MintGroupInfoMeaning(count);
      AppendNonEmpty(env.h, b.backlog, g.height - (|items| - first - 1), items[first..], addr, count,
          MintGroupInfo(count).0);
    }
  }

  lemma BlockUpdateKeepsCoupled(env: Env, s: System, proof: Bytes, next: BridgeHeader, addr: Key, owner: Key)
    requires Sound(env) && Coupled(env, s.bridge.backlog, s.buffers)
    requires BlockUpdateStep(env, s, proof, next, addr, owner).Ok?
    ensures var s' := BlockUpdateStep(env, s, proof, next, addr, owner).value;
            Coupled(env, s'.bridge.backlog, s'.buffers)
  {
    DrainedIsIdle(env, s.bridge.backlog, s.buffers);
    LockMeaning(env, s.buffers, addr);
    var locked: Buffers := LockAt(env, s.buffers, addr).value;
    LockedMemory(env, locked, addr);
    SingleLoads(env, s.bridge, proof, next, addr, locked[addr].account, TxoAt(s, owner));
    var m := BlockUpdateStep(env, s, proof, next, addr, owner).value.bridge.backlog;
    if next.finalized.nextIndex == s.bridge.header.finalized.nextIndex {
      UnlockMeaning(env, locked, addr);
    } else {
      FreshlyActiveCoupled(env, m, locked, addr, locked[addr].account.header.count);
    }
  }

  /**
   A reorganization keeps tracker and locks in step exactly if it moves the deposit index
   when, and only when, one of its blocks carries deposits.
   */
  lemma ReorgCoupledIff(env: Env, s: System, proof: Bytes, next: BridgeHeader, extra: seq<Info>, addr: Key, owner: Key)
    requires Sound(env) && Coupled(env, s.bridge.backlog, s.buffers)
    requires ReorgStep(env, s, proof, next, extra, addr, owner).Ok?
    ensures var s' := ReorgStep(env, s, proof, next, extra, addr, owner).value;
            Coupled(env, s'.bridge.backlog, s'.buffers) <==> IndexMovesWithDeposits(env, s, next, extra)
  {
    DrainedIsIdle(env, s.bridge.backlog, s.buffers);
    LockMeaning(env, s.buffers, addr);
    var locked: Buffers := LockAt(env, s.buffers, addr).value;
    LockedMemory(env, locked, addr);
    ReorgLoads(env, s.bridge, proof, next, extra, addr, locked[addr].account, TxoAt(s, owner));
    var s' := ReorgStep(env, s, proof, next, extra, addr, owner).value;
    var m := s'.bridge.backlog;
    var items := ReorgItems(extra, next.finalized);
    UnlockMeaning(env, locked, addr);
    if NextNonEmpty(env.h, items, 0) < |items| {
      FreshlyActiveCoupled(env, m, locked, addr, locked[addr].account.header.count);
    }
  }

  // ---- Claims ----

  /** The state in which an auto-advance has activated and locked the next block. */
  function Advanced(env: Env, s: System, m: Manager, addr: Key): System
    requires m.index < m.count && LockAt(env, s.buffers, addr).Ok?
  {
    var locked: Buffers := LockAt(env, s.buffers, addr).value;
    s.(bridge := s.bridge.(backlog := m),
       buffers := locked,
       history := s.history.(activated := s.history.activated
           + [CurrentActivation(m, AccountAt(locked, addr).account)]))
  }

  lemma AdvanceThenPay(env: Env, s: System, m: Manager, c: Claim, addr: Key, unlock: bool, recipients: seq<Key>,
          token: TokenCall)
    requires m.index < m.count
    requires PayOut(env, s, m, c, true, addr, unlock, recipients, token).Ok?
    ensures LockAt(env, s.buffers, addr).Ok?
    ensures PayOut(env, s, m, c, true, addr, unlock, recipients, token)
         == PayOut(env, Advanced(env, s, m, addr), m, c, false, addr, unlock, recipients, token)
  {
  }

  /** An auto-advance is an activation followed by an ordinary claim. */
  lemma AdvanceThenClaim(env: Env, s: System, m: Manager, addr: Key, group: u16, unlock: bool, recipients: seq<Key>,
          token: TokenCall)
    requires m.index < m.count
    requires ClaimStep(env, s, m, true, addr, group, unlock, recipients, token).Ok?
    ensures LockAt(env, s.buffers, addr).Ok?
    ensures ClaimStep(env, s, m, true, addr, group, unlock, recipients, token)
         == ClaimStep(env, Advanced(env, s, m, addr), m, false, addr, group, unlock, recipients, token)
  {
    AdvanceThenPay(env, s, m, Precheck(m, group, addr).value, addr, unlock, recipients, token);
  }

  lemma SetupNextMeaning(env: Env, m: Manager, addr: Key, a: Account, txo: Txo.Account)
    requires a.Buffer? && txo.Buffer? && SetupNext(env.h, env.bridge, m, addr, Memory(a), txo).Ok?
    ensures NeedsAdvance(m) && NextItem(env.h, m) < m.count
    ensures var m1, j := SetupNext(env.h, env.bridge, m, addr, Memory(a), txo).value, NextItem(env.h, m);
            && m1 == m.(index := j, tracker := m1.tracker)
            && FreshlyActive(m1, addr, a.header.count)
            && CheckMintBuffer(env.h, env.bridge, Memory(a), m.infos[j].mintsHash) == Ok(a.header.count)
            && CheckTxos(env.h, txo, a.header.count, m.infos[j].txoHash).Ok?
            && !IsEmptyInfo(env.h, m.infos[j])
            && txo.header.height == (m.start + j) % 0x1_0000_0000
  {
    FastForwardMeaning(env.h, m);
    MemoryFields(a);
    var j := NextItem(env.h, m);
    assert m.infos[..m.count][j] == m.infos[j];
    MintGroupInfoMeaning(a.header.count);
  }

  lemma AdvanceKeepsCoupled(env: Env, s: System, addr: Key, txo: Txo.Account)
    requires Sound(env) && Coupled(env, s.bridge.backlog, s.buffers) && txo.Buffer?
    requires SetupNext(env.h, env.bridge, s.bridge.backlog, addr, MemoryAt(s.buffers, addr), txo).Ok?
    requires LockAt(env, s.buffers, addr).Ok?
    ensures var m1 := SetupNext(env.h, env.bridge, s.bridge.backlog, addr, MemoryAt(s.buffers, addr), txo).value;
            && m1.index < m1.count && IsActive(m1)
            && Coupled(env, m1, Advanced(env, s, m1, addr).buffers)
  {
    LockMeaning(env, s.buffers, addr);
    var a := s.buffers[addr].account;
    var locked: Buffers := LockAt(env, s.buffers, addr).value;
    LockedMemory(env, s.buffers, addr);
    SetupNextMeaning(env, s.bridge.backlog, addr, a, txo);
    var m1 := SetupNext(env.h, env.bridge, s.bridge.backlog, addr, Memory(a), txo).value;
    CheckIgnoresLock(env, a, m1.infos[m1.index].mintsHash);
    CheckedHoldsList(env, locked[addr].account, txo, m1.infos[m1.index], a.header.count);
    FreshlyActiveCoupled(env, m1, locked, addr, a.header.count);
  }

  lemma {:induction false} ClaimShape(env: Env, s: System, addr: Key, group: u16, unlock: bool, recipients: seq<Key>,
          token: TokenCall)
    requires ClaimStep(env, s, s.bridge.backlog, false, addr, group, unlock, recipients, token).Ok?
    ensures Precheck(s.bridge.backlog, group, addr).Ok?
    ensures var s', c := ClaimStep(env, s, s.bridge.backlog, false, addr, group, unlock, recipients, token).value,
                         Precheck(s.bridge.backlog, group, addr).value;
            && s'.bridge.backlog == c.next && c.canUnlock == unlock
            && if unlock then UnlockAt(env, s.buffers, addr) == Ok(s'.buffers) else s'.buffers == s.buffers
  {
  }

  /** A claim keeps tracker and locks in step, releasing the buffer with its last group. */
  lemma ClaimKeepsCoupled(env: Env, s: System, addr: Key, group: u16, unlock: bool, recipients: seq<Key>,
          token: TokenCall)
    requires Sound(env) && Coupled(env, s.bridge.backlog, s.buffers)
    requires ClaimStep(env, s, s.bridge.backlog, false, addr, group, unlock, recipients, token).Ok?
    ensures var s' := ClaimStep(env, s, s.bridge.backlog, false, addr, group, unlock, recipients, token).value;
            Coupled(env, s'.bridge.backlog, s'.buffers)
  {
    var m := s.bridge.backlog;
    ClaimShape(env, s, addr, group, unlock, recipients, token);
    PrecheckMeaning(m, group, addr);
    if unlock {
      UnlockMeaning(env, s.buffers, addr);
    }
  }
}
