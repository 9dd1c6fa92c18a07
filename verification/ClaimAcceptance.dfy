/** When the bridge pays out a group of mints, and exactly what an accepted claim does. */
module ClaimAcceptance {
  import opened Bytes
  import opened Hashing
  import opened Mints
  import opened MintBuffer
  import opened MintBufferRuns
  import opened Commitment
  import opened Tracker
  import opened Backlog
  import opened Bridge
  import opened System
  import opened Coupling
  import opened ExactlyOnce
  import opened Runs
  import opened DrainRuns
  import opened Acceptance
  import Txo = TxoBuffer

  /** The records of group g of a list. */
  function Records(ms: seq<PendingMint>, g: nat): seq<PendingMint>
    requires 24 * g < |ms|
  {
    if 24 * g + 24 <= |ms| then ms[24 * g..24 * g + 24] else ms[24 * g..]
  }

  lemma RecordsAreGroup(ms: seq<PendingMint>, g: nat)
    ensures g < GroupCount(|ms|) <==> 24 * g < |ms|
    ensures 24 * g < |ms| ==> Records(ms, g) == Group(ms, g)
  {
  }

  /** A claim asks for the records of a group: it exists, is open, and the call fits it. */
  ghost predicate ClaimAllowed(env: Env, t: Tracker, ms: seq<PendingMint>, group: u16, unlock: bool,
          recipients: seq<Key>, token: TokenCall) {
    && 24 * group < |ms| && group < 256 && group !in Members(t.claimed)
    && unlock == (t.remaining == 1)
    && PaysTo(Records(ms, group), recipients)
    && token.ok && forall i :: 0 <= i < |recipients| ==> env.mintOf(recipients[i]) == Some(token.mint)
  }

  /** The parts of a claim of an active block. */
  lemma {:induction false} ClaimPartsIff(env: Env, s: System, addr: Key, c: Claim, group: u16, unlock: bool,
          recipients: seq<Key>, token: TokenCall)
    requires addr == s.bridge.backlog.tracker.account && Precheck(s.bridge.backlog, group, addr) == Ok(c)
    requires unlock && c.canUnlock ==> UnlockAt(env, s.buffers, addr).Ok?
    ensures ClaimStep(env, s, s.bridge.backlog, false, addr, group, unlock, recipients, token).Ok? <==>
              && c.canUnlock == unlock && c.size == |recipients|
              && ReadMints(MemoryAt(s.buffers, addr), c.offset, recipients).Ok?
              && token.ok && AllOn(env, token.mint, recipients)
  {
  }

  lemma PrecheckIff(env: Env, m: Manager, a: Account, group: u16)
    requires IsActive(m) && Consistent(m.tracker) && HoldsCurrent(env, m, a)
    ensures |MintsHeld(a)| == a.header.count
    ensures Precheck(m, group, m.tracker.account).Ok?
            <==> 24 * group < |MintsHeld(a)| && group < 256 && group !in Members(m.tracker.claimed)
  {
    PrecheckAccepts(m, group, m.tracker.account);
    ClaimableGroups(m.tracker, group);
    TotalGroupsMeaning(m.tracker);
    RecordsAreGroup(MintsHeld(a), group);
  }

  /** The size and the records that a claim checks are those of its group. */
  lemma GroupReadIff(env: Env, m: Manager, a: Account, c: Claim, group: u16, recipients: seq<Key>)
    requires IsActive(m) && Consistent(m.tracker) && HoldsCurrent(env, m, a)
    requires Precheck(m, group, m.tracker.account) == Ok(c)
    ensures 24 * group < |MintsHeld(a)| && c.canUnlock == (m.tracker.remaining == 1)
    ensures c.size == |recipients| && ReadMints(Memory(a), c.offset, recipients).Ok?
            <==> PaysTo(Records(MintsHeld(a), group), recipients)
  {
    PrecheckMeaning(m, group, m.tracker.account);
    RecordsAreGroup(MintsHeld(a), group);
    GroupLength(MintsHeld(a), group);
    if c.size == |recipients| {
      ClaimReadsGroup(env.h, a, group, recipients);
    }
  }

  /**
   While a block is active, a claim is accepted exactly if it asks for one of its open groups as
   the buffer has it.
   */
  lemma ClaimAcceptedIff(env: Env, s: System, addr: Key, group: u16, unlock: bool, recipients: seq<Key>,
          token: TokenCall)
    requires Sound(env) && Coupled(env, s.bridge.backlog, s.buffers)
    ensures ClaimStep(env, s, s.bridge.backlog, false, addr, group, unlock, recipients, token).Ok? <==>
              && s.bridge.backlog.tracker.remaining != 0 && addr == s.bridge.backlog.tracker.account
              && ClaimAllowed(env, s.bridge.backlog.tracker, MintsHeld(s.buffers[addr].account), group, unlock,
                 recipients, token)
  {
    var m := s.bridge.backlog;
    if IsActive(m) && addr == m.tracker.account {
      var a := s.buffers[addr].account;
      PrecheckIff(env, m, a, group);
      if Precheck(m, group, addr).Ok? {
        var c := Precheck(m, group, addr).value;
        GroupReadIff(env, m, a, c, group, recipients);
        LockedMemory(env, s.buffers, addr);
        UnlockMeaning(env, s.buffers, addr);
        ClaimPartsIff(env, s, addr, c, group, unlock, recipients, token);
      }
    }
  }

  /** The operator's instruction asks for the bridge's own mint and the operator's signature besides. */
  lemma MintGroupAcceptedIff(env: Env, s: System, signer: Key, addr: Key, group: u16, unlock: bool,
          recipients: seq<Key>, token: TokenCall)
    requires Sound(env) && SystemInvariant(env, s)
    ensures MintGroupStep(env, s, signer, addr, group, unlock, recipients, token).Ok? <==>
              && token.mint == s.bridge.dogeMint && signer == s.bridge.operator
              && s.bridge.backlog.tracker.remaining != 0 && addr == s.bridge.backlog.tracker.account
              && ClaimAllowed(env, s.bridge.backlog.tracker, MintsHeld(s.buffers[addr].account), group, unlock,
                 recipients, token)
  {
    ClaimAcceptedIff(env, s, addr, group, unlock, recipients, token);
  }

  lemma {:induction false} ClaimPays(env: Env, s: System, s': System, addr: Key, group: u16, unlock: bool,
          recipients: seq<Key>, token: TokenCall)
    requires ClaimStep(env, s, s.bridge.backlog, false, addr, group, unlock, recipients, token) == Ok(s')
    ensures var c := Precheck(s.bridge.backlog, group, addr);
            && c.Ok? && c.value.size == |recipients|
            && var r := ReadMints(MemoryAt(s.buffers, addr), c.value.offset, recipients);
               && r.Ok? && s'.txos == s.txos
               && s'.supply == s.supply + (if token.mint == s.bridge.dogeMint then TotalAmount(r.value) else 0)
               && if unlock then UnlockAt(env, s.buffers, addr) == Ok(s'.buffers) else s'.buffers == s.buffers
  {
  }

  /**
   An accepted claim mints exactly the records of its group, closes the group, and with the last
   one releases the buffer, which can then be locked again at once, and moves to the next block.
   */
  lemma ClaimEffect(env: Env, s: System, s': System, addr: Key, group: u16, unlock: bool, recipients: seq<Key>,
          token: TokenCall)
    requires Sound(env) && Coupled(env, s.bridge.backlog, s.buffers)
    requires ClaimStep(env, s, s.bridge.backlog, false, addr, group, unlock, recipients, token) == Ok(s')
    ensures addr in s.buffers && s.buffers[addr].account.Buffer? && 24 * group < |MintsHeld(s.buffers[addr].account)|
    ensures var m, m', paid := s.bridge.backlog, s'.bridge.backlog, Records(MintsHeld(s.buffers[addr].account), group);
            && s'.bridge == s.bridge.(backlog := m') && s'.txos == s.txos
            && m' == m.(tracker := m'.tracker, index := if unlock then m.index + 1 else m.index)
            && m'.tracker == m.tracker.(claimed := m'.tracker.claimed, remaining := m.tracker.remaining - 1)
            && Members(m'.tracker.claimed) == Members(m.tracker.claimed) + {group as nat}
            && s'.supply == s.supply + (if token.mint == s.bridge.dogeMint then TotalAmount(paid) else 0)
            && s'.history.minted == s.history.minted + paid
            && s'.buffers == (if unlock then s.buffers[addr := Monitored(Released(s.buffers[addr].account), map[])]
                              else s.buffers)
            && (unlock ==> Lockable(env, s', addr))
  {
    ClaimAcceptedIff(env, s, addr, group, unlock, recipients, token);
    ClaimMintsGroup(env, s, addr, group, unlock, recipients, token);
    ClaimPays(env, s, s', addr, group, unlock, recipients, token);
    var a := s.buffers[addr].account;
    RecordsAreGroup(MintsHeld(a), group);
    PrecheckMeaning(s.bridge.backlog, group, addr);
    LockedMemory(env, s.buffers, addr);
    ClaimReadsGroup(env.h, a, group, recipients);
    UnlockMeaning(env, s.buffers, addr);
  }

  // ---- Auto-advance ----

  /** Item k is the first of the pending blocks that carries deposits. */
  ghost predicate IsNextCarrying(h: Hash, m: Manager, k: nat) {
    && m.index <= k < m.count && !CarriesNothing(h, m.infos[k])
    && forall i :: m.index <= i < k ==> CarriesNothing(h, m.infos[i])
  }

  /** What advancing to item k and claiming a group of it at once asks for. */
  ghost predicate AdvanceAllowed(env: Env, s: System, k: nat, addr: Key, owner: Key, group: u16, unlock: bool,
          recipients: seq<Key>, token: TokenCall) {
    && IsNextCarrying(env.h, s.bridge.backlog, k) && Lockable(env, s, addr) && TxoAt(s, owner).Buffer?
    && var ms := MintsHeld(s.buffers[addr].account);
       && Shows(env, ms, TxoAt(s, owner), s.bridge.backlog.infos[k], s.bridge.backlog.start + k, |ms|)
       && ClaimAllowed(env, Tracker(addr, NO_BITS, |ms|, GroupCount(|ms|)), ms, group, unlock, recipients, token)
  }

  lemma NextCarryingIs(h: Hash, m: Manager, k: nat)
    ensures IsNextCarrying(h, m, k) <==> k == NextItem(h, m) < m.count
  {
    var j := NextItem(h, m);
    var infos := m.infos[..m.count];
    assert forall i :: 0 <= i < m.count ==> infos[i] == m.infos[i];
    assert forall i :: m.index <= i < j ==> IsEmptyInfo(h, infos[i]);
    if m.index <= k < m.count && k != j {
      assert k < j ==> IsEmptyInfo(h, infos[k]);
      assert j < k ==> !IsEmptyInfo(h, infos[j]);
    }
  }

  lemma ActivateChecks(env: Env, m: Manager, addr: Key, mem: Bytes, txo: Txo.Account)
    requires m.index < m.count && m.start + m.count <= 0x1_0000_0000 && txo.Buffer?
    ensures var info := m.infos[m.index];
            var r := CheckMintBuffer(env.h, env.bridge, mem, info.mintsHash);
            Activate(env.h, env.bridge, m, addr, mem, txo).Ok?
            <==> r.Ok? && txo.header.height == m.start + m.index && CheckTxos(env.h, txo, r.value, info.txoHash).Ok?
  {
  }

  lemma ActivateIff(env: Env, m: Manager, addr: Key, a: Account, txo: Txo.Account)
    requires m.index < m.count && m.start + m.count <= 0x1_0000_0000
    requires Complete(env.h, a) && a.header.locker == env.bridge && txo.Buffer?
    ensures Activate(env.h, env.bridge, m, addr, Memory(a), txo).Ok?
            <==> Shows(env, MintsHeld(a), txo, m.infos[m.index], m.start + m.index, |MintsHeld(a)|)
  {
    ActivateChecks(env, m, addr, Memory(a), txo);
    CheckIff(env, a, m.infos[m.index].mintsHash);
    TxosIff(env, txo, a.header.count, m.infos[m.index].txoHash);
  }

  lemma SetupActivates(env: Env, m: Manager, addr: Key, mem: Bytes, txo: Txo.Account)
    requires NeedsAdvance(m) && txo.Buffer?
    ensures var m1 := FastForward(env.h, m);
            SetupNext(env.h, env.bridge, m, addr, mem, txo).Ok?
            <==> m1.index < m1.count && Activate(env.h, env.bridge, m1, addr, mem, txo).Ok?
  {
    FastForwardMeaning(env.h, m);
  }

  /** Setting up the next block is accepted exactly if the buffers show it. */
  lemma SetupIff(env: Env, m: Manager, k: nat, addr: Key, a: Account, txo: Txo.Account)
    requires IsNextCarrying(env.h, m, k) && m.tracker.remaining == 0 && m.start + m.count <= 0x1_0000_0000
    requires Complete(env.h, a) && a.header.locker == env.bridge && txo.Buffer?
    ensures SetupNext(env.h, env.bridge, m, addr, Memory(a), txo).Ok?
            <==> Shows(env, MintsHeld(a), txo, m.infos[k], m.start + k, |MintsHeld(a)|)
  {
    NextCarryingIs(env.h, m, k);
    FastForwardMeaning(env.h, m);
    SetupActivates(env, m, addr, Memory(a), txo);
    ActivateIff(env, FastForward(env.h, m), addr, a, txo);
  }

  lemma AdvancedClaimLocks(env: Env, s: System, m1: Manager, addr: Key, group: u16, unlock: bool,
          recipients: seq<Key>, token: TokenCall)
    requires ClaimStep(env, s, m1, true, addr, group, unlock, recipients, token).Ok?
    ensures LockAt(env, s.buffers, addr).Ok?
  {
  }

  /** The tracker and the list after an advance. */
  lemma AdvancedList(env: Env, s: System, m1: Manager, addr: Key, txo: Txo.Account)
    requires Sound(env) && SystemInvariant(env, s) && txo.Buffer? && LockAt(env, s.buffers, addr).Ok?
    requires SetupNext(env.h, env.bridge, s.bridge.backlog, addr, MemoryAt(s.buffers, addr), txo) == Ok(m1)
    ensures addr in s.buffers && m1.index < m1.count
    ensures var ms := MintsHeld(s.buffers[addr].account);
            && |ms| <= U16_MAX && m1.tracker == Tracker(addr, NO_BITS, |ms|, GroupCount(|ms|)) && |ms| > 0
            && MintsHeld(Advanced(env, s, m1, addr).buffers[addr].account) == ms
            && Coupled(env, m1, Advanced(env, s, m1, addr).buffers)
  {
    AdvanceKeepsCoupled(env, s, addr, txo);
    LockMeaning(env, s.buffers, addr);
    LockedMemory(env, s.buffers, addr);
    SetupNextMeaning(env, s.bridge.backlog, addr, s.buffers[addr].account, txo);
  }

  /** A claim that comes with an advance needs a lockable buffer, and is then a claim in the advanced state. */
  lemma AdvancedClaimIff(env: Env, s: System, m1: Manager, addr: Key, txo: Txo.Account, group: u16, unlock: bool,
          recipients: seq<Key>, token: TokenCall)
    requires Sound(env) && SystemInvariant(env, s) && txo.Buffer? && LockAt(env, s.buffers, addr).Ok?
    requires SetupNext(env.h, env.bridge, s.bridge.backlog, addr, MemoryAt(s.buffers, addr), txo) == Ok(m1)
    ensures addr in s.buffers
    ensures var ms := MintsHeld(s.buffers[addr].account);
            ClaimStep(env, s, m1, true, addr, group, unlock, recipients, token).Ok? <==>
            ClaimAllowed(env, Tracker(addr, NO_BITS, |ms|, GroupCount(|ms|)), ms, group, unlock, recipients, token)
  {
    AdvancedList(env, s, m1, addr, txo);
    ClaimAcceptedIff(env, Advanced(env, s, m1, addr), addr, group, unlock, recipients, token);
    if Precheck(m1, group, addr).Ok? {
      GroupSizeAtMost24(m1, group, addr);
    }
    AdvanceClaimsAlike(env, s, m1, addr, group, unlock, recipients, token);
  }

  lemma AutoAdvanceParts(env: Env, s: System, addr: Key, owner: Key, group: u16, unlock: bool, recipients: seq<Key>,
          token: TokenCall)
    requires NeedsAdvance(s.bridge.backlog)
    ensures AutoAdvanceStep(env, s, addr, owner, group, unlock, recipients, token).Ok? <==>
              && TxoAt(s, owner).Buffer?
              && var r := SetupNext(env.h, env.bridge, s.bridge.backlog, addr, MemoryAt(s.buffers, addr),
                              TxoAt(s, owner));
                 r.Ok? && ClaimStep(env, s, r.value, true, addr, group, unlock, recipients, token).Ok?
  {
  }

  lemma NextSetupIff(env: Env, s: System, k: nat, addr: Key, txo: Txo.Account)
    requires Sound(env) && SystemInvariant(env, s) && NeedsAdvance(s.bridge.backlog) && txo.Buffer?
    requires IsNextCarrying(env.h, s.bridge.backlog, k) && LockAt(env, s.buffers, addr).Ok?
    ensures addr in s.buffers
    ensures var m, ms := s.bridge.backlog, MintsHeld(s.buffers[addr].account);
            SetupNext(env.h, env.bridge, m, addr, MemoryAt(s.buffers, addr), txo).Ok?
            <==> Shows(env, ms, txo, m.infos[k], m.start + k, |ms|)
  {
    LockMeaning(env, s.buffers, addr);
    LockedMemory(env, s.buffers, addr);
    SetupIff(env, s.bridge.backlog, k, addr, s.buffers[addr].account, txo);
  }

  lemma AdvanceIff(env: Env, s: System, k: nat, addr: Key, owner: Key, group: u16, unlock: bool, recipients: seq<Key>,
          token: TokenCall)
    requires Sound(env) && SystemInvariant(env, s) && NeedsAdvance(s.bridge.backlog)
    requires IsNextCarrying(env.h, s.bridge.backlog, k)
    ensures AutoAdvanceStep(env, s, addr, owner, group, unlock, recipients, token).Ok?
            <==> AdvanceAllowed(env, s, k, addr, owner, group, unlock, recipients, token)
  {
    var txo := TxoAt(s, owner);
    AutoAdvanceParts(env, s, addr, owner, group, unlock, recipients, token);
    if txo.Buffer? {
      var r := SetupNext(env.h, env.bridge, s.bridge.backlog, addr, MemoryAt(s.buffers, addr), txo);
      LockableIff(env, s, addr);
      if Lockable(env, s, addr) {
        NextSetupIff(env, s, k, addr, txo);
        if r.Ok? {
          AdvancedClaimIff(env, s, r.value, addr, txo, group, unlock, recipients, token);
        }
      } else if r.Ok? && ClaimStep(env, s, r.value, true, addr, group, unlock, recipients, token).Ok? {
        AdvancedClaimLocks(env, s, r.value, addr, group, unlock, recipients, token);
      }
    }
  }

  /**
   An auto-advance is accepted exactly if it claims an open group of the active block, or, when
   none is active, the first pending block that carries deposits can be activated from the
   given buffers and the claim asks for one of its groups.
   */
  lemma AutoAdvanceAcceptedIff(env: Env, s: System, addr: Key, owner: Key, group: u16, unlock: bool,
          recipients: seq<Key>, token: TokenCall)
    requires Sound(env) && SystemInvariant(env, s)
    ensures AutoAdvanceStep(env, s, addr, owner, group, unlock, recipients, token).Ok? <==>
              if s.bridge.backlog.tracker.remaining != 0 then
                && addr == s.bridge.backlog.tracker.account
                && ClaimAllowed(env, s.bridge.backlog.tracker, MintsHeld(s.buffers[addr].account), group, unlock,
                   recipients, token)
              else exists k: nat :: AdvanceAllowed(env, s, k, addr, owner, group, unlock, recipients, token)
  {
    var m := s.bridge.backlog;
    if !NeedsAdvance(m) {
      ClaimAcceptedIff(env, s, addr, group, unlock, recipients, token);
    } else {
      var k := NextItem(env.h, m);
      NextCarryingIs(env.h, m, k);
      if k < m.count {
        AdvanceIff(env, s, k, addr, owner, group, unlock, recipients, token);
      } else if TxoAt(s, owner).Buffer? {
        EmptyTailIsStuck(env.h, env.bridge, m, addr, MemoryAt(s.buffers, addr), TxoAt(s, owner));
      }
      forall j: nat | AdvanceAllowed(env, s, j, addr, owner, group, unlock, recipients, token)
        ensures j == k
      {
        NextCarryingIs(env.h, m, j);
      }
    }
  }
}
