/** When the bridge accepts each of its instructions, and exactly what an accepted one does. */
module Acceptance {
  import opened Bytes
  import opened Hashing
  import opened Mints
  import opened MintBuffer
  import opened MintBufferRuns
  import opened Commitment
  import opened Tracker
  import opened Backlog
  import opened Headers
  import opened Bridge
  import opened BridgeErrors
  import opened System
  import opened Coupling
  import opened Alignment
  import opened Runs
  import opened ProofDigests
  import Txo = TxoBuffer

  // ---- Block updates ----

  /** The block carries no deposits: both its lists are committed as empty. */
  predicate CarriesNothing(h: Hash, i: Info) {
    i.mintsHash == h([0, 0]) && i.txoHash == h([])
  }

  /** The bridge can lock the buffer: it is the bridge's, unlocked and all its mints are in. */
  predicate Lockable(env: Env, s: System, addr: Key) {
    && addr in s.buffers && s.buffers[addr].account.Buffer?
    && var hd := s.buffers[addr].account.header;
       hd.isLocked == 0 && hd.initialized == hd.count && hd.locker == env.bridge
  }

  lemma LockableIff(env: Env, s: System, addr: Key)
    ensures LockAt(env, s.buffers, addr).Ok? <==> Lockable(env, s, addr)
  {
  }

  /** The uploads of a block: n mints and its outputs, both committed as the block says. */
  ghost predicate Shows(env: Env, ms: seq<PendingMint>, txo: Txo.Account, info: Info, height: int, n: nat)
    requires txo.Buffer?
  {
    && |ms| == n < U16_MAX && MintsHash(env.h, ms) == info.mintsHash
    && txo.header.height == height && 4 * n <= |txo.body| && env.h(txo.body[..4 * n]) == info.txoHash
  }

  lemma EmptyListHash(h: Hash)
    ensures MintsHash(h, []) == h([0, 0])
  {
    assert LE16(0) == [0, 0] && MintsPreimage(h, []) == [0, 0];
  }

  lemma EmptyCheck(h: Hash, bridge: Key, a: Account, d: Digest)
    requires Complete(h, a) && a.header.count == 0 && a.header.locker == bridge
    ensures CheckMintBuffer(h, bridge, Memory(a), d).Ok? <==> d == h([0, 0])
    ensures CheckMintBuffer(h, bridge, Memory(a), d).Ok? ==> CheckMintBuffer(h, bridge, Memory(a), d).value == 0
  {
    MemoryFields(a);
    CheckedSlice(h, a);
  }

  /** The check of a complete buffer of the bridge, in terms of the list it holds. */
  lemma CheckIff(env: Env, a: Account, d: Digest)
    requires Complete(env.h, a) && a.header.locker == env.bridge
    ensures |MintsHeld(a)| == a.header.count
    ensures CheckMintBuffer(env.h, env.bridge, Memory(a), d).Ok?
            <==> a.header.count < U16_MAX && d == MintsHash(env.h, MintsHeld(a))
    ensures CheckMintBuffer(env.h, env.bridge, Memory(a), d).Ok? ==>
              CheckMintBuffer(env.h, env.bridge, Memory(a), d).value == a.header.count
  {
    if CheckMintBuffer(env.h, env.bridge, Memory(a), d).Ok? {
      AcceptedBuffer(env.h, env.bridge, a, d);
    }
    if a.header.count == 0 {
      EmptyListHash(env.h);
      EmptyCheck(env.h, env.bridge, a, d);
    } else if a.header.count < U16_MAX {
      CheckAcceptsExactlyItsList(env.h, env.bridge, a, d);
    }
  }

  lemma TxosIff(env: Env, txo: Txo.Account, n: u16, d: Digest)
    requires txo.Buffer?
    ensures CheckTxos(env.h, txo, n, d).Ok? <==> 4 * n <= |txo.body| && env.h(txo.body[..4 * n]) == d
  {
  }

  /**
   A list of blocks is taken over exactly if nothing is pending, it fits, and not all its blocks
   are empty although mints are announced.
   */
  lemma AppendIff(h: Hash, m: Manager, height: u32, items: seq<Info>, addr: Key, n: u16)
    requires 0 < |items| && n > 0 && (|items| > 1 ==> !CarriesNothing(h, items[0]))
    ensures AppendBlocks(h, m, height, items, addr, n, MintGroupInfo(n).0).Ok?
            <==> IsDrained(m) && |items| <= 8 && !CarriesNothing(h, items[0])
  {
    if IsDrained(m) && |items| <= 8 {
      var m0 := Manager(items + m.infos[|items|..], 0, |items|, height, Tracker(addr, NO_BITS, 0, 0));
      assert m0.infos[..|items|] == items;
    }
  }

  /** What a single-block transition asks for. */
  ghost predicate UpdateAllowed(env: Env, b: Bridge, proof: Bytes, next: BridgeHeader, ms: seq<PendingMint>,
          txo: Txo.Account)
    requires txo.Buffer?
  {
    var f, g := b.header.finalized, next.finalized;
    var info := Info(g.mintsHash, g.txoHash);
    && b.backlog.count == b.backlog.index && b.backlog.tracker.remaining == 0
    && g.height == f.height + 1 && next.tip.height > b.header.tip.height
    && f.nextIndex <= g.nextIndex <= f.nextIndex + 65535
    && env.verifies(proof, false, UpdateDigest(env.h, b.header, next, b.config, b.custodian))
    && if g.nextIndex == f.nextIndex then g.mintsHash == env.h([0, 0])
       else
         && !CarriesNothing(env.h, info) && txo.header.size != 0
         && Shows(env, ms, txo, info, g.height, g.nextIndex - f.nextIndex)
  }

  lemma LoadSingleIff(env: Env, m: Manager, g: FinalizedState, addr: Key, txo: Txo.Account, n: u16)
    requires txo.Buffer? && n > 0
    ensures LoadSingle(env, m, g, n, addr, txo).Ok? <==>
              && IsDrained(m) && !CarriesNothing(env.h, Info(g.mintsHash, g.txoHash))
              && txo.header.size != 0 && txo.header.height == g.height
              && 4 * n <= |txo.body| && env.h(txo.body[..4 * n]) == g.txoHash
  {
    TxosIff(env, txo, n, g.txoHash);
    AppendIff(env.h, m, g.height, [Info(g.mintsHash, g.txoHash)], addr, n);
  }

  lemma NewMintsIff(env: Env, a: Account, n: u16, d: Digest)
    requires Complete(env.h, a) && a.header.locker == env.bridge
    ensures CheckNewMints(env, Memory(a), n, d) == Ok(d)
            <==> if n == 0 then d == env.h([0, 0])
                 else |MintsHeld(a)| == n < U16_MAX && MintsHash(env.h, MintsHeld(a)) == d
  {
    CheckIff(env, a, d);
  }

  /** The checks of a single-block transition, one after the other. */
  lemma SingleChecks(env: Env, b: Bridge, proof: Bytes, next: BridgeHeader, addr: Key, mem: Bytes, txo: Txo.Account)
    requires txo.Buffer? && b.header.finalized.height < U32_MAX
    ensures var f, g := b.header.finalized, next.finalized;
            SingleTransition(env, b, proof, next, addr, mem, txo).Ok? <==>
            && IsDrained(b.backlog) && g.height == f.height + 1 && next.tip.height > b.header.tip.height
            && f.nextIndex <= g.nextIndex <= f.nextIndex + 65535
            && env.verifies(proof, false, SingleInputs(env, b, next))
            && CheckNewMints(env, mem, g.nextIndex - f.nextIndex, g.mintsHash) == Ok(g.mintsHash)
            && (g.nextIndex > f.nextIndex ==>
                LoadSingle(env, b.backlog, g, g.nextIndex - f.nextIndex, addr, txo).Ok?)
  {
  }

  lemma SingleTransitionIff(env: Env, b: Bridge, proof: Bytes, next: BridgeHeader, addr: Key, a: Account,
          txo: Txo.Account)
    requires Complete(env.h, a) && a.header.locker == env.bridge && txo.Buffer?
    requires b.header.finalized.height < U32_MAX && (b.backlog.count == 0 ==> b.backlog.tracker.remaining == 0)
    ensures SingleTransition(env, b, proof, next, addr, Memory(a), txo).Ok?
            <==> UpdateAllowed(env, b, proof, next, MintsHeld(a), txo)
  {
    var f, g := b.header.finalized, next.finalized;
    UpdateInputsAreDigest(env, b, next);
    SingleChecks(env, b, proof, next, addr, Memory(a), txo);
    if f.nextIndex <= g.nextIndex <= f.nextIndex + 65535 {
      NewMintsIff(env, a, g.nextIndex - f.nextIndex, g.mintsHash);
      if f.nextIndex < g.nextIndex {
        LoadSingleIff(env, b.backlog, g, addr, txo, g.nextIndex - f.nextIndex);
      }
    }
  }

  /** Once the buffer is locked, an update is accepted exactly if its transition is. */
  lemma UpdateFinishes(env: Env, s: System, locked: Buffers, addr: Key, t: Result<Bridge, BridgeError>, moved: bool,
          y: History)
    requires Sound(env) && BuffersWell(env, s.buffers) && NoneLocked(env, s.buffers)
    requires LockAt(env, s.buffers, addr) == Ok(locked)
    ensures FinishUpdate(env, s, locked, addr, t, moved, y).Ok? <==> t.Ok?
  {
    LockMeaning(env, s.buffers, addr);
    UnlockMeaning(env, locked, addr);
  }

  /** What remains of the step once the buffer is locked. */
  lemma {:induction false} UpdateAccepts(env: Env, s: System, locked: Buffers, proof: Bytes, next: BridgeHeader,
          addr: Key, owner: Key)
    requires Sound(env) && SystemInvariant(env, s)
    requires LockAt(env, s.buffers, addr) == Ok(locked) && TxoAt(s, owner).Buffer?
    ensures BlockUpdateStep(env, s, proof, next, addr, owner).Ok? <==>
              && addr == env.bufferOf(owner)
              && SingleTransition(env, s.bridge, proof, next, addr, MemoryAt(locked, addr), TxoAt(s, owner)).Ok?
  {
    var t := SingleTransition(env, s.bridge, proof, next, addr, MemoryAt(locked, addr), TxoAt(s, owner));
    if t.Ok? {
      DrainedIsIdle(env, s.bridge.backlog, s.buffers);
      var f, g := s.bridge.header.finalized, next.finalized;
      var blocks := if f.nextIndex != g.nextIndex then [Block(g.height, Info(g.mintsHash, g.txoHash))] else [];
      var y := s.history.(committed := s.history.committed + blocks, recorded := s.history.recorded + [g]);
      UpdateFinishes(env, s, locked, addr, t, f.nextIndex != g.nextIndex, y);
    }
  }

  /**
   A block update is accepted exactly if it comes from the signer's own buffers, the mint buffer
   can be locked, nothing is pending, the heights rise, a proof ties the new header to the old
   one, and the buffers show the lists of the new deposits or there are none.
   */
  lemma {:induction false} BlockUpdateAcceptedIff(env: Env, s: System, proof: Bytes, next: BridgeHeader, addr: Key,
          owner: Key)
    requires Sound(env) && SystemInvariant(env, s)
    ensures BlockUpdateStep(env, s, proof, next, addr, owner).Ok? <==>
              && addr == env.bufferOf(owner) && Lockable(env, s, addr) && TxoAt(s, owner).Buffer?
              && UpdateAllowed(env, s.bridge, proof, next, MintsHeld(s.buffers[addr].account), TxoAt(s, owner))
  {
    LockableIff(env, s, addr);
    if Lockable(env, s, addr) && TxoAt(s, owner).Buffer? {
      var locked: Buffers := LockAt(env, s.buffers, addr).value;
      LockMeaning(env, s.buffers, addr);
      LockedMemory(env, locked, addr);
      SingleTransitionIff(env, s.bridge, proof, next, addr, locked[addr].account, TxoAt(s, owner));
      assert MintsHeld(locked[addr].account) == MintsHeld(s.buffers[addr].account);
      UpdateAccepts(env, s, locked, proof, next, addr, owner);
    }
  }

  /** The bridge after an accepted single-block transition with n new deposits. */
  lemma {:induction false} SingleTransitionEffect(env: Env, b: Bridge, b': Bridge, proof: Bytes, next: BridgeHeader,
          addr: Key, a: Account, txo: Txo.Account)
    requires Complete(env.h, a) && txo.Buffer? && SingleTransition(env, b, proof, next, addr, Memory(a), txo) == Ok(b')
    ensures var g, n := next.finalized, next.finalized.nextIndex - b.header.finalized.nextIndex;
            && b' == b.(header := next, ring := b'.ring, backlog := b'.backlog)
            && b'.ring.slots == b.ring.slots[b.ring.next := g] && b'.ring.next == (b.ring.next + 1) % 8
            && (n == 0 ==> b'.backlog == b.backlog)
            && (n > 0 ==>
                && b'.backlog.start == g.height && b'.backlog.index == 0 && b'.backlog.count == 1
                && b'.backlog.infos[0] == Info(g.mintsHash, g.txoHash)
                && b'.backlog.tracker == Tracker(addr, NO_BITS, n, GroupCount(n)))
  {
    SingleLoads(env, b, proof, next, addr, a, txo);
    var n := next.finalized.nextIndex - b.header.finalized.nextIndex;
    if n > 0 {
      AcceptedBuffer(env.h, env.bridge, a, next.finalized.mintsHash);
    }
  }

  /** The buffers after an accepted update: kept locked if there is something to claim, else released. */
  lemma LockThenUnlock(env: Env, buffers: Buffers, locked: Buffers, addr: Key)
    requires Sound(env) && BuffersWell(env, buffers) && NoneLocked(env, buffers)
    requires LockAt(env, buffers, addr) == Ok(locked)
    ensures addr in buffers && buffers[addr].account.Buffer?
    ensures UnlockAt(env, locked, addr) == Ok(buffers[addr := Monitored(Released(buffers[addr].account), map[])])
  {
    LockMeaning(env, buffers, addr);
    UnlockMeaning(env, locked, addr);
    var a := Monitored(Released(buffers[addr].account), map[]);
    assert Released(locked[addr].account) == a.account && locked[addr := a] == buffers[addr := a];
  }

  lemma {:induction false} BlockUpdateBuffers(env: Env, s: System, s': System, proof: Bytes, next: BridgeHeader,
          addr: Key, owner: Key)
    requires Sound(env) && SystemInvariant(env, s) && BlockUpdateStep(env, s, proof, next, addr, owner) == Ok(s')
    ensures Lockable(env, s, addr)
    ensures var m := s.buffers[addr];
            && s'.txos == s.txos && s'.supply == s.supply
            && s'.buffers == s.buffers[addr :=
                if next.finalized.nextIndex == s.bridge.header.finalized.nextIndex
                then Monitored(Released(m.account), map[])
                else Monitored(m.account.(header := m.account.header.(isLocked := 1)), m.inserted)]
  {
    LockableIff(env, s, addr);
    var locked: Buffers := LockAt(env, s.buffers, addr).value;
    DrainedIsIdle(env, s.bridge.backlog, s.buffers);
    LockThenUnlock(env, s.buffers, locked, addr);
  }

  /** What an accepted update does. */
  lemma BlockUpdateEffect(env: Env, s: System, s': System, proof: Bytes, next: BridgeHeader, addr: Key, owner: Key)
    requires Sound(env) && SystemInvariant(env, s) && BlockUpdateStep(env, s, proof, next, addr, owner) == Ok(s')
    ensures Lockable(env, s, addr)
    ensures var b, b', m := s.bridge, s'.bridge, s.buffers[addr];
            var g, n := next.finalized, next.finalized.nextIndex - b.header.finalized.nextIndex;
            && b' == b.(header := next, ring := b'.ring, backlog := b'.backlog)
            && b'.ring.slots == b.ring.slots[b.ring.next := g] && b'.ring.next == (b.ring.next + 1) % 8
            && s'.txos == s.txos && s'.supply == s.supply
            && (n == 0 ==>
                b'.backlog == b.backlog && s'.buffers == s.buffers[addr := Monitored(Released(m.account), map[])])
            && (n > 0 ==>
                && b'.backlog.start == g.height && b'.backlog.index == 0 && b'.backlog.count == 1
                && b'.backlog.infos[0] == Info(g.mintsHash, g.txoHash)
                && b'.backlog.tracker == Tracker(addr, NO_BITS, n, GroupCount(n))
                && s'.buffers == s.buffers[addr :=
                    Monitored(m.account.(header := m.account.header.(isLocked := 1)), m.inserted)])
  {
    BlockUpdateShape(env, s, s', proof, next, addr, owner);
    BlockUpdateBuffers(env, s, s', proof, next, addr, owner);
    SingleTransitionEffect(env, s.bridge, s'.bridge, proof, next, addr,
        AccountAt(LockAt(env, s.buffers, addr).value, addr).account, TxoAt(s, owner));
  }

  // ---- Reorganizations ----

  /** The first block that carries deposits. */
  predicate IsFirstCarrying(h: Hash, items: seq<Info>, k: nat) {
    k < |items| && !CarriesNothing(h, items[k]) && forall i :: 0 <= i < k ==> CarriesNothing(h, items[i])
  }

  predicate NoneCarrying(h: Hash, items: seq<Info>) {
    forall i :: 0 <= i < |items| ==> CarriesNothing(h, items[i])
  }

  /** The blocks from the first that carries deposits on fit the backlog, and the buffers show that one. */
  ghost predicate LoadsFrom(env: Env, items: seq<Info>, k: nat, base: int, ms: seq<PendingMint>, txo: Txo.Account)
    requires txo.Buffer?
  {
    IsFirstCarrying(env.h, items, k) && |items| - k <= 8 && Shows(env, ms, txo, items[k], base + k, |ms|)
  }

  /** Either no block carries deposits, or the first that does can be loaded with all that follow. */
  ghost predicate Loadable(env: Env, items: seq<Info>, base: int, ms: seq<PendingMint>, txo: Txo.Account)
    requires txo.Buffer?
  {
    NoneCarrying(env.h, items) || exists k: nat :: LoadsFrom(env, items, k, base, ms, txo)
  }

  /** What a reorganization asks for. */
  ghost predicate ReorgAllowed(env: Env, b: Bridge, proof: Bytes, next: BridgeHeader, extra: seq<Info>,
          ms: seq<PendingMint>, txo: Txo.Account)
    requires txo.Buffer?
  {
    var f, g := b.header.finalized, next.finalized;
    var items := extra + [Info(g.mintsHash, g.txoHash)];
    && b.backlog.count == b.backlog.index && b.backlog.tracker.remaining == 0
    && g.height == f.height + |items| && next.tip.height > b.header.tip.height && f.nextIndex <= g.nextIndex
    && env.verifies(proof, true, ReorgDigest(env.h, b.header, next, extra, b.config, b.custodian))
    && Loadable(env, items, f.height + 1, ms, txo)
  }

  lemma {:induction false} LoadReorgIff(env: Env, m: Manager, items: seq<Info>, k: nat, height: u32, addr: Key,
          a: Account, txo: Txo.Account)
    requires Complete(env.h, a) && a.header.locker == env.bridge && txo.Buffer?
    requires IsFirstCarrying(env.h, items, k) && |items| - k - 1 <= height
    ensures LoadReorg(env, m, items, k, height, addr, Memory(a), txo).Ok? <==>
              IsDrained(m) && LoadsFrom(env, items, k, height - |items| + 1, MintsHeld(a), txo)
  {
    CheckIff(env, a, items[k].mintsHash);
    if CheckMintBuffer(env.h, env.bridge, Memory(a), items[k].mintsHash).Ok? {
      TxosIff(env, txo, a.header.count, items[k].txoHash);
      if a.header.count > 0 {
        AppendIff(env.h, m, height - (|items| - k - 1), items[k..], addr, a.header.count);
      } else {
        EmptyListHash(env.h);
        assert txo.body[..0] == [];
      }
    }
  }

  /** The search of the transition finds that first block. */
  lemma FirstLoads(env: Env, items: seq<Info>, base: nat, ms: seq<PendingMint>, txo: Txo.Account)
    requires txo.Buffer?
    ensures var k := NextNonEmpty(env.h, items, 0);
            && (k < |items| <==> IsFirstCarrying(env.h, items, k))
            && (k == |items| <==> NoneCarrying(env.h, items))
            && (Loadable(env, items, base, ms, txo) <==> k < |items| ==> LoadsFrom(env, items, k, base, ms, txo))
  {
    var k := NextNonEmpty(env.h, items, 0);
    forall i: nat | IsFirstCarrying(env.h, items, i)
      ensures i == k
    {
      assert i < k ==> IsEmptyInfo(env.h, items[i]);
    }
  }

  lemma ReorgLoadIff(env: Env, m: Manager, items: seq<Info>, height: u32, addr: Key, a: Account, txo: Txo.Account)
    requires Complete(env.h, a) && a.header.locker == env.bridge && txo.Buffer? && IsDrained(m)
    requires 0 < |items| <= height
    ensures var k := NextNonEmpty(env.h, items, 0);
            (k < |items| ==> LoadReorg(env, m, items, k, height, addr, Memory(a), txo).Ok?)
            <==> Loadable(env, items, height - |items| + 1, MintsHeld(a), txo)
  {
    var k := NextNonEmpty(env.h, items, 0);
    FirstLoads(env, items, height - |items| + 1, MintsHeld(a), txo);
    if k < |items| {
      LoadReorgIff(env, m, items, k, height, addr, a, txo);
    }
  }

  /** The checks of a reorganization, one after the other. */
  lemma {:induction false} ReorgChecks(env: Env, b: Bridge, proof: Bytes, next: BridgeHeader, extra: seq<Info>,
          addr: Key, mem: Bytes, txo: Txo.Account)
    requires txo.Buffer?
    ensures var f, g := b.header.finalized, next.finalized;
            var items := extra + [Info(g.mintsHash, g.txoHash)];
            var k := NextNonEmpty(env.h, items, 0);
            ReorgTransition(env, b, proof, next, extra, addr, mem, txo).Ok? <==>
            && IsDrained(b.backlog) && g.height == f.height + |items| && next.tip.height > b.header.tip.height
            && f.nextIndex <= g.nextIndex && env.verifies(proof, true, ReorgTransitionInputs(env, b, next, extra))
            && (k < |items| ==> LoadReorg(env, b.backlog, items, k, g.height, addr, mem, txo).Ok?)
  {
  }

  lemma {:induction false} ReorgTransitionIff(env: Env, b: Bridge, proof: Bytes, next: BridgeHeader, extra: seq<Info>,
          addr: Key, a: Account, txo: Txo.Account)
    requires Complete(env.h, a) && a.header.locker == env.bridge && txo.Buffer?
    requires b.backlog.count == 0 ==> b.backlog.tracker.remaining == 0
    ensures ReorgTransition(env, b, proof, next, extra, addr, Memory(a), txo).Ok?
            <==> ReorgAllowed(env, b, proof, next, extra, MintsHeld(a), txo)
  {
    var f, g := b.header.finalized, next.finalized;
    var items := ReorgItems(extra, g);
    ReorgInputsAreDigest(env, b, next, extra);
    ReorgChecks(env, b, proof, next, extra, addr, Memory(a), txo);
    if g.height == f.height + |items| && IsDrained(b.backlog) {
      ReorgLoadIff(env, b.backlog, items, g.height, addr, a, txo);
    }
  }

  lemma {:induction false} ReorgLockedIff(env: Env, s: System, locked: Buffers, proof: Bytes, next: BridgeHeader,
          extra: seq<Info>, addr: Key, txo: Txo.Account)
    requires Sound(env) && SystemInvariant(env, s) && LockAt(env, s.buffers, addr) == Ok(locked) && txo.Buffer?
    ensures addr in s.buffers
    ensures ReorgTransition(env, s.bridge, proof, next, extra, addr, MemoryAt(locked, addr), txo).Ok?
            <==> ReorgAllowed(env, s.bridge, proof, next, extra, MintsHeld(s.buffers[addr].account), txo)
  {
    LockMeaning(env, s.buffers, addr);
    LockedMemory(env, locked, addr);
    ReorgTransitionIff(env, s.bridge, proof, next, extra, addr, locked[addr].account, txo);
    assert MintsHeld(locked[addr].account) == MintsHeld(s.buffers[addr].account);
  }

  /** A reorganization is accepted exactly if the like holds of it and all its blocks. */
  lemma {:induction false} ReorgAcceptedIff(env: Env, s: System, proof: Bytes, next: BridgeHeader, extra: seq<Info>,
          addr: Key, owner: Key)
    requires Sound(env) && SystemInvariant(env, s)
    ensures ReorgStep(env, s, proof, next, extra, addr, owner).Ok? <==>
              && addr == env.bufferOf(owner) && Lockable(env, s, addr) && TxoAt(s, owner).Buffer?
              && ReorgAllowed(env, s.bridge, proof, next, extra, MintsHeld(s.buffers[addr].account),
                 TxoAt(s, owner))
  {
    LockableIff(env, s, addr);
    if Lockable(env, s, addr) && TxoAt(s, owner).Buffer? {
      var locked: Buffers := LockAt(env, s.buffers, addr).value;
      ReorgLockedIff(env, s, locked, proof, next, extra, addr, TxoAt(s, owner));
      ReorgAccepts(env, s, locked, proof, next, extra, addr, owner);
    }
  }

  lemma {:induction false} ReorgAccepts(env: Env, s: System, locked: Buffers, proof: Bytes, next: BridgeHeader,
          extra: seq<Info>, addr: Key, owner: Key)
    requires Sound(env) && SystemInvariant(env, s)
    requires LockAt(env, s.buffers, addr) == Ok(locked) && TxoAt(s, owner).Buffer?
    ensures ReorgStep(env, s, proof, next, extra, addr, owner).Ok? <==>
              && addr == env.bufferOf(owner)
              && ReorgTransition(env, s.bridge, proof, next, extra, addr, MemoryAt(locked, addr), TxoAt(s, owner)).Ok?
  {
    var t := ReorgTransition(env, s.bridge, proof, next, extra, addr, MemoryAt(locked, addr), TxoAt(s, owner));
    if t.Ok? {
      DrainedIsIdle(env, s.bridge.backlog, s.buffers);
      UpdateFinishes(env, s, locked, addr, t, s.bridge.header.finalized.nextIndex != next.finalized.nextIndex,
          Reorganized(env, s, next, extra));
    }
  }

  /** The bridge after an accepted reorganization: from the first block that carries deposits on, all are pending. */
  lemma ReorgTransitionEffect(env: Env, b: Bridge, b': Bridge, proof: Bytes, next: BridgeHeader, extra: seq<Info>,
          addr: Key, a: Account, txo: Txo.Account, k: nat)
    requires Complete(env.h, a) && txo.Buffer?
    requires ReorgTransition(env, b, proof, next, extra, addr, Memory(a), txo) == Ok(b')
    ensures var items := extra + [Info(next.finalized.mintsHash, next.finalized.txoHash)];
            && b' == b.(header := next, backlog := b'.backlog)
            && (NoneCarrying(env.h, items) ==> b'.backlog == b.backlog)
            && (IsFirstCarrying(env.h, items, k) ==>
                var m, n := b'.backlog, |MintsHeld(a)|;
                && m.start == b.header.finalized.height + 1 + k && m.index == 0
                && m.count == |items| - k && m.infos[..m.count] == items[k..]
                && m.tracker == Tracker(addr, NO_BITS, n, GroupCount(n)))
  {
    ReorgLoads(env, b, proof, next, extra, addr, a, txo);
    FirstLoads(env, ReorgItems(extra, next.finalized), 0, [], txo);
  }

  lemma {:induction false} ReorgBuffers(env: Env, s: System, s': System, proof: Bytes, next: BridgeHeader,
          extra: seq<Info>, addr: Key, owner: Key)
    requires Sound(env) && SystemInvariant(env, s) && ReorgStep(env, s, proof, next, extra, addr, owner) == Ok(s')
    ensures Lockable(env, s, addr)
    ensures var m := s.buffers[addr];
            && s'.txos == s.txos && s'.supply == s.supply
            && s'.buffers == s.buffers[addr :=
                if next.finalized.nextIndex == s.bridge.header.finalized.nextIndex
                then Monitored(Released(m.account), map[])
                else Monitored(m.account.(header := m.account.header.(isLocked := 1)), m.inserted)]
  {
    LockableIff(env, s, addr);
    var locked: Buffers := LockAt(env, s.buffers, addr).value;
    DrainedIsIdle(env, s.bridge.backlog, s.buffers);
    LockThenUnlock(env, s.buffers, locked, addr);
  }

  /** What an accepted reorganization does to the bridge. */
  lemma {:induction false} ReorgEffect(env: Env, s: System, s': System, proof: Bytes, next: BridgeHeader,
          extra: seq<Info>, addr: Key, owner: Key, k: nat)
    requires Sound(env) && SystemInvariant(env, s) && ReorgStep(env, s, proof, next, extra, addr, owner) == Ok(s')
    ensures addr in s.buffers
    ensures var b, b', n := s.bridge, s'.bridge, |MintsHeld(s.buffers[addr].account)|;
            var items := extra + [Info(next.finalized.mintsHash, next.finalized.txoHash)];
            && b' == b.(header := next, backlog := b'.backlog)
            && (NoneCarrying(env.h, items) ==> b'.backlog == b.backlog)
            && (IsFirstCarrying(env.h, items, k) ==>
                && b'.backlog.start == b.header.finalized.height + 1 + k && b'.backlog.index == 0
                && b'.backlog.count == |items| - k && b'.backlog.infos[..b'.backlog.count] == items[k..]
                && b'.backlog.tracker == Tracker(addr, NO_BITS, n, GroupCount(n)))
  {
    ReorgParts(env, s, s', proof, next, extra, addr, owner);
    LockMeaning(env, s.buffers, addr);
    var locked: Buffers := LockAt(env, s.buffers, addr).value;
    LockedMemory(env, locked, addr);
    assert MintsHeld(locked[addr].account) == MintsHeld(s.buffers[addr].account);
    ReorgTransitionEffect(env, s.bridge, s'.bridge, proof, next, extra, addr, locked[addr].account, TxoAt(s, owner), k);
  }

  // ---- Blocks without deposits ----

  /** A header that follows the bridge's, adds no deposits, and comes with a proof. */
  ghost predicate ProvedEmpty(env: Env, b: Bridge, proof: Bytes, next: BridgeHeader) {
    var f, g := b.header.finalized, next.finalized;
    && g.height == f.height + 1 < U32_MAX && next.tip.height > b.header.tip.height
    && g.nextIndex == f.nextIndex && g.mintsHash == env.h([0, 0])
    && env.verifies(proof, false, UpdateDigest(env.h, b.header, next, b.config, b.custodian))
  }

  /** Nothing is pending, and the owner's two buffers stand ready. */
  ghost predicate Ready(env: Env, s: System, owner: Key) {
    && s.bridge.backlog.count == s.bridge.backlog.index && s.bridge.backlog.tracker.remaining == 0
    && Lockable(env, s, env.bufferOf(owner)) && TxoAt(s, owner).Buffer?
  }

  /**
   A proved block without deposits is accepted whenever nothing is pending, and leaves everything
   as ready as before.
   */
  lemma {:induction false} EmptyBlockPasses(env: Env, s: System, proof: Bytes, next: BridgeHeader, owner: Key)
    requires Sound(env) && SystemInvariant(env, s) && Ready(env, s, owner) && ProvedEmpty(env, s.bridge, proof, next)
    ensures var op := BlockUpdate(proof, next, env.bufferOf(owner), owner);
            var s' := Apply(env, s, op);
            && StepOf(env, s, op).Ok? && Admissible(env, s, op)
            && SystemInvariant(env, s') && Ready(env, s', owner) && NoneLocked(env, s'.buffers)
            && s'.bridge == s.bridge.(header := next, ring := s'.bridge.ring) && s'.supply == s.supply
  {
    var addr := env.bufferOf(owner);
    var op := BlockUpdate(proof, next, addr, owner);
    BlockUpdateAcceptedIff(env, s, proof, next, addr, owner);
    var s' := Apply(env, s, op);
    BlockUpdateEffect(env, s, s', proof, next, addr, owner);
    StepKeepsInvariant(env, s, op);
  }

  /** Proved headers, each following the one before it. */
  ghost predicate ProvedChain(env: Env, b: Bridge, updates: seq<(Bytes, BridgeHeader)>)
    decreases |updates|
  {
    |updates| > 0 ==>
      && ProvedEmpty(env, b, updates[0].0, updates[0].1)
      && ProvedChain(env, b.(header := updates[0].1), updates[1..])
  }

  function UpdatesBy(env: Env, owner: Key, updates: seq<(Bytes, BridgeHeader)>): seq<Operation>
    decreases |updates|
  {
    if |updates| == 0 then []
    else
      [BlockUpdate(updates[0].0, updates[0].1, env.bufferOf(owner), owner)] + UpdatesBy(env, owner, updates[1..])
  }

  /** The proofs of a chain depend on the headers, configuration and custodian alone. */
  lemma {:induction false} ChainAlike(env: Env, b: Bridge, b': Bridge, updates: seq<(Bytes, BridgeHeader)>)
    requires ProvedChain(env, b, updates)
    requires b.header == b'.header && b.config == b'.config && b.custodian == b'.custodian
    ensures ProvedChain(env, b', updates)
    decreases |updates|
  {
    if |updates| > 0 {
      ChainAlike(env, b.(header := updates[0].1), b'.(header := updates[0].1), updates[1..]);
    }
  }

  /**
   Any number of proved blocks without deposits is accepted in a row: the bridge ends at the last
   header, still ready.
   */
  lemma {:induction false} EmptyBlocksPass(env: Env, s: System, updates: seq<(Bytes, BridgeHeader)>, owner: Key)
    requires Sound(env) && SystemInvariant(env, s) && Ready(env, s, owner) && ProvedChain(env, s.bridge, updates)
    ensures var ops := UpdatesBy(env, owner, updates);
            var s' := RunOf(env, s, ops);
            && IsRun(env, s, ops) && Ready(env, s', owner) && SystemInvariant(env, s') && s'.supply == s.supply
            && s'.bridge.header == (if |updates| == 0 then s.bridge.header else updates[|updates| - 1].1)
    decreases |updates|
  {
    if |updates| > 0 {
      EmptyBlockPasses(env, s, updates[0].0, updates[0].1, owner);
      var op := BlockUpdate(updates[0].0, updates[0].1, env.bufferOf(owner), owner);
      var s1 := Apply(env, s, op);
      ChainAlike(env, s.bridge.(header := updates[0].1), s1.bridge, updates[1..]);
      EmptyBlocksPass(env, s1, updates[1..], owner);
      var ops := UpdatesBy(env, owner, updates);
      assert ops[0] == op && ops[1..] == UpdatesBy(env, owner, updates[1..]);
    }
  }
}
