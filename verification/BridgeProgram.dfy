/** The bridge program as it updates its accounts in place, one transaction at a time. */
module BridgeProgram {
  import opened Bytes
  import opened Hashing
  import opened Mints
  import opened MintBufferRuns
  import opened Commitment
  import opened Backlog
  import opened Headers
  import opened Bridge
  import opened BridgeErrors
  import opened System
  import opened MintManagers
  import Ledger
  import Payments
  import ProofDigests
  import RecentBlocks
  import PublicInputs
  import TxoIndex
  import Txo = TxoBuffer

  /** The outcome of reading records when `done` were read before. */
  ghost function Resumed(done: seq<PendingMint>, r: Result<seq<PendingMint>, BridgeError>)
          : Result<seq<PendingMint>, BridgeError> {
    match r
    case Ok(rest) => Ok(done + rest)
    case Err(e) => Err(e)
  }

  /** The history with these records booked as minted by one token call. */
  ghost function Booked(y: History, own: Key, token: TokenCall, ms: seq<PendingMint>): History {
    y.(minted := y.minted + ms, paidOn := y.paidOn + Repeated(token.mint, |ms|),
       strayed := y.strayed + Elsewhere(own, token, TotalAmount(ms)))
  }

  lemma BookOneMore(y: History, own: Key, token: TokenCall, done: seq<PendingMint>, m: PendingMint)
    ensures TotalAmount(done + [m]) == TotalAmount(done) + m.amount
    ensures var z := Booked(y, own, token, done);
            Booked(y, own, token, done + [m])
            == z.(minted := z.minted + [m], paidOn := z.paidOn + [token.mint],
                strayed := z.strayed + Elsewhere(own, token, m.amount))
  {
    Ledger.TotalAmountConcat(done, [m]);
    assert Repeated(token.mint, |done + [m]|) == Repeated(token.mint, |done|) + [token.mint];
  }

  lemma BookNone(y: History, own: Key, token: TokenCall)
    ensures Booked(y, own, token, []) == y
  {
  }

  lemma Resume(r: Result<seq<PendingMint>, BridgeError>)
    ensures Resumed([], r) == r
  {
    if r.Ok? {
      assert [] + r.value == r.value;
    }
  }

  lemma ResumeWith(done: seq<PendingMint>, m: PendingMint, r: Result<seq<PendingMint>, BridgeError>)
    ensures Resumed(done, Resumed([m], r)) == Resumed(done + [m], r)
  {
    if r.Ok? {
      assert done + ([m] + r.value) == done + [m] + r.value;
    }
  }

  /** First item with deposits of a list of blocks, or its length: the scan of the program. */
  method FirstWithDeposits(h: Hash, items: seq<Info>) returns (first: nat)
    ensures first == NextNonEmpty(h, items, 0)
  {
    for i := 0 to |items|
      invariant NextNonEmpty(h, items, 0) == NextNonEmpty(h, items, i)
    {
      if !IsEmptyInfo(h, items[i]) {
        return i;
      }
    }
    return |items|;
  }

  class Program {
    const manager: MintManager
    var header: BridgeHeader
    const slots: array<FinalizedState>
    var nextSlot: u32
    var money: Money
    var withdrawals: seq<Withdrawal>
    var deposits: seq<Deposit>
    var config: Config
    var custodian: Digest
    var operator: Key
    var dogeMint: Key
    var buffers: Buffers
    var txos: map<Key, Txo.Account>
    var supply: int
    ghost var history: History

    predicate Valid()
      reads this, manager
    {
      manager.Valid() && slots.Length == 8 && nextSlot < 8
    }

    ghost function State(): System
      requires Valid()
      reads this, manager, manager.infos, manager.claimed, slots
    {
      System(
        Bridge(header, Ring(slots[..], nextSlot), manager.Contents(), money, withdrawals, deposits, config,
            custodian, operator, dogeMint),
        buffers, txos, supply, history)
    }

    constructor (first: BridgeHeader, fees: Config, wallet: Digest, op: Key, mint: Key, tokens: int)
      ensures Valid() && fresh(manager) && fresh(manager.infos) && fresh(manager.claimed) && fresh(slots)
      ensures State() == System(Initial(first, fees, wallet, op, mint), map[], map[], tokens, NO_HISTORY)
    {
      manager := new MintManager();
      header := first;
      slots := new FinalizedState[8](_ => first.finalized);
      nextSlot, money, withdrawals, deposits := 0, Money(0, 0, 0, 0), [], [];
      config, custodian, operator, dogeMint := fees, wallet, op, mint;
      buffers, txos, supply, history := map[], map[], tokens, NO_HISTORY;
      new;
      assert slots[..] == Repeated(first.finalized, 8);
    }

    /** Initialization, which asks for nothing and overwrites everything. */
    method Initialize(first: BridgeHeader, fees: Config, wallet: Digest, op: Key, mint: Key)
      requires Valid()
      modifies this, manager, manager.infos, manager.claimed, slots
      ensures Valid() && State() == old(State()).(bridge := Initial(first, fees, wallet, op, mint))
    {
      dogeMint := mint;
      header := first;
      RestoreSlots(Repeated(first.finalized, 8));
      manager.Restore(NEW_MANAGER);
      custodian := wallet;
      nextSlot, money, withdrawals, deposits := 0, Money(0, 0, 0, 0), [], [];
      config, operator := fees, op;
    }

    // ---- Claims ----

    /** Mint one record per recipient, straight from the buffer's memory. */
    method MintRecords(env: Env, mem: Bytes, offset: nat, recipients: seq<Key>, token: TokenCall)
      returns (r: Result<(), BridgeError>)
      requires |recipients| > 0
      modifies this`supply, this`history
      ensures r.Ok? <==> token.ok && AllOn(env, token.mint, recipients) && ReadMints(mem, offset, recipients).Ok?
      ensures r.Ok? ==> var ms := ReadMints(mem, offset, recipients).value;
                        && supply == old(supply) + OnOwnMint(dogeMint, token, TotalAmount(ms))
                        && history == old(history).(minted := old(history).minted + ms,
                            paidOn := old(history).paidOn + Repeated(token.mint, |ms|),
                            strayed := old(history).strayed + Elsewhere(dogeMint, token, TotalAmount(ms)))
    {
      ghost var done: seq<PendingMint> := [];
      assert recipients[0..] == recipients;
      Resume(ReadMints(mem, offset, recipients));
      BookNone(history, dogeMint, token);
      for p := 0 to |recipients|
        invariant ReadMints(mem, offset, recipients) == Resumed(done, ReadMints(mem, offset + 40 * p, recipients[p..]))
        invariant p > 0 ==> token.ok
        invariant forall i :: 0 <= i < p ==> env.mintOf(recipients[i]) == Some(token.mint)
        invariant supply == old(supply) + OnOwnMint(dogeMint, token, TotalAmount(done))
        invariant history == Booked(old(history), dogeMint, token, done)
      {
        var at := offset + 40 * p;
        assert recipients[p..][0] == recipients[p] && recipients[p..][1..] == recipients[p + 1..];
        if at + 40 > |mem| {
          return Err(Panic);
        }
        var m := ParseMint(mem[at..at + 40]);
        if m.recipient != recipients[p] {
          return Err(AccountMismatch);
        }
        if !token.ok || env.mintOf(recipients[p]) != Some(token.mint) {
          return Err(CpiTokenMintToCallError);
        }
        supply := supply + OnOwnMint(dogeMint, token, m.amount);
        history := history.(minted := history.minted + [m], paidOn := history.paidOn + [token.mint],
            strayed := history.strayed + Elsewhere(dogeMint, token, m.amount));
        BookOneMore(old(history), dogeMint, token, done, m);
        ResumeWith(done, m, ReadMints(mem, at + 40, recipients[p + 1..]));
        done := done + [m];
      }
      assert done + [] == done;
      return Ok(());
    }

    /** Lock the buffer of a block just activated. */
    method LockActivated(env: Env, ghost m: Manager, addr: Key) returns (r: Result<(), BridgeError>)
      modifies this`buffers, this`history
      ensures r.Ok? <==> LockAt(env, old(buffers), addr).Ok?
      ensures r.Ok? ==> buffers == LockAt(env, old(buffers), addr).value
      ensures r.Ok? ==> history == if m.index < m.count
                                   then old(history).(activated := old(history).activated
                                       + [CurrentActivation(m, AccountAt(buffers, addr).account)])
                                   else old(history)
    {
      var locked := LockAt(env, buffers, addr);
      if locked.Err? {
        return Err(locked.error);
      }
      buffers := locked.value;
      if m.index < m.count {
        history := history.(activated := history.activated + [CurrentActivation(m, AccountAt(buffers, addr).account)]);
      }
      return Ok(());
    }

    /** Mint a checked group: lock first if the block was only just activated, unlock with the last group. */
    method PayGroup(env: Env, ghost s: System, ghost m: Manager, ghost c: Claim, advanced: bool, addr: Key,
            size: u16, offset: nat, unlock: bool, recipients: seq<Key>, token: TokenCall)
      returns (r: Result<(), BridgeError>)
      requires Valid() && |recipients| > 0
      requires State() == s.(bridge := s.bridge.(backlog := c.next)) && size == c.size && offset == c.offset
      modifies this`buffers, this`supply, this`history
      ensures r.Ok? <==> PayOut(env, s, m, c, advanced, addr, unlock, recipients, token).Ok?
      ensures r.Ok? ==> State() == PayOut(env, s, m, c, advanced, addr, unlock, recipients, token).value
    {
      if advanced {
        r := LockActivated(env, m, addr);
        if r.Err? {
          return r;
        }
      }
      var minted := MintRecords(env, MemoryAt(buffers, addr), offset, recipients, token);
      if minted.Err? {
        return Err(minted.error);
      }
      if unlock {
        if advanced && size > 24 {
          return Err(CannotUnlockAfterAutoAdvance);
        }
        var released := UnlockAt(env, buffers, addr);
        if released.Err? {
          return Err(released.error);
        }
        buffers := released.value;
      }
      return Ok(());
    }

    /** Claim a group of the backlog as it now is. */
    method Claim(env: Env, advanced: bool, addr: Key, group: u16, unlock: bool, recipients: seq<Key>, token: TokenCall)
      returns (r: Result<(), BridgeError>)
      requires Valid()
      modifies this`buffers, this`supply, this`history, manager, manager.claimed
      ensures Valid()
      ensures r.Ok? <==> ClaimStep(env, old(State()), old(State()).bridge.backlog, advanced, addr, group, unlock,
              recipients, token).Ok?
      ensures r.Ok?
              ==> State() == ClaimStep(env, old(State()), old(State()).bridge.backlog, advanced, addr, group, unlock,
                  recipients, token).value
    {
      ghost var s, m := State(), manager.Contents();
      if addr != manager.account {
        return Err(InvalidAccountKey);
      }
      var checked := manager.RunAutoMintGroupPrecheck(group, addr);
      if checked.Err? {
        return Err(checked.error);
      }
      ghost var c := Precheck(m, group, addr).value;
      var (canUnlock, size, offset) := checked.value;
      if canUnlock != unlock {
        return Err(if unlock then AttemptedUnlockPendingMintBuffer else FailedUnlockPendingMintBuffer);
      }
      if size != |recipients| {
        return Err(InvalidAccountInput);
      }
      r := PayGroup(env, s, m, c, advanced, addr, size, offset, unlock, recipients, token);
    }

    method ProcessMintGroup(env: Env, signer: Key, addr: Key, group: u16, unlock: bool, recipients: seq<Key>,
            token: TokenCall)
      returns (r: Result<(), BridgeError>)
      requires Valid()
      modifies this`buffers, this`supply, this`history, manager, manager.claimed
      ensures Valid()
      ensures r.Ok? <==> MintGroupStep(env, old(State()), signer, addr, group, unlock, recipients, token).Ok?
      ensures r.Ok?
              ==> State() == MintGroupStep(env, old(State()), signer, addr, group, unlock, recipients, token).value
    {
      if addr != manager.account {
        return Err(InvalidAccountKey);
      }
      if token.mint != dogeMint {
        return Err(InvalidAccountInput);
      }
      if signer != operator {
        return Err(MissingRequiredSignature);
      }
      r := Claim(env, false, addr, group, unlock, recipients, token);
    }

    method ProcessMintGroupAutoAdvance(env: Env, addr: Key, owner: Key, group: u16, unlock: bool,
            recipients: seq<Key>, token: TokenCall)
      returns (r: Result<(), BridgeError>)
      requires Valid()
      modifies this`buffers, this`supply, this`history, manager, manager.claimed
      ensures Valid()
      ensures r.Ok? <==> AutoAdvanceStep(env, old(State()), addr, owner, group, unlock, recipients, token).Ok?
      ensures r.Ok?
              ==> State() == AutoAdvanceStep(env, old(State()), addr, owner, group, unlock, recipients, token).value
    {
      ghost var s := State();
      var advance := manager.remaining == 0 && !IsDrained(manager.Contents());
      if advance {
        if owner !in txos || txos[owner].Missing? {
          return Err(BridgeError.IllegalOwner);
        }
        var ready := manager.RunSetupNextPendingBuffer(env.h, env.bridge, addr, MemoryAt(buffers, addr), txos[owner]);
        if ready.Err? {
          return Err(ready.error);
        }
        ClaimIgnoresBacklog(env, s, State(), manager.Contents(), addr, group, unlock, recipients, token);
      }
      r := Claim(env, advance, addr, group, unlock, recipients, token);
    }

    // ---- Block updates ----

    method RunStandardSingleBlockTransition(env: Env, proof: Bytes, next: BridgeHeader, addr: Key, mem: Bytes,
            txo: Txo.Account)
      returns (r: Result<(), BridgeError>)
      requires Valid() && txo.Buffer?
      modifies this`header, this`nextSlot, manager, manager.infos, manager.claimed, slots
      ensures Valid()
      ensures r.Ok? <==> SingleTransition(env, old(State()).bridge, proof, next, addr, mem, txo).Ok?
      ensures r.Ok?
              ==> State() == old(State()).(bridge := SingleTransition(env, old(State()).bridge, proof, next, addr,
                  mem, txo).value)
      ensures r.Ok? ==> env.verifies(proof, false,
              ProofDigests.UpdateDigest(env.h, old(header), next, config, custodian))
    {
      ghost var b := State().bridge;
      var f, g := header.finalized, next.finalized;
      if !IsDrained(manager.Contents()) {
        return Err(ProgramStateNotReadyForBlockUpdate);
      }
      if g.height != (f.height + 1) % 0x1_0000_0000 || next.tip.height <= header.tip.height {
        return Err(InvalidBlockHeightForSingleBlockTransition);
      }
      if g.nextIndex < f.nextIndex {
        return Err(InvalidAutoClaimedDepositsNextIndex);
      }
      if g.nextIndex - f.nextIndex > U16_MAX {
        return Err(TooManyNewAutoClaimedDeposits);
      }
      var claims: u16 := g.nextIndex - f.nextIndex;
      var inputs := PublicInputs.BlockTransitionInputs(env.h, HeaderHash(env.h, header), HeaderHash(env.h, next),
          env.h(ConfigBytes(config)), custodian);
      ProofDigests.UpdateInputsAreDigest(env, b, next);
      if !env.verifies(proof, false, inputs) {
        return Err(InvalidBridgeInputZKP);
      }
      var shown := CheckNewMints(env, mem, claims, g.mintsHash);
      if shown.Err? {
        return Err(shown.error);
      }
      if shown.value != g.mintsHash {
        return Err(InvalidPendingMintsBufferHash);
      }
      if claims > 0 {
        r := LoadSingleBlock(env, g, claims, addr, txo);
        if r.Err? {
          return r;
        }
      }
      RecordHeader(next);
      return Ok(());
    }

    /** Take over the new header and note its finalized state in the ring. */
    method RecordHeader(next: BridgeHeader)
      requires Valid()
      modifies this`header, this`nextSlot, slots
      ensures Valid() && header == next
      ensures Ring(slots[..], nextSlot) == Record(old(Ring(slots[..], nextSlot)), next.finalized)
    {
      header := next;
      slots[nextSlot] := next.finalized;
      nextSlot := (nextSlot + 1) % 8;
    }

    method LoadSingleBlock(env: Env, g: FinalizedState, claims: u16, addr: Key, txo: Txo.Account)
      returns (r: Result<(), BridgeError>)
      requires Valid() && txo.Buffer?
      modifies manager, manager.infos, manager.claimed
      ensures Valid()
      ensures r.Ok? <==> LoadSingle(env, old(manager.Contents()), g, claims, addr, txo).Ok?
      ensures r.Ok? ==> manager.Contents() == LoadSingle(env, old(manager.Contents()), g, claims, addr, txo).value
    {
      var n: nat := claims;
      if |txo.body| < 4 * n {
        return Err(InvalidAutoClaimTxoBufferDataAccountSize);
      }
      if txo.header.height != g.height || txo.header.size == 0 {
        return Err(InvalidAutoClaimTxoBufferPendingMintsCount);
      }
      if env.h(txo.body[..4 * n]) != g.txoHash {
        return Err(InvalidAutoClaimTxoBufferHash);
      }
      r := manager.StandardAppendBlock(env.h, g.height, [Info(g.mintsHash, g.txoHash)], addr, claims,
          MintGroupInfo(claims).0);
    }

    method RunBlockTransitionReorg(env: Env, proof: Bytes, next: BridgeHeader, extra: seq<Info>, addr: Key,
            mem: Bytes, txo: Txo.Account)
      returns (r: Result<(), BridgeError>)
      requires Valid() && txo.Buffer?
      modifies this`header, manager, manager.infos, manager.claimed
      ensures Valid()
      ensures r.Ok? <==> ReorgTransition(env, old(State()).bridge, proof, next, extra, addr, mem, txo).Ok?
      ensures r.Ok?
              ==> State() == old(State()).(bridge := ReorgTransition(env, old(State()).bridge, proof, next, extra,
                  addr, mem, txo).value)
      ensures r.Ok? ==> env.verifies(proof, true,
              ProofDigests.ReorgDigest(env.h, old(header), next, extra, config, custodian))
    {
      ghost var b := State().bridge;
      var f, g := header.finalized, next.finalized;
      if !IsDrained(manager.Contents()) {
        return Err(ProgramStateNotReadyForBlockUpdate);
      }
      if g.height <= f.height || next.tip.height <= header.tip.height {
        return Err(InvalidBlockHeightForSingleBlockTransition);
      }
      if |extra| != g.height - f.height - 1 {
        return Err(InvalidExtraFinalizedBlocksLengthForReorg);
      }
      if g.nextIndex < f.nextIndex {
        return Err(InvalidAutoClaimedDepositsNextIndex);
      }
      var inputs := PublicInputs.ReorgInputs(env.h, HeaderHash(env.h, header), HeaderHash(env.h, next), extra,
          env.h(ConfigBytes(config)), custodian);
      ProofDigests.ReorgInputsAreDigest(env, b, next, extra);
      if !env.verifies(proof, true, inputs) {
        return Err(InvalidBridgeInputZKP);
      }
      var items := extra + [Info(g.mintsHash, g.txoHash)];
      var first := FirstWithDeposits(env.h, items);
      if first < |items| {
        r := LoadReorgBlocks(env, items, first, g.height, addr, mem, txo);
        if r.Err? {
          return r;
        }
      }
      header := next;
      return Ok(());
    }

    method LoadReorgBlocks(env: Env, items: seq<Info>, first: nat, height: u32, addr: Key, mem: Bytes, txo: Txo.Account)
      returns (r: Result<(), BridgeError>)
      requires Valid() && txo.Buffer? && first < |items| && |items| - first - 1 <= height
      modifies manager, manager.infos, manager.claimed
      ensures Valid()
      ensures r.Ok? <==> LoadReorg(env, old(manager.Contents()), items, first, height, addr, mem, txo).Ok?
      ensures r.Ok?
              ==> manager.Contents() == LoadReorg(env, old(manager.Contents()), items, first, height, addr, mem,
                  txo).value
    {
      var checked := CheckMintBuffer(env.h, env.bridge, mem, items[first].mintsHash);
      if checked.Err? {
        return Err(checked.error);
      }
      var n: nat := checked.value;
      if |txo.body| < 4 * n {
        return Err(InvalidAutoClaimTxoBufferDataAccountSize);
      }
      var firstHeight: u32 := height - (|items| - first - 1);
      if txo.header.height != firstHeight {
        return Err(InvalidAutoClaimTxoBufferPendingMintsCount);
      }
      if env.h(txo.body[..4 * n]) != items[first].txoHash {
        return Err(InvalidAutoClaimTxoBufferHash);
      }
      r := manager.StandardAppendBlock(env.h, firstHeight, items[first..], addr, checked.value,
          MintGroupInfo(checked.value).0);
    }

    /** Check that the mint buffer is the signer's, lock it, and fetch the signer's output buffer. */
    method BeginBlockUpdate(env: Env, addr: Key, owner: Key) returns (r: Result<Txo.Account, BridgeError>)
      requires Valid()
      modifies this`buffers
      ensures r.Ok?
              <==> addr == env.bufferOf(owner) && LockAt(env, old(buffers), addr).Ok?
                   && TxoAt(old(State()), owner).Buffer?
      ensures r.Ok? ==> r.value == TxoAt(old(State()), owner) && buffers == LockAt(env, old(buffers), addr).value
    {
      if addr != env.bufferOf(owner) {
        return Err(InvalidMintBufferPDA);
      }
      var locked := LockAt(env, buffers, addr);
      if locked.Err? {
        return Err(locked.error);
      }
      buffers := locked.value;
      if owner !in txos || txos[owner].Missing? {
        return Err(BridgeError.IllegalOwner);
      }
      return Ok(txos[owner]);
    }

    /** Unlock the buffer again if no deposit is new. */
    method FinishBlockUpdate(env: Env, ghost s: System, ghost b: Bridge, ghost y: History, addr: Key, moved: bool)
      returns (r: Result<(), BridgeError>)
      requires Valid()
      requires State() == s.(bridge := b, buffers := buffers)
      modifies this`buffers, this`history
      ensures r.Ok? <==> FinishUpdate(env, s, old(buffers), addr, Ok(b), moved, y).Ok?
      ensures r.Ok? ==> State() == FinishUpdate(env, s, old(buffers), addr, Ok(b), moved, y).value
    {
      history := NoteActivation(y, b.backlog, AccountAt(buffers, addr).account);
      if !moved {
        var released := UnlockAt(env, buffers, addr);
        if released.Err? {
          return Err(released.error);
        }
        buffers := released.value;
      }
      return Ok(());
    }

    /** Lock the buffer, run the single-block transition, finish. */
    method ProcessBlockUpdate(env: Env, proof: Bytes, next: BridgeHeader, addr: Key, owner: Key)
      returns (r: Result<(), BridgeError>)
      requires Valid()
      modifies this, manager, manager.infos, manager.claimed, slots
      ensures Valid()
      ensures r.Ok? <==> BlockUpdateStep(env, old(State()), proof, next, addr, owner).Ok?
      ensures r.Ok? ==> State() == BlockUpdateStep(env, old(State()), proof, next, addr, owner).value
      ensures r.Ok? ==> env.verifies(proof, false,
              ProofDigests.UpdateDigest(env.h, old(header), next, old(config), old(custodian)))
    {
      ghost var s := State();
      var txo := BeginBlockUpdate(env, addr, owner);
      if txo.Err? {
        return Err(txo.error);
      }
      var f, g := header.finalized, next.finalized;
      r := RunStandardSingleBlockTransition(env, proof, next, addr, MemoryAt(buffers, addr), txo.value);
      if r.Err? {
        return r;
      }
      ghost var blocks := if f.nextIndex != g.nextIndex then [Block(g.height, Info(g.mintsHash, g.txoHash))] else [];
      ghost var y := history.(committed := history.committed + blocks, recorded := history.recorded + [g]);
      r := FinishBlockUpdate(env, s, State().bridge, y, addr, f.nextIndex != g.nextIndex);
    }

    /** With the buffer locked, run the reorganization and finish. */
    method ReorgLocked(env: Env, ghost s: System, proof: Bytes, next: BridgeHeader, extra: seq<Info>, addr: Key,
            txo: Txo.Account, ghost y: History)
      returns (r: Result<(), BridgeError>)
      requires Valid() && txo.Buffer? && State() == s.(buffers := buffers)
      modifies this`header, this`buffers, this`history, manager, manager.infos, manager.claimed
      ensures Valid()
      ensures r.Ok? <==> ReorgLockedStep(env, s, old(buffers), proof, next, extra, addr, txo, y).Ok?
      ensures r.Ok? ==> State() == ReorgLockedStep(env, s, old(buffers), proof, next, extra, addr, txo, y).value
      ensures r.Ok? ==> env.verifies(proof, true,
              ProofDigests.ReorgDigest(env.h, old(header), next, extra, config, custodian))
    {
      var moved := header.finalized.nextIndex != next.finalized.nextIndex;
      r := RunBlockTransitionReorg(env, proof, next, extra, addr, MemoryAt(buffers, addr), txo);
      if r.Err? {
        return r;
      }
      r := FinishBlockUpdate(env, s, State().bridge, y, addr, moved);
    }

    /** Lock the buffer, run the reorganization, finish. */
    method ProcessReorgBlocks(env: Env, proof: Bytes, next: BridgeHeader, extra: seq<Info>, addr: Key, owner: Key)
      returns (r: Result<(), BridgeError>)
      requires Valid()
      modifies this`header, this`buffers, this`history, manager, manager.infos, manager.claimed
      ensures Valid()
      ensures r.Ok? <==> ReorgStep(env, old(State()), proof, next, extra, addr, owner).Ok?
      ensures r.Ok? ==> State() == ReorgStep(env, old(State()), proof, next, extra, addr, owner).value
      ensures r.Ok? ==> env.verifies(proof, true,
              ProofDigests.ReorgDigest(env.h, old(header), next, extra, config, custodian))
    {
      ghost var s := State();
      var txo := BeginBlockUpdate(env, addr, owner);
      if txo.Err? {
        return Err(txo.error);
      }
      r := ReorgLocked(env, s, proof, next, extra, addr, txo.value, Reorganized(env, s, next, extra));
    }

    // ---- Money ----

    /** Scan the header and the slots for the claimed deposit root. */
    method FindRecentRoots(root: Digest) returns (height: u32, blockRoot: Digest)
      requires Valid()
      ensures (height, blockRoot) == FindRecent(State().bridge, root)
    {
      if header.finalized.depositsRoot == root {
        return header.finalized.height, header.finalized.blockRoot;
      }
      height, blockRoot := RecentBlocks.ScanSlots(slots, root);
    }

    method ClaimManualDeposit(env: Env, txHash: Digest, blockRoot: Digest, claimRoot: Digest, txoIndex: u64,
            recipient: Key, amount: u64, token: TokenCall)
      returns (r: Result<(), BridgeError>)
      requires Valid()
      modifies this`money, this`deposits, this`supply, this`history
      ensures r.Ok? <==> ManualDepositStep(env, old(State()), txHash, blockRoot, claimRoot, txoIndex, recipient,
              amount, token).Ok?
      ensures r.Ok?
              ==> State() == ManualDepositStep(env, old(State()), txHash, blockRoot, claimRoot, txoIndex, recipient,
                  amount, token).value
      ensures r.Ok? ==> var fee := Payments.ScheduledFee(config.deposit, amount);
                        && fee < amount
                        && deposits == old(deposits) + [Deposit(txHash, txoIndex, recipient, amount - fee)]
                        && (token.mint == dogeMint ==> supply == old(supply) + amount - fee)
    {
      Payments.ChargesIff(amount, config.deposit);
      var height, root := FindRecentRoots(claimRoot);
      if height == INVALID_BLOCK_HEIGHT || TxoIndex.BlockOf(txoIndex) > height {
        return Err(AutoClaimedDepositTreeRootNotRecentEnough);
      }
      if root != blockRoot {
        return Err(BlockMerkleTreeRootNotRecentEnough);
      }
      var f := FeeOrNothing(amount, config.deposit);
      if f.fee == 0 || f.net == 0 {
        return Err(InsufficientBridgeFees);
      }
      money := money.(depositFees := Wrap64(money.depositFees + f.fee));
      deposits := deposits + [Deposit(txHash, txoIndex, recipient, f.net)];
      if !token.ok || env.mintOf(recipient) != Some(token.mint) {
        return Err(CpiTokenMintToCallError);
      }
      supply := supply + OnOwnMint(dogeMint, token, f.net);
      history := history.(grossDeposits := history.grossDeposits + amount, depositFees := history.depositFees + f.fee,
                          strayed := history.strayed + Elsewhere(dogeMint, token, f.net));
      return Ok(());
    }

    method ProcessRequestWithdrawal(amount: u64, addressType: u32, address: Bytes, token: TokenCall)
      returns (r: Result<(), BridgeError>)
      requires Valid()
      modifies this`money, this`withdrawals, this`supply, this`history
      ensures r.Ok? <==> WithdrawStep(old(State()), amount, addressType, address, token).Ok?
      ensures r.Ok? ==> State() == WithdrawStep(old(State()), amount, addressType, address, token).value
      ensures r.Ok? ==> var fee := Payments.ScheduledFee(config.withdrawal, amount);
                        && fee < amount
                        && withdrawals == old(withdrawals) + [Withdrawal(amount - fee, addressType, address)]
                        && (token.mint == dogeMint ==> supply == old(supply) - amount)
    {
      Payments.ChargesIff(amount, config.withdrawal);
      var f := FeeOrNothing(amount, config.withdrawal);
      if f.fee == 0 || f.net == 0 {
        return Err(InvalidWithdrawalAmount);
      }
      money := money.(withdrawalFees := Wrap64(money.withdrawalFees + f.fee),
          requested := Wrap64(money.requested + amount));
      withdrawals := withdrawals + [Withdrawal(f.net, addressType, address)];
      if !token.ok {
        return Err(CpiTokenBurnCallError);
      }
      var burned: int := amount;
      supply := supply + OnOwnMint(dogeMint, token, -burned);
      history := history.(withdrawalFees := history.withdrawalFees + f.fee,
                          strayed := history.strayed + Elsewhere(dogeMint, token, -burned));
      return Ok(());
    }

    method OperatorWithdrawFees(signer: Key, token: TokenCall) returns (r: Result<(), BridgeError>)
      requires Valid()
      modifies this`money, this`supply, this`history
      ensures r.Ok? <==> OperatorWithdrawStep(old(State()), signer, token).Ok?
      ensures r.Ok? ==> State() == OperatorWithdrawStep(old(State()), signer, token).value
      ensures r.Ok? ==> signer == operator && token.mint == dogeMint
                        && money == old(money).(feesWithdrawn := Payments.FeesBooked(State().bridge))
                        && supply - old(supply) == money.feesWithdrawn - old(money).feesWithdrawn
    {
      if token.mint != dogeMint {
        return Err(InvalidAccountInput);
      }
      if signer != operator {
        return Err(MissingRequiredSignature);
      }
      var total := Wrap64(money.depositFees + money.withdrawalFees + header.chainFees);
      if total <= money.feesWithdrawn {
        return Err(NoOperatorFeesToWithdraw);
      }
      var due := total - money.feesWithdrawn;
      money := money.(feesWithdrawn := Wrap64(money.feesWithdrawn + due));
      if !token.ok {
        return Err(CpiTokenMintToCallError);
      }
      supply := supply + due;
      history := history.(feesPaid := history.feesPaid + due);
      return Ok(());
    }

    // ---- Transactions ----

    method RestoreSlots(states: seq<FinalizedState>)
      requires Valid() && |states| == 8
      modifies slots
      ensures slots[..] == states
    {
      forall i | 0 <= i < 8 {
        slots[i] := states[i];
      }
      assert slots[..] == states;
    }

    /** Put back the bridge account's plain fields. */
    method RestoreFields(b: Bridge)
      requires Valid()
      modifies this`header, this`nextSlot, this`money, this`withdrawals, this`deposits, this`config, this`custodian,
          this`operator, this`dogeMint
      ensures header == b.header && nextSlot == b.ring.next && money == b.money && withdrawals == b.withdrawals
      ensures deposits == b.deposits
      ensures config == b.config && custodian == b.custodian && operator == b.operator && dogeMint == b.dogeMint
    {
      header, nextSlot, money, withdrawals, deposits := b.header, b.ring.next, b.money, b.withdrawals, b.deposits;
      config, custodian, operator, dogeMint := b.config, b.custodian, b.operator, b.dogeMint;
    }

    /** Put back an earlier state, as the runtime does when a transaction fails. */
    method RollBack(b: Bridge, oldBuffers: Buffers, oldTxos: map<Key, Txo.Account>, oldSupply: int,
            ghost oldHistory: History)
      requires Valid()
      modifies this, manager, manager.infos, manager.claimed, slots
      ensures Valid() && State() == System(b, oldBuffers, oldTxos, oldSupply, oldHistory)
    {
      RestoreFields(b);
      buffers, txos, supply, history := oldBuffers, oldTxos, oldSupply, oldHistory;
      RestoreSlots(b.ring.slots);
      manager.Restore(b.backlog);
    }

    /** Pass an instruction on to one of the two buffer programs. */
    method DispatchToBuffer(env: Env, op: Operation)
      requires Valid() && (op.BufferInstruction? || op.TxoInstruction?)
      modifies this`buffers, this`txos
      ensures StepOf(env, old(State()), op) == Ok(State())
    {
      match op {
        case BufferInstruction(addr, i) =>
          buffers := buffers[addr := TransactAt(env.h, env.bufferOf, addr, AccountAt(buffers, addr), i)];
        case TxoInstruction(owner, i) =>
          var a := if owner in txos then txos[owner] else Txo.Missing;
          txos := txos[owner := Txo.Transact(owner, a, i)];
      }
    }

    /** Run one operation; what a failed one has done so far is left in place. */
    method Dispatch(env: Env, op: Operation) returns (r: Result<(), BridgeError>)
      requires Valid()
      modifies this, manager, manager.infos, manager.claimed, slots
      ensures Valid()
      ensures r.Ok? <==> StepOf(env, old(State()), op).Ok?
      ensures r.Ok? ==> State() == StepOf(env, old(State()), op).value
    {
      match op {
        case BlockUpdate(proof, next, addr, owner) => r := ProcessBlockUpdate(env, proof, next, addr, owner);
        case Reorg(proof, next, extra, addr, owner) => r := ProcessReorgBlocks(env, proof, next, extra, addr, owner);
        case MintGroup(signer, addr, group, unlock, recipients, token) =>
          r := ProcessMintGroup(env, signer, addr, group, unlock, recipients, token);
        case AutoAdvance(addr, owner, group, unlock, recipients, token) =>
          r := ProcessMintGroupAutoAdvance(env, addr, owner, group, unlock, recipients, token);
        case ManualDeposit(txHash, blockRoot, claimRoot, txoIndex, recipient, amount, token) =>
          r := ClaimManualDeposit(env, txHash, blockRoot, claimRoot, txoIndex, recipient, amount, token);
        case Withdraw(amount, addressType, address, token) =>
          r := ProcessRequestWithdrawal(amount, addressType, address, token);
        case OperatorWithdraw(signer, token) => r := OperatorWithdrawFees(signer, token);
        case Initialize(first, fees, wallet, newOperator, mint) =>
          Initialize(first, fees, wallet, newOperator, mint);
          r := Ok(());
        case _ =>
          DispatchToBuffer(env, op);
          r := Ok(());
      }
    }

    /** One transaction: dispatch, then roll back if it failed. */
    method Process(env: Env, op: Operation) returns (r: Result<(), BridgeError>)
      requires Valid()
      modifies this, manager, manager.infos, manager.claimed, slots
      ensures Valid() && State() == Apply(env, old(State()), op)
      ensures r.Ok? <==> StepOf(env, old(State()), op).Ok?
    {
      var b := Bridge(header, Ring(slots[..], nextSlot), manager.Contents(), money, withdrawals, deposits, config,
          custodian, operator, dogeMint);
      var buffers0, txos0, supply0 := buffers, txos, supply;
      ghost var history0 := history;
      r := Dispatch(env, op);
      if r.Err? {
        RollBack(b, buffers0, txos0, supply0, history0);
      }
    }

    /** A whole run of transactions leaves exactly the state of the run. */
    method ProcessAll(env: Env, ops: seq<Operation>)
      requires Valid()
      modifies this, manager, manager.infos, manager.claimed, slots
      ensures Valid() && State() == RunOf(env, old(State()), ops)
    {
      assert ops[0..] == ops;
      for i := 0 to |ops|
        invariant Valid() && RunOf(env, old(State()), ops) == RunOf(env, State(), ops[i..])
      {
        assert ops[i..][0] == ops[i] && ops[i..][1..] == ops[i + 1..];
        var r := Process(env, ops[i]);
      }
    }
  }

  /** A claim of a given backlog does not look at the one stored in the state. */
  lemma ClaimIgnoresBacklog(env: Env, s: System, s': System, m: Manager, addr: Key, group: u16, unlock: bool,
          recipients: seq<Key>, token: TokenCall)
    requires s' == s.(bridge := s.bridge.(backlog := m))
    ensures ClaimStep(env, s', m, true, addr, group, unlock, recipients, token)
            == ClaimStep(env, s, m, true, addr, group, unlock, recipients, token)
  {
  }
}
