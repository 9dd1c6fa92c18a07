/** All programs together: the bridge, every buffer account, the token supply and a history. */
module System {
  import opened Bytes
  import opened Hashing
  import opened Mints
  import opened MintBuffer
  import opened MintBufferRuns
  import opened Backlog
  import opened Headers
  import opened Bridge
  import opened BridgeErrors
  import Txo = TxoBuffer

  /** A finalized block with its commitments. */
  datatype Block = Block(height: nat, info: Info)

  /** A block whose mints became claimable, with the list its buffer held. */
  datatype Activation = Activation(block: Block, mints: seq<PendingMint>)

  /**
   What happened so far; no program reads it. `minted` are the records minted for claims,
   `paidOn` the mint account of each of these calls, `strayed` what all calls moved on other
   mints than the bridge's.
   */
  datatype History = History(
    minted: seq<PendingMint>,
    paidOn: seq<Key>,
    activated: seq<Activation>,
    committed: seq<Block>,
    recorded: seq<FinalizedState>,
    grossDeposits: nat,
    depositFees: nat,
    withdrawalFees: nat,
    feesPaid: nat,
    strayed: int)

  const NO_HISTORY: History := History([], [], [], [], [], 0, 0, 0, 0, 0)

  /** Calls into the token program: the mint account the caller passed, and whether nothing else stops them. */
  datatype TokenCall = TokenCall(mint: Key, ok: bool)

  datatype System = System(
    bridge: Bridge,
    buffers: map<Key, Monitored>,
    txos: map<Key, Txo.Account>,
    supply: int,
    history: History)

  datatype Operation =
    | BufferInstruction(addr: Key, instruction: Instruction)
    | TxoInstruction(owner: Key, txoInstruction: Txo.Instruction)
    | BlockUpdate(proof: Bytes, header: BridgeHeader, addr: Key, owner: Key)
    | Reorg(proof: Bytes, header: BridgeHeader, extra: seq<Info>, addr: Key, owner: Key)
    | MintGroup(signer: Key, addr: Key, group: u16, unlock: bool, recipients: seq<Key>, token: TokenCall)
    | AutoAdvance(addr: Key, owner: Key, group: u16, unlock: bool, recipients: seq<Key>, token: TokenCall)
    | ManualDeposit(txHash: Digest, blockRoot: Digest, claimRoot: Digest, txoIndex: u64, recipient: Key, amount: u64,
        token: TokenCall)
    | Withdraw(amount: u64, addressType: u32, address: Bytes, token: TokenCall)
    | OperatorWithdraw(signer: Key, token: TokenCall)
    | Initialize(first: BridgeHeader, fees: Config, wallet: Digest, newOperator: Key, dogeMint: Key)

  // ---- Calls into the buffer program ----

  type Buffers = map<Key, Monitored>

  function AccountAt(buffers: Buffers, addr: Key): Monitored {
    if addr in buffers then buffers[addr] else UNALLOCATED
  }

  function MemoryAt(buffers: Buffers, addr: Key): Bytes {
    var a := AccountAt(buffers, addr).account;
    if a.Missing? then [] else Memory(a)
  }

  function LockAt(env: Env, buffers: Buffers, addr: Key): Result<Buffers, BridgeError> {
    var m := AccountAt(buffers, addr);
    if m.account.Missing? then Err(CpiLockCallError)
    else
      match LockStep(m.account, env.bridge)
      case Ok(a) => Ok(buffers[addr := Monitored(a, m.inserted)])
      case Err(_) => Err(CpiLockCallError)
  }

  function UnlockAt(env: Env, buffers: Buffers, addr: Key): Result<Buffers, BridgeError> {
    var m := AccountAt(buffers, addr);
    if m.account.Missing? then Err(CpiUnlockCallError)
    else
      match UnlockStep(m.account, env.bridge)
      case Ok(a) => Ok(buffers[addr := Monitored(a, map[])])
      case Err(_) => Err(CpiUnlockCallError)
  }

  /** Both calls are the buffer program's own transactions, signed by the bridge. */
  lemma CallsAreTransactions(env: Env, buffers: Buffers, addr: Key)
    ensures LockAt(env, buffers, addr).Ok? <==> Step(env.h, AccountAt(buffers, addr).account, Lock(env.bridge)).Ok?
    ensures LockAt(env, buffers, addr).Ok? ==>
              LockAt(env, buffers, addr).value
              == buffers[addr := Transact(env.h, AccountAt(buffers, addr), Lock(env.bridge))]
    ensures UnlockAt(env, buffers, addr).Ok? <==> Step(env.h, AccountAt(buffers, addr).account, Unlock(env.bridge)).Ok?
    ensures UnlockAt(env, buffers, addr).Ok? ==>
              UnlockAt(env, buffers, addr).value
              == buffers[addr := Transact(env.h, AccountAt(buffers, addr), Unlock(env.bridge))]
  {
  }

  function TxoAt(s: System, owner: Key): Txo.Account {
    if owner in s.txos then s.txos[owner] else Txo.Missing
  }

  function MintsHeld(a: Account): seq<PendingMint> {
    if ExactLength(a) then MintsOf(a) else []
  }

  // ---- Block updates ----

  /** The blocks of `items` from position i on that carry deposits; item j is the block at base + j. */
  function Carrying(h: Hash, base: nat, items: seq<Info>, i: nat): seq<Block>
    requires i <= |items|
    decreases |items| - i
  {
    if i == |items| then []
    else if IsEmptyInfo(h, items[i]) then Carrying(h, base, items, i + 1)
    else [Block(base + i, items[i])] + Carrying(h, base, items, i + 1)
  }

  function CurrentActivation(m: Manager, a: Account): Activation
    requires m.index < m.count
  {
    Activation(Block(m.start + m.index, m.infos[m.index]), MintsHeld(a))
  }

  function NoteActivation(y: History, m: Manager, a: Account): History {
    if IsActive(m) && m.index < m.count then y.(activated := y.activated + [CurrentActivation(m, a)]) else y
  }

  /** The part shared by both kinds of update, after the transition of the bridge's own state. */
  function FinishUpdate(env: Env, s: System, locked: Buffers, addr: Key, transition: Result<Bridge, BridgeError>,
          moved: bool, y: History): Result<System, BridgeError> {
    var b :- transition;
    var buffers :- if moved then Ok(locked) else UnlockAt(env, locked, addr);
    Ok(s.(bridge := b, buffers := buffers, history := NoteActivation(y, b.backlog, AccountAt(locked, addr).account)))
  }

  /** An update must come with the mint buffer derived from its signer; the TXO buffer is found by the signer's key. */
  function CheckBuffer(env: Env, addr: Key, signer: Key): Result<(), BridgeError> {
    if addr == env.bufferOf(signer) then Ok(()) else Err(InvalidMintBufferPDA)
  }

  function BlockUpdateStep(env: Env, s: System, proof: Bytes, next: BridgeHeader, addr: Key,
          owner: Key): Result<System, BridgeError> {
    var _ :- CheckBuffer(env, addr, owner);
    var locked :- LockAt(env, s.buffers, addr);
    var txo := TxoAt(s, owner);
    if txo.Missing? then Err(BridgeError.IllegalOwner)
    else
      var g := next.finalized;
      var moved := s.bridge.header.finalized.nextIndex != g.nextIndex;
      var blocks := if moved then [Block(g.height, Info(g.mintsHash, g.txoHash))] else [];
      var y := s.history.(committed := s.history.committed + blocks, recorded := s.history.recorded + [g]);
      FinishUpdate(env, s, locked, addr,
          SingleTransition(env, s.bridge, proof, next, addr, MemoryAt(locked, addr), txo), moved, y)
  }

  /** The history with the blocks of a reorganization that carry deposits. */
  function Reorganized(env: Env, s: System, next: BridgeHeader, extra: seq<Info>): History {
    var blocks := Carrying(env.h, s.bridge.header.finalized.height + 1, ReorgItems(extra, next.finalized), 0);
    s.history.(committed := s.history.committed + blocks)
  }

  /** A reorganization once its mint buffer is locked. */
  function ReorgLockedStep(env: Env, s: System, locked: Buffers, proof: Bytes, next: BridgeHeader, extra: seq<Info>,
          addr: Key, txo: Txo.Account, y: History): Result<System, BridgeError>
    requires txo.Buffer?
  {
    var moved := s.bridge.header.finalized.nextIndex != next.finalized.nextIndex;
    FinishUpdate(env, s, locked, addr,
        ReorgTransition(env, s.bridge, proof, next, extra, addr, MemoryAt(locked, addr), txo), moved, y)
  }

  function ReorgStep(env: Env, s: System, proof: Bytes, next: BridgeHeader, extra: seq<Info>, addr: Key,
          owner: Key): Result<System, BridgeError> {
    var _ :- CheckBuffer(env, addr, owner);
    var locked :- LockAt(env, s.buffers, addr);
    var txo := TxoAt(s, owner);
    if txo.Missing? then Err(BridgeError.IllegalOwner)
    else
      ReorgLockedStep(env, s, locked, proof, next, extra, addr, txo, Reorganized(env, s, next, extra))
  }

  // ---- Claims ----

  /** All recipients are token accounts of the mint; a call that mints to any other account fails. */
  predicate AllOn(env: Env, mint: Key, recipients: seq<Key>) {
    forall i :: 0 <= i < |recipients| ==> env.mintOf(recipients[i]) == Some(mint)
  }

  /** A token call on the bridge's own mint. */
  function OwnToken(s: System): TokenCall {
    TokenCall(s.bridge.dogeMint, true)
  }

  /** Read and check one record per recipient; an out-of-range read aborts. */
  function ReadMints(mem: Bytes, offset: nat, recipients: seq<Key>): Result<seq<PendingMint>, BridgeError>
    decreases |recipients|
  {
    if |recipients| == 0 then Ok([])
    else if offset + 40 > |mem| then Err(Panic)
    else
      var m := ParseMint(mem[offset..offset + 40]);
      if m.recipient != recipients[0] then Err(AccountMismatch)
      else
        var rest :- ReadMints(mem, offset + 40, recipients[1..]);
        Ok([m] + rest)
  }

  function TotalAmount(ms: seq<PendingMint>): nat {
    if |ms| == 0 then 0 else ms[0].amount + TotalAmount(ms[1..])
  }

  /** By how much a token call of this amount moves the bridge's own token. */
  function OnOwnMint(own: Key, token: TokenCall, amount: int): int {
    if token.mint == own then amount else 0
  }

  /** And by how much some other token. */
  function Elsewhere(own: Key, token: TokenCall, amount: int): int {
    amount - OnOwnMint(own, token, amount)
  }

  function CheckUnlockFlag(c: Claim, unlock: bool): Result<(), BridgeError> {
    if c.canUnlock == unlock then Ok(())
    else if unlock then Err(AttemptedUnlockPendingMintBuffer)
    else Err(FailedUnlockPendingMintBuffer)
  }

  /** Lock the buffer if the block was only just activated, mint the records, release the buffer with the last group. */
  function PayOut(env: Env, s: System, m: Manager, c: Claim, advanced: bool, addr: Key, unlock: bool,
          recipients: seq<Key>, token: TokenCall): Result<System, BridgeError> {
    var buffers :- if advanced then LockAt(env, s.buffers, addr) else Ok(s.buffers);
    var ms :- ReadMints(MemoryAt(buffers, addr), c.offset, recipients);
    if !token.ok || !AllOn(env, token.mint, recipients) then Err(CpiTokenMintToCallError)
    else if unlock && advanced && c.size > 24 then Err(CannotUnlockAfterAutoAdvance)
    else
      var released :- if unlock then UnlockAt(env, buffers, addr) else Ok(buffers);
      var y := if advanced && m.index < m.count
               then s.history.(activated := s.history.activated
                   + [CurrentActivation(m, AccountAt(buffers, addr).account)])
               else s.history;
      Ok(s.(bridge := s.bridge.(backlog := c.next),
            buffers := released,
            supply := s.supply + OnOwnMint(s.bridge.dogeMint, token, TotalAmount(ms)),
            history := y.(minted := y.minted + ms, paidOn := y.paidOn + Repeated(token.mint, |ms|),
                strayed := y.strayed + Elsewhere(s.bridge.dogeMint, token, TotalAmount(ms)))))
  }

  /** Claim one group of the backlog `m`, which an auto-advance may have set up just before. */
  function ClaimStep(env: Env, s: System, m: Manager, advanced: bool, addr: Key, group: u16, unlock: bool,
          recipients: seq<Key>, token: TokenCall): Result<System, BridgeError> {
    if addr != m.tracker.account then Err(InvalidAccountKey)
    else
      var c :- Precheck(m, group, addr);
      var _ :- CheckUnlockFlag(c, unlock);
      if c.size != |recipients| then Err(InvalidAccountInput)
      else PayOut(env, s, m, c, advanced, addr, unlock, recipients, token)
  }

  function MintGroupStep(env: Env, s: System, signer: Key, addr: Key, group: u16, unlock: bool, recipients: seq<Key>,
          token: TokenCall): Result<System, BridgeError> {
    if addr != s.bridge.backlog.tracker.account then Err(InvalidAccountKey)
    else if token.mint != s.bridge.dogeMint then Err(InvalidAccountInput)
    else if signer != s.bridge.operator then Err(MissingRequiredSignature)
    else ClaimStep(env, s, s.bridge.backlog, false, addr, group, unlock, recipients, token)
  }

  predicate NeedsAdvance(m: Manager) {
    !IsActive(m) && !IsDrained(m)
  }

  function AutoAdvanceStep(env: Env, s: System, addr: Key, owner: Key, group: u16, unlock: bool,
          recipients: seq<Key>, token: TokenCall): Result<System, BridgeError> {
    var m := s.bridge.backlog;
    if !NeedsAdvance(m) then ClaimStep(env, s, m, false, addr, group, unlock, recipients, token)
    else
      var txo := TxoAt(s, owner);
      if txo.Missing? then Err(BridgeError.IllegalOwner)
      else
        var m1 :- SetupNext(env.h, env.bridge, m, addr, MemoryAt(s.buffers, addr), txo);
        ClaimStep(env, s, m1, true, addr, group, unlock, recipients, token)
  }

  // ---- Money ----

  function ManualDepositStep(env: Env, s: System, txHash: Digest, blockRoot: Digest, claimRoot: Digest,
          txoIndex: u64, recipient: Key, amount: u64, token: TokenCall): Result<System, BridgeError> {
    var (b, net) :- ClaimDeposit(s.bridge, txHash, blockRoot, claimRoot, txoIndex, recipient, amount);
    if !token.ok || env.mintOf(recipient) != Some(token.mint) then Err(CpiTokenMintToCallError)
    else
      var y := s.history;
      var fee := FeeOrNothing(amount, s.bridge.config.deposit).fee;
      Ok(s.(bridge := b, supply := s.supply + OnOwnMint(s.bridge.dogeMint, token, net),
            history := y.(grossDeposits := y.grossDeposits + amount, depositFees := y.depositFees + fee,
                strayed := y.strayed + Elsewhere(s.bridge.dogeMint, token, net))))
  }

  function WithdrawStep(s: System, amount: u64, addressType: u32, address: Bytes, token: TokenCall)
          : Result<System, BridgeError> {
    var b :- RequestWithdrawal(s.bridge, amount, addressType, address);
    if !token.ok then Err(CpiTokenBurnCallError)
    else
      var y := s.history;
      var fee := FeeOrNothing(amount, s.bridge.config.withdrawal).fee;
      var burned: int := amount;
      Ok(s.(bridge := b, supply := s.supply + OnOwnMint(s.bridge.dogeMint, token, -burned),
            history := y.(withdrawalFees := y.withdrawalFees + fee,
                strayed := y.strayed + Elsewhere(s.bridge.dogeMint, token, -burned))))
  }

  function OperatorWithdrawStep(s: System, signer: Key, token: TokenCall): Result<System, BridgeError> {
    if token.mint != s.bridge.dogeMint then Err(InvalidAccountInput)
    else if signer != s.bridge.operator then Err(MissingRequiredSignature)
    else
      var (b, due) :- WithdrawFees(s.bridge);
      if !token.ok then Err(CpiTokenMintToCallError)
      else Ok(s.(bridge := b, supply := s.supply + due, history := s.history.(feesPaid := s.history.feesPaid + due)))
  }

  // ---- Runs ----

  function StepOf(env: Env, s: System, op: Operation): Result<System, BridgeError> {
    match op
    case BufferInstruction(addr, i) =>
      Ok(s.(buffers := s.buffers[addr := TransactAt(env.h, env.bufferOf, addr, AccountAt(s.buffers, addr), i)]))
    case TxoInstruction(owner, i) => Ok(s.(txos := s.txos[owner := Txo.Transact(owner, TxoAt(s, owner), i)]))
    case BlockUpdate(proof, header, addr, owner) => BlockUpdateStep(env, s, proof, header, addr, owner)
    case Reorg(proof, header, extra, addr, owner) => ReorgStep(env, s, proof, header, extra, addr, owner)
    case MintGroup(signer, addr, group, unlock, recipients, token) =>
      MintGroupStep(env, s, signer, addr, group, unlock, recipients, token)
    case AutoAdvance(addr, owner, group, unlock, recipients, token) =>
      AutoAdvanceStep(env, s, addr, owner, group, unlock, recipients, token)
    case ManualDeposit(txHash, blockRoot, claimRoot, txoIndex, recipient, amount, token) =>
      ManualDepositStep(env, s, txHash, blockRoot, claimRoot, txoIndex, recipient, amount, token)
    case Withdraw(amount, addressType, address, token) => WithdrawStep(s, amount, addressType, address, token)
    case OperatorWithdraw(signer, token) => OperatorWithdrawStep(s, signer, token)
    case Initialize(first, fees, wallet, newOperator, dogeMint) =>
      Ok(s.(bridge := Initial(first, fees, wallet, newOperator, dogeMint)))
  }

  /** A transaction; a failed one is rolled back. */
  function Apply(env: Env, s: System, op: Operation): System {
    match StepOf(env, s, op)
    case Ok(s') => s'
    case Err(_) => s
  }

  /**
   What the model relies on besides the code: only the bridge signs as the bridge, proved
   headers stay below the largest u32 height, a proved reorganization moves the deposit
   index exactly if one of its blocks carries deposits, and nobody initializes the bridge a
   second time.
   */
  ghost predicate Admissible(env: Env, s: System, op: Operation) {
    match op
    case BufferInstruction(_, i) => i != Lock(env.bridge) && i != Unlock(env.bridge)
    case BlockUpdate(_, header, _, _) => header.finalized.height < U32_MAX
    case Reorg(_, header, extra, _, _) =>
      && header.finalized.height < U32_MAX
      && IndexMovesWithDeposits(env, s, header, extra)
    case Initialize(_, _, _, _, _) => false
    case _ => true
  }

  predicate IndexMovesWithDeposits(env: Env, s: System, header: BridgeHeader, extra: seq<Info>) {
    var items := ReorgItems(extra, header.finalized);
    header.finalized.nextIndex != s.bridge.header.finalized.nextIndex <==> NextNonEmpty(env.h, items, 0) < |items|
  }

  ghost predicate IsRun(env: Env, s: System, ops: seq<Operation>)
    decreases |ops|
  {
    |ops| == 0 || (Admissible(env, s, ops[0]) && IsRun(env, Apply(env, s, ops[0]), ops[1..]))
  }

  function RunOf(env: Env, s: System, ops: seq<Operation>): System
    decreases |ops|
  {
    if |ops| == 0 then s else RunOf(env, Apply(env, s, ops[0]), ops[1..])
  }

  /** A freshly initialized bridge, no accounts, some token supply. */
  predicate IsInitial(env: Env, s: System) {
    && s.bridge == Initial(s.bridge.header, s.bridge.config, s.bridge.custodian, s.bridge.operator, s.bridge.dogeMint)
    && s.bridge.header.finalized.height < U32_MAX
    && s.buffers == map[]
    && s.txos == map[]
    && s.history == NO_HISTORY
  }

  /** No digest is zero and the bridge's own address is not the all-zero key. */
  ghost predicate Sound(env: Env) {
    NeverZero(env.h) && env.bridge != ZERO32
  }
}
