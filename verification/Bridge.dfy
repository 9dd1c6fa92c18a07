/** The state of the bridge program and the functions of its library that move it. */
module Bridge {
  import opened Bytes
  import opened Hashing
  import opened Commitment
  import opened Backlog
  import opened Headers
  import opened BridgeErrors
  import PublicInputs
  import Fees
  import TxoIndex
  import Txo = TxoBuffer

  datatype Config = Config(deposit: Fees.Rate, withdrawal: Fees.Rate)

  /** The eight most recent finalized states and the slot to be replaced next. */
  datatype RingData = Ring(slots: seq<FinalizedState>, next: u32)

  const BLANK_STATE: FinalizedState := FinalizedState(ZERO32, ZERO32, ZERO32, ZERO32, ZERO32, ZERO32, 0, 0)

  type Ring = r: RingData | |r.slots| == 8 && r.next < 8 witness Ring(Repeated(BLANK_STATE, 8), 0)

  /** Money counters of the program. */
  datatype Money = Money(feesWithdrawn: u64, depositFees: u64, withdrawalFees: u64, requested: u64)

  /** A queued withdrawal: what will be paid out and where to. */
  datatype Withdrawal = Withdrawal(amount: u64, addressType: u32, address: Bytes)

  /** A claimed manual deposit. */
  datatype Deposit = Deposit(txHash: Digest, txoIndex: u64, recipient: Key, net: u64)

  datatype Bridge = Bridge(
    header: BridgeHeader,
    ring: Ring,
    backlog: Manager,
    money: Money,
    withdrawals: seq<Withdrawal>,
    deposits: seq<Deposit>,
    config: Config,
    custodian: Digest,
    operator: Key,
    dogeMint: Key)

  /**
   The surroundings of the program: hash function, own address, proof verifier, the address
   derived from a writer's key for its mint buffer, and the mint of the token account at a key,
   if there is one there that the bridge can mint to.
   */
  datatype Env = Env(
    h: Hash,
    bridge: Key,
    verifies: (Bytes, bool, Digest) -> bool,
    bufferOf: Key -> Key,
    mintOf: Key -> Option<Key>)

  function Initial(header: BridgeHeader, config: Config, custodian: Digest, operator: Key, dogeMint: Key): Bridge {
    Bridge(header, Ring(Repeated(header.finalized, 8), 0), NEW_MANAGER, Money(0, 0, 0, 0), [], [], config, custodian,
        operator, dogeMint)
  }

  function ConfigBytes(c: Config): Bytes {
    LE64(c.deposit.numerator) + LE64(c.deposit.denominator) + LE64(c.withdrawal.numerator) +
    LE64(c.withdrawal.denominator) + LE64(c.deposit.flat) + LE64(c.withdrawal.flat)
  }

  // ---- Single-block update ----

  function Record(r: Ring, f: FinalizedState): Ring {
    Ring(r.slots[r.next := f], (r.next + 1) % 8)
  }

  /** The buffer hash a transition with `claims` new mints must show. */
  function CheckNewMints(env: Env, mem: Bytes, claims: u16, expected: Digest): Result<Digest, BridgeError> {
    if claims == 0 then Ok(env.h(EMPTY_MINTS_PREIMAGE))
    else
      var count :- CheckMintBuffer(env.h, env.bridge, mem, expected);
      if count != claims then Err(InvalidPendingMintsCountForTransition) else Ok(expected)
  }

  /** Load the one block of a single-block update with `claims` > 0 mints. */
  function LoadSingle(env: Env, m: Manager, f: FinalizedState, claims: u16, account: Key,
          txo: Txo.Account): Result<Manager, BridgeError>
    requires txo.Buffer?
  {
    if |txo.body| < 4 * claims then Err(InvalidAutoClaimTxoBufferDataAccountSize)
    else if txo.header.height != f.height || txo.header.size == 0 then Err(InvalidAutoClaimTxoBufferPendingMintsCount)
    else
      var _ :- CheckTxos(env.h, txo, claims, f.txoHash);
      AppendBlocks(env.h, m, f.height, [Info(f.mintsHash, f.txoHash)], account, claims, MintGroupInfo(claims).0)
  }

  function SingleInputs(env: Env, b: Bridge, next: BridgeHeader): Digest {
    PublicInputs.BlockTransitionInputs(env.h, HeaderHash(env.h, b.header), HeaderHash(env.h, next),
        env.h(ConfigBytes(b.config)), b.custodian)
  }

  function SingleTransition(env: Env, b: Bridge, proof: Bytes, next: BridgeHeader, account: Key, mem: Bytes,
          txo: Txo.Account): Result<Bridge, BridgeError>
    requires txo.Buffer?
  {
    var f, g := b.header.finalized, next.finalized;
    if !IsDrained(b.backlog) then Err(ProgramStateNotReadyForBlockUpdate)
    else if g.height != (f.height + 1) % 0x1_0000_0000 then Err(InvalidBlockHeightForSingleBlockTransition)
    else if next.tip.height <= b.header.tip.height then Err(InvalidBlockHeightForSingleBlockTransition)
    else if g.nextIndex < f.nextIndex then Err(InvalidAutoClaimedDepositsNextIndex)
    else if g.nextIndex - f.nextIndex > U16_MAX then Err(TooManyNewAutoClaimedDeposits)
    else if !env.verifies(proof, false, SingleInputs(env, b, next)) then Err(InvalidBridgeInputZKP)
    else
      var claims: u16 := g.nextIndex - f.nextIndex;
      var shown :- CheckNewMints(env, mem, claims, g.mintsHash);
      if shown != g.mintsHash then Err(InvalidPendingMintsBufferHash)
      else
        var m :- if claims > 0 then LoadSingle(env, b.backlog, g, claims, account, txo) else Ok(b.backlog);
        Ok(b.(header := next, ring := Record(b.ring, g), backlog := m))
  }

  // ---- Reorganization ----

  function ReorgItems(extra: seq<Info>, g: FinalizedState): seq<Info> {
    extra + [Info(g.mintsHash, g.txoHash)]
  }

  /** Load the blocks of a reorganization from its first non-empty one on. */
  function LoadReorg(env: Env, m: Manager, items: seq<Info>, first: nat, height: u32, account: Key, mem: Bytes,
          txo: Txo.Account): Result<Manager, BridgeError>
    requires txo.Buffer? && first < |items| && |items| - first - 1 <= height
  {
    var info := items[first];
    var firstHeight := height - (|items| - first - 1);
    var count :- CheckMintBuffer(env.h, env.bridge, mem, info.mintsHash);
    if |txo.body| < 4 * count then Err(InvalidAutoClaimTxoBufferDataAccountSize)
    else if txo.header.height != firstHeight then Err(InvalidAutoClaimTxoBufferPendingMintsCount)
    else
      var _ :- CheckTxos(env.h, txo, count, info.txoHash);
      AppendBlocks(env.h, m, firstHeight, items[first..], account, count, MintGroupInfo(count).0)
  }

  function ReorgTransitionInputs(env: Env, b: Bridge, next: BridgeHeader, extra: seq<Info>): Digest {
    PublicInputs.ReorgInputs(env.h, HeaderHash(env.h, b.header), HeaderHash(env.h, next), extra,
        env.h(ConfigBytes(b.config)), b.custodian)
  }

  function ReorgTransition(env: Env, b: Bridge, proof: Bytes, next: BridgeHeader, extra: seq<Info>, account: Key,
          mem: Bytes, txo: Txo.Account): Result<Bridge, BridgeError>
    requires txo.Buffer?
  {
    var f, g := b.header.finalized, next.finalized;
    if !IsDrained(b.backlog) then Err(ProgramStateNotReadyForBlockUpdate)
    else if g.height <= f.height then Err(InvalidBlockHeightForSingleBlockTransition)
    else if next.tip.height <= b.header.tip.height then Err(InvalidBlockHeightForSingleBlockTransition)
    else if |extra| != g.height - f.height - 1 then Err(InvalidExtraFinalizedBlocksLengthForReorg)
    else if g.nextIndex < f.nextIndex then Err(InvalidAutoClaimedDepositsNextIndex)
    else if !env.verifies(proof, true, ReorgTransitionInputs(env, b, next, extra)) then Err(InvalidBridgeInputZKP)
    else
      var items := ReorgItems(extra, g);
      var first := NextNonEmpty(env.h, items, 0);
      var m :- if first < |items| then LoadReorg(env, b.backlog, items, first, g.height, account, mem, txo)
          else Ok(b.backlog);
      Ok(b.(header := next, backlog := m))
  }

  // ---- Manual deposits, withdrawals and fees ----

  const INVALID_BLOCK_HEIGHT: int := 0xFFFF_FFFF

  /** First slot whose deposit root is the given one, or 8. */
  function FindSlot(slots: seq<FinalizedState>, root: Digest, i: nat): (j: nat)
    requires i <= |slots|
    ensures i <= j <= |slots|
    ensures j < |slots| ==> slots[j].depositsRoot == root
    ensures forall k :: i <= k < j ==> slots[k].depositsRoot != root
    decreases |slots| - i
  {
    if i == |slots| || slots[i].depositsRoot == root then i else FindSlot(slots, root, i + 1)
  }

  /** Height and block root of the most recent state with the given deposit root. */
  function FindRecent(b: Bridge, root: Digest): (u32, Digest) {
    if b.header.finalized.depositsRoot == root then (b.header.finalized.height, b.header.finalized.blockRoot)
    else
      var j := FindSlot(b.ring.slots, root, 0);
      if j < 8 then (b.ring.slots[j].height, b.ring.slots[j].blockRoot) else (INVALID_BLOCK_HEIGHT, ZERO32)
  }

  function Wrap64(x: nat): u64 {
    x % U64_MODULUS
  }

  function FeeOrNothing(amount: u64, r: Fees.Rate): Fees.FeeResult {
    match Fees.CalculateFee(amount, r)
    case Ok(f) => f
    case Err(_) => Fees.FeeResult(0, 0)
  }

  /** A manual claim; the result also carries the amount to mint. */
  function ClaimDeposit(b: Bridge, txHash: Digest, blockRoot: Digest, claimRoot: Digest, txoIndex: u64,
          recipient: Key, amount: u64): Result<(Bridge, u64), BridgeError> {
    var (height, root) := FindRecent(b, claimRoot);
    if height == INVALID_BLOCK_HEIGHT || TxoIndex.BlockOf(txoIndex) > height
        then Err(AutoClaimedDepositTreeRootNotRecentEnough)
    else if root != blockRoot then Err(BlockMerkleTreeRootNotRecentEnough)
    else
      var f := FeeOrNothing(amount, b.config.deposit);
      if f.fee == 0 || f.net == 0 then Err(InsufficientBridgeFees)
      else
        var money := b.money.(depositFees := Wrap64(b.money.depositFees + f.fee));
        Ok((b.(money := money, deposits := b.deposits + [Deposit(txHash, txoIndex, recipient, f.net)]), f.net))
  }

  function RequestWithdrawal(b: Bridge, amount: u64, addressType: u32, address: Bytes): Result<Bridge, BridgeError> {
    var f := FeeOrNothing(amount, b.config.withdrawal);
    if f.fee == 0 || f.net == 0 then Err(InvalidWithdrawalAmount)
    else
      var money := b.money.(withdrawalFees := Wrap64(b.money.withdrawalFees + f.fee),
          requested := Wrap64(b.money.requested + amount));
      Ok(b.(money := money, withdrawals := b.withdrawals + [Withdrawal(f.net, addressType, address)]))
  }

  /** All fees so far: manual deposits, withdrawals and those the chain history reports. */
  function TotalFees(b: Bridge): u64 {
    Wrap64(b.money.depositFees + b.money.withdrawalFees + b.header.chainFees)
  }

  /** The operator takes what is not yet withdrawn; the result also carries the amount to mint. */
  function WithdrawFees(b: Bridge): Result<(Bridge, u64), BridgeError> {
    if TotalFees(b) <= b.money.feesWithdrawn then Err(NoOperatorFeesToWithdraw)
    else
      var due := TotalFees(b) - b.money.feesWithdrawn;
      Ok((b.(money := b.money.(feesWithdrawn := Wrap64(b.money.feesWithdrawn + due))), due))
  }
}
