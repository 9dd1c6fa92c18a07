/** When deposits, withdrawals and fee payments are accepted, and exactly what they book. */
module Payments {
  import opened Bytes
  import opened Backlog
  import opened Headers
  import opened Bridge
  import opened System
  import opened RecentBlocks
  import Fees
  import Ledger

  /** The fee a schedule takes of an amount, cut to 64 bits; a schedule without a denominator takes none. */
  function ScheduledFee(rate: Fees.Rate, amount: u64): u64 {
    if rate.denominator == 0 then 0
    else (amount * rate.numerator / rate.denominator + rate.flat) % 0x1_0000_0000_0000_0000
  }

  /** The schedule takes something and leaves something. */
  predicate Charges(rate: Fees.Rate, amount: u64) {
    0 < ScheduledFee(rate, amount) < amount
  }

  lemma ChargesIff(amount: u64, rate: Fees.Rate)
    ensures var f := FeeOrNothing(amount, rate);
            && (f.fee != 0 && f.net != 0 <==> Charges(rate, amount))
            && (Charges(rate, amount) ==> f.fee == ScheduledFee(rate, amount) && f.net == amount - f.fee)
  {
    Fees.FeeMeaning(amount, rate);
  }

  // ---- Manual deposits ----

  /**
   A manual deposit is accepted exactly if it rests on a recent state, the deposit schedule takes
   a fee and leaves something, and the token program can pay the recipient.
   */
  lemma DepositAcceptedIff(env: Env, s: System, op: Operation)
    requires op.ManualDeposit?
    ensures StepOf(env, s, op).Ok? <==>
              && (exists i: nat :: RestsOn(s.bridge, op.blockRoot, op.claimRoot, op.txoIndex, i))
              && Charges(s.bridge.config.deposit, op.amount)
              && op.token.ok && env.mintOf(op.recipient) == Some(op.token.mint)
  {
    ManualClaimAcceptedIff(s.bridge, op.txHash, op.blockRoot, op.claimRoot, op.txoIndex, op.recipient, op.amount);
    ChargesIff(op.amount, s.bridge.config.deposit);
  }

  /** An accepted one pays the amount less the fee to the recipient, books the fee, and changes nothing else. */
  lemma DepositEffect(env: Env, s: System, op: Operation, s': System)
    requires op.ManualDeposit? && StepOf(env, s, op) == Ok(s')
    ensures var b, fee := s.bridge, ScheduledFee(s.bridge.config.deposit, op.amount);
            && fee < op.amount
            && s'.supply == s.supply + (if op.token.mint == b.dogeMint then op.amount - fee else 0)
            && s'.bridge == b.(money := s'.bridge.money,
                deposits := b.deposits + [Deposit(op.txHash, op.txoIndex, op.recipient, op.amount - fee)])
            && s'.bridge.money == b.money.(depositFees := (b.money.depositFees + fee) % 0x1_0000_0000_0000_0000)
            && s'.buffers == s.buffers && s'.txos == s.txos
            && s'.history == s.history.(grossDeposits := s.history.grossDeposits + op.amount,
                depositFees := s.history.depositFees + fee, strayed := s'.history.strayed)
  {
    ChargesIff(op.amount, s.bridge.config.deposit);
  }

  // ---- Withdrawals ----

  /**
   A withdrawal is accepted exactly if the withdrawal schedule takes a fee and leaves something,
   and the burn succeeds.
   */
  lemma WithdrawalAcceptedIff(env: Env, s: System, op: Operation)
    requires op.Withdraw?
    ensures StepOf(env, s, op).Ok? <==>
              Charges(s.bridge.config.withdrawal, op.amount) && op.token.ok
  {
    ChargesIff(op.amount, s.bridge.config.withdrawal);
  }

  /** An accepted one burns the amount, queues it less the fee for the given destination, and books the fee. */
  lemma WithdrawalEffect(env: Env, s: System, op: Operation, s': System)
    requires op.Withdraw? && StepOf(env, s, op) == Ok(s')
    ensures var b, fee := s.bridge, ScheduledFee(s.bridge.config.withdrawal, op.amount);
            && fee < op.amount
            && s'.supply == s.supply - (if op.token.mint == b.dogeMint then op.amount else 0)
            && s'.bridge == b.(money := s'.bridge.money,
                withdrawals := b.withdrawals + [Withdrawal(op.amount - fee, op.addressType, op.address)])
            && s'.bridge.money == b.money.(
                withdrawalFees := (b.money.withdrawalFees + fee) % 0x1_0000_0000_0000_0000,
                requested := (b.money.requested + op.amount) % 0x1_0000_0000_0000_0000)
            && s'.buffers == s.buffers && s'.txos == s.txos
            && s'.history == s.history.(withdrawalFees := s.history.withdrawalFees + fee, strayed := s'.history.strayed)
  {
    ChargesIff(op.amount, s.bridge.config.withdrawal);
  }

  // ---- Fees ----

  /** All fees booked so far, as the program adds them up. */
  function FeesBooked(b: Bridge): u64 {
    (b.money.depositFees + b.money.withdrawalFees + b.header.chainFees) % 0x1_0000_0000_0000_0000
  }

  /** The operator is paid exactly if asking as the operator, on the bridge's mint, while some booked fee is unpaid. */
  lemma FeePaymentAcceptedIff(env: Env, s: System, op: Operation)
    requires op.OperatorWithdraw?
    ensures StepOf(env, s, op).Ok? <==>
              && op.signer == s.bridge.operator && op.token.mint == s.bridge.dogeMint && op.token.ok
              && s.bridge.money.feesWithdrawn < FeesBooked(s.bridge)
  {
  }

  /** And is then paid exactly what is booked and unpaid; asking again at once gets nothing. */
  lemma FeePaymentEffect(env: Env, s: System, op: Operation, s': System)
    requires op.OperatorWithdraw? && StepOf(env, s, op) == Ok(s')
    ensures var b, due := s.bridge, FeesBooked(s.bridge) - s.bridge.money.feesWithdrawn;
            && due > 0
            && s' == s.(bridge := b.(money := b.money.(feesWithdrawn := FeesBooked(b))), supply := s.supply + due,
                history := s.history.(feesPaid := s.history.feesPaid + due))
            && forall op': Operation :: op'.OperatorWithdraw? ==> StepOf(env, s', op').Err?
  {
  }

  // ---- Whole runs ----

  /** The entry a withdrawal asks for, if it is accepted. */
  function RequestEntry(s: System, op: Operation): seq<Withdrawal> {
    if op.Withdraw? && Charges(s.bridge.config.withdrawal, op.amount) && op.token.ok then
      [Withdrawal(op.amount - ScheduledFee(s.bridge.config.withdrawal, op.amount), op.addressType, op.address)]
    else []
  }

  /** The entry of a manual deposit, if it is accepted. */
  function ClaimEntry(env: Env, s: System, op: Operation): seq<Deposit> {
    if op.ManualDeposit? && StepOf(env, s, op).Ok? && Charges(s.bridge.config.deposit, op.amount) then
      var fee := ScheduledFee(s.bridge.config.deposit, op.amount);
      [Deposit(op.txHash, op.txoIndex, op.recipient, op.amount - fee)]
    else []
  }

  /** The entries of the accepted withdrawals of a run, in order. */
  function Requests(env: Env, s: System, ops: seq<Operation>): seq<Withdrawal>
    decreases |ops|
  {
    if |ops| == 0 then [] else RequestEntry(s, ops[0]) + Requests(env, Apply(env, s, ops[0]), ops[1..])
  }

  /** The entries of its accepted manual deposits, in order. */
  function Claimed(env: Env, s: System, ops: seq<Operation>): seq<Deposit>
    decreases |ops|
  {
    if |ops| == 0 then [] else ClaimEntry(env, s, ops[0]) + Claimed(env, Apply(env, s, ops[0]), ops[1..])
  }

  ghost predicate SameBooks(b: Bridge, b': Bridge) {
    b'.withdrawals == b.withdrawals && b'.deposits == b.deposits && b'.config == b.config
  }

  lemma {:induction false} BlockUpdateKeepsBooks(env: Env, s: System, proof: Bytes, next: BridgeHeader, addr: Key,
          owner: Key)
    requires BlockUpdateStep(env, s, proof, next, addr, owner).Ok?
    ensures SameBooks(s.bridge, BlockUpdateStep(env, s, proof, next, addr, owner).value.bridge)
  {
  }

  lemma {:induction false} ReorgKeepsBooks(env: Env, s: System, proof: Bytes, next: BridgeHeader, extra: seq<Info>,
          addr: Key, owner: Key)
    requires ReorgStep(env, s, proof, next, extra, addr, owner).Ok?
    ensures SameBooks(s.bridge, ReorgStep(env, s, proof, next, extra, addr, owner).value.bridge)
  {
  }

  lemma ClaimKeepsBooks(env: Env, s: System, m: Manager, advanced: bool, addr: Key, group: u16, unlock: bool,
          recipients: seq<Key>, token: TokenCall)
    requires ClaimStep(env, s, m, advanced, addr, group, unlock, recipients, token).Ok?
    ensures SameBooks(s.bridge, ClaimStep(env, s, m, advanced, addr, group, unlock, recipients, token).value.bridge)
  {
  }

  lemma AutoAdvanceKeepsBooks(env: Env, s: System, addr: Key, owner: Key, group: u16, unlock: bool,
          recipients: seq<Key>, token: TokenCall)
    requires AutoAdvanceStep(env, s, addr, owner, group, unlock, recipients, token).Ok?
    ensures SameBooks(s.bridge, AutoAdvanceStep(env, s, addr, owner, group, unlock, recipients, token).value.bridge)
  {
    var m, need := s.bridge.backlog, NeedsAdvance(s.bridge.backlog);
    var m1 := if need
        then SetupNext(env.h, env.bridge, m, addr, MemoryAt(s.buffers, addr), TxoAt(s, owner)).value else m;
    ClaimKeepsBooks(env, s, m1, need, addr, group, unlock, recipients, token);
  }

  /** Only withdrawals and manual deposits write into the books, and only an initialization sets the schedules. */
  lemma OthersKeepBooks(env: Env, s: System, op: Operation)
    requires !op.Withdraw? && !op.ManualDeposit? && !op.Initialize?
    ensures SameBooks(s.bridge, Apply(env, s, op).bridge)
  {
    if StepOf(env, s, op).Ok? {
      match op {
        case BufferInstruction(_, _) =>
        case TxoInstruction(_, _) =>
        case BlockUpdate(proof, header, addr, owner) => BlockUpdateKeepsBooks(env, s, proof, header, addr, owner);
        case Reorg(proof, header, extra, addr, owner) => ReorgKeepsBooks(env, s, proof, header, extra, addr, owner);
        case MintGroup(_, addr, group, unlock, recipients, token) =>
          ClaimKeepsBooks(env, s, s.bridge.backlog, false, addr, group, unlock, recipients, token);
        case AutoAdvance(addr, owner, group, unlock, recipients, token) =>
          AutoAdvanceKeepsBooks(env, s, addr, owner, group, unlock, recipients, token);
        case OperatorWithdraw(_, _) => FeePaymentEffect(env, s, op, Apply(env, s, op));
      }
    }
  }

  /** One operation adds to the books what it asks for, if it is accepted. */
  lemma StepBooks(env: Env, s: System, op: Operation)
    requires !op.Initialize?
    ensures var b, b' := s.bridge, Apply(env, s, op).bridge;
            && b'.withdrawals == b.withdrawals + RequestEntry(s, op)
            && b'.deposits == b.deposits + ClaimEntry(env, s, op) && b'.config == b.config
  {
    if op.Withdraw? {
      WithdrawalAcceptedIff(env, s, op);
      if StepOf(env, s, op).Ok? {
        WithdrawalEffect(env, s, op, Apply(env, s, op));
      }
    } else if op.ManualDeposit? {
      DepositAcceptedIff(env, s, op);
      if StepOf(env, s, op).Ok? {
        DepositEffect(env, s, op, Apply(env, s, op));
      }
    } else {
      OthersKeepBooks(env, s, op);
    }
  }

  lemma Associate<T>(a: seq<T>, b: seq<T>, c: seq<T>)
    ensures a + b + c == a + (b + c)
  {
  }

  /**
   From one initialization to the next the queue of withdrawals is exactly what the accepted
   requests ask for, in order, and the list of deposits likewise.
   */
  lemma {:induction false} BooksAreRequests(env: Env, s: System, ops: seq<Operation>)
    requires Ledger.NeverInitialized(ops)
    ensures RunOf(env, s, ops).bridge.withdrawals == s.bridge.withdrawals + Requests(env, s, ops)
    ensures RunOf(env, s, ops).bridge.deposits == s.bridge.deposits + Claimed(env, s, ops)
    ensures RunOf(env, s, ops).bridge.config == s.bridge.config
    decreases |ops|
  {
    if |ops| > 0 {
      var op := ops[0];
      assert op in ops && forall o :: o in ops[1..] ==> o in ops;
      var s1 := Apply(env, s, op);
      StepBooks(env, s, op);
      BooksAreRequests(env, s1, ops[1..]);
      Associate(s.bridge.withdrawals, RequestEntry(s, op), Requests(env, s1, ops[1..]));
      Associate(s.bridge.deposits, ClaimEntry(env, s, op), Claimed(env, s1, ops[1..]));
    }
  }

  lemma {:induction false} RunSplits(env: Env, s: System, xs: seq<Operation>, ys: seq<Operation>)
    ensures RunOf(env, s, xs + ys) == RunOf(env, RunOf(env, s, xs), ys)
    decreases |xs|
  {
    if |xs| == 0 {
      assert xs + ys == ys;
    } else {
      assert (xs + ys)[0] == xs[0] && (xs + ys)[1..] == xs[1..] + ys;
      RunSplits(env, Apply(env, s, xs[0]), xs[1..], ys);
    }
  }

  /** Whatever came before the last initialization, the queue holds exactly what was accepted since. */
  lemma QueueSinceInitialization(env: Env, s: System, before: seq<Operation>, op: Operation, after: seq<Operation>)
    requires op.Initialize? && Ledger.NeverInitialized(after)
    ensures var b := RunOf(env, s, before + ([op] + after)).bridge;
            var s1 := Apply(env, RunOf(env, s, before), op);
            b.withdrawals == Requests(env, s1, after) && b.deposits == Claimed(env, s1, after) && b.config == op.fees
  {
    RunSplits(env, s, before, [op] + after);
    assert ([op] + after)[1..] == after;
    BooksAreRequests(env, Apply(env, RunOf(env, s, before), op), after);
  }
}
