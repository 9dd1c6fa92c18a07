/** Where the money is: the supply, the queued withdrawals and the fees, over every run. */
module Ledger {
  import opened Bytes
  import opened Mints
  import opened MintBuffer
  import opened Backlog
  import opened Headers
  import opened Bridge
  import opened System
  import Fees

  /** What the queued withdrawals will pay out. */
  function Queued(ws: seq<Withdrawal>): nat {
    if |ws| == 0 then 0 else Queued(ws[..|ws| - 1]) + ws[|ws| - 1].amount
  }

  lemma QueuedAppend(ws: seq<Withdrawal>, w: Withdrawal)
    ensures Queued(ws + [w]) == Queued(ws) + w.amount
  {
    assert (ws + [w])[..|ws|] == ws;
  }

  lemma {:induction false} TotalAmountConcat(a: seq<PendingMint>, b: seq<PendingMint>)
    ensures TotalAmount(a + b) == TotalAmount(a) + TotalAmount(b)
  {
    if |a| == 0 {
      assert a + b == b;
    } else {
      assert (a + b)[1..] == a[1..] + b;
      TotalAmountConcat(a[1..], b);
    }
  }

  /** What supply, queued payouts and fees held exceed mints and manual deposits by. */
  function Surplus(s: System): int {
    var y := s.history;
    s.supply + Queued(s.bridge.withdrawals) + y.depositFees
        + y.withdrawalFees - y.feesPaid - TotalAmount(y.minted) - y.grossDeposits
  }

  /** Surplus and tokens moved on other mint accounts: what no operation but an initialization changes. */
  function Total(s: System): int {
    Surplus(s) + s.history.strayed
  }

  /** Fees charged from s0 to s. */
  function FeesSince(s0: System, s: System): int {
    s.history.depositFees - s0.history.depositFees + s.history.withdrawalFees - s0.history.withdrawalFees
  }

  /**
   The u64 counters of the program are the true totals since s0, reduced modulo 2^64; paid fees
   never wrap.
   */
  ghost predicate CountersAgree(s0: System, s: System) {
    var money, y0, y := s.bridge.money, s0.history, s.history;
    && y.depositFees >= y0.depositFees && y.withdrawalFees >= y0.withdrawalFees
    && money.depositFees == Wrap64(y.depositFees - y0.depositFees)
    && money.withdrawalFees == Wrap64(y.withdrawalFees - y0.withdrawalFees)
    && money.feesWithdrawn == y.feesPaid - y0.feesPaid
    && money.requested == Wrap64(Queued(s.bridge.withdrawals) + (y.withdrawalFees - y0.withdrawalFees))
  }

  /** The step from s to s' keeps the total, and the counters if they agreed before. */
  ghost predicate KeepsLedger(s0: System, s: System, s': System) {
    Total(s') == Total(s) && (CountersAgree(s0, s) ==> CountersAgree(s0, s'))
  }

  // ---- One operation ----

  lemma WrapSum(a: nat, b: nat)
    ensures Wrap64(Wrap64(a) + b) == Wrap64(a + b)
  {
  }

  lemma ChargedFee(amount: u64, r: Fees.Rate)
    requires FeeOrNothing(amount, r).fee != 0
    ensures FeeOrNothing(amount, r).fee + FeeOrNothing(amount, r).net == amount
  {
    Fees.FeeMeaning(amount, r);
  }

  lemma DepositKeepsLedger(env: Env, s0: System, s: System, op: Operation, s': System)
    requires op.ManualDeposit?
    requires ManualDepositStep(env, s, op.txHash, op.blockRoot, op.claimRoot, op.txoIndex, op.recipient, op.amount,
             op.token) == Ok(s')
    ensures KeepsLedger(s0, s, s')
    ensures var rate := s.bridge.config.deposit;
            && rate.denominator > 0
            && var fee := Fees.ExactFee(op.amount, rate) % U64_MODULUS;
               && 0 < fee < op.amount
               && s'.supply + s'.history.strayed == s.supply + s.history.strayed + op.amount - fee
               && s'.history.depositFees == s.history.depositFees + fee
  {
    ChargedFee(op.amount, s.bridge.config.deposit);
    Fees.FeeMeaning(op.amount, s.bridge.config.deposit);
    if CountersAgree(s0, s) {
      WrapSum(s.history.depositFees - s0.history.depositFees, FeeOrNothing(op.amount, s.bridge.config.deposit).fee);
    }
  }

  lemma WithdrawKeepsLedger(s0: System, s: System, amount: u64, addressType: u32, address: Bytes, token: TokenCall,
          s': System)
    requires WithdrawStep(s, amount, addressType, address, token) == Ok(s')
    ensures KeepsLedger(s0, s, s')
    ensures var rate := s.bridge.config.withdrawal;
            && rate.denominator > 0
            && var fee := Fees.ExactFee(amount, rate) % U64_MODULUS;
               && 0 < fee < amount
               && s'.supply + s'.history.strayed == s.supply + s.history.strayed - amount
               && s'.bridge.withdrawals == s.bridge.withdrawals + [Withdrawal(amount - fee, addressType, address)]
               && s'.history.withdrawalFees == s.history.withdrawalFees + fee
  {
    var f := FeeOrNothing(amount, s.bridge.config.withdrawal);
    ChargedFee(amount, s.bridge.config.withdrawal);
    Fees.FeeMeaning(amount, s.bridge.config.withdrawal);
    QueuedAppend(s.bridge.withdrawals, Withdrawal(f.net, addressType, address));
    if CountersAgree(s0, s) {
      var w := s.history.withdrawalFees - s0.history.withdrawalFees;
      WrapSum(w, f.fee);
      WrapSum(Queued(s.bridge.withdrawals) + w, amount);
    }
  }

  lemma OperatorKeepsLedger(s0: System, s: System, signer: Key, token: TokenCall, s': System)
    requires OperatorWithdrawStep(s, signer, token) == Ok(s')
    ensures KeepsLedger(s0, s, s')
  {
  }

  lemma PaymentKeepsLedger(env: Env, s0: System, s: System, op: Operation, s': System)
    requires (op.ManualDeposit? || op.Withdraw? || op.OperatorWithdraw?) && StepOf(env, s, op) == Ok(s')
    ensures KeepsLedger(s0, s, s')
  {
    match op {
      case Withdraw(amount, addressType, address, token) =>
        WithdrawKeepsLedger(s0, s, amount, addressType, address, token, s');
      case OperatorWithdraw(signer, token) => OperatorKeepsLedger(s0, s, signer, token, s');
      case _ => DepositKeepsLedger(env, s0, s, op, s');
    }
  }

  /** A claim mints exactly what it adds to the record of mints. */
  ghost predicate MintsOnly(s: System, s': System, paid: seq<PendingMint>) {
    && s'.bridge == s.bridge.(backlog := s'.bridge.backlog)
    && s'.supply + s'.history.strayed == s.supply + s.history.strayed + TotalAmount(paid)
    && s'.history == s.history.(minted := s.history.minted + paid, paidOn := s'.history.paidOn,
        activated := s'.history.activated, strayed := s'.history.strayed)
  }

  lemma ClaimMintsOnly(env: Env, s: System, m: Manager, advanced: bool, addr: Key, group: u16, unlock: bool,
          recipients: seq<Key>, token: TokenCall)
    returns (paid: seq<PendingMint>)
    requires ClaimStep(env, s, m, advanced, addr, group, unlock, recipients, token).Ok?
    ensures MintsOnly(s, ClaimStep(env, s, m, advanced, addr, group, unlock, recipients, token).value, paid)
  {
    var c := Precheck(m, group, addr).value;
    var buffers: Buffers := if advanced then LockAt(env, s.buffers, addr).value else s.buffers;
    paid := ReadMints(MemoryAt(buffers, addr), c.offset, recipients).value;
  }

  lemma MintsKeepLedger(s0: System, s: System, s': System, paid: seq<PendingMint>)
    requires MintsOnly(s, s', paid)
    ensures KeepsLedger(s0, s, s')
  {
    TotalAmountConcat(s.history.minted, paid);
  }

  lemma AutoAdvanceKeepsLedger(env: Env, s0: System, s: System, addr: Key, owner: Key, group: u16, unlock: bool,
          recipients: seq<Key>, token: TokenCall)
    requires AutoAdvanceStep(env, s, addr, owner, group, unlock, recipients, token).Ok?
    ensures KeepsLedger(s0, s, AutoAdvanceStep(env, s, addr, owner, group, unlock, recipients, token).value)
  {
    var m := s.bridge.backlog;
    var m1 := if NeedsAdvance(m)
        then SetupNext(env.h, env.bridge, m, addr, MemoryAt(s.buffers, addr), TxoAt(s, owner)).value else m;
    var paid := ClaimMintsOnly(env, s, m1, NeedsAdvance(m), addr, group, unlock, recipients, token);
    MintsKeepLedger(s0, s, AutoAdvanceStep(env, s, addr, owner, group, unlock, recipients, token).value, paid);
  }

  lemma MintGroupKeepsLedger(env: Env, s0: System, s: System, signer: Key, addr: Key, group: u16, unlock: bool,
          recipients: seq<Key>, token: TokenCall)
    requires MintGroupStep(env, s, signer, addr, group, unlock, recipients, token).Ok?
    ensures KeepsLedger(s0, s, MintGroupStep(env, s, signer, addr, group, unlock, recipients, token).value)
  {
    var paid := ClaimMintsOnly(env, s, s.bridge.backlog, false, addr, group, unlock, recipients, token);
    MintsKeepLedger(s0, s, MintGroupStep(env, s, signer, addr, group, unlock, recipients, token).value, paid);
  }

  /** A block update moves no money. */
  ghost predicate NoMoney(s: System, s': System) {
    && s'.bridge.money == s.bridge.money && s'.bridge.withdrawals == s.bridge.withdrawals && s'.supply == s.supply
    && s'.history == s.history.(committed := s'.history.committed, activated := s'.history.activated,
        recorded := s'.history.recorded)
  }

  lemma NoMoneyKeepsLedger(s0: System, s: System, s': System)
    requires NoMoney(s, s')
    ensures KeepsLedger(s0, s, s')
  {
  }

  lemma BlockUpdateNoMoney(env: Env, s: System, proof: Bytes, next: BridgeHeader, addr: Key, owner: Key)
    requires BlockUpdateStep(env, s, proof, next, addr, owner).Ok?
    ensures NoMoney(s, BlockUpdateStep(env, s, proof, next, addr, owner).value)
  {
  }

  lemma ReorgNoMoney(env: Env, s: System, proof: Bytes, next: BridgeHeader, extra: seq<Info>, addr: Key, owner: Key)
    requires ReorgStep(env, s, proof, next, extra, addr, owner).Ok?
    ensures NoMoney(s, ReorgStep(env, s, proof, next, extra, addr, owner).value)
  {
  }

  /** Every operation but an initialization keeps the counters and the total. */
  lemma StepKeepsLedger(env: Env, s0: System, s: System, op: Operation)
    requires !op.Initialize?
    ensures KeepsLedger(s0, s, Apply(env, s, op))
  {
    if StepOf(env, s, op).Ok? {
      var s' := StepOf(env, s, op).value;
      match op {
        case BlockUpdate(proof, header, addr, owner) =>
          BlockUpdateNoMoney(env, s, proof, header, addr, owner);
          NoMoneyKeepsLedger(s0, s, s');
        case Reorg(proof, header, extra, addr, owner) =>
          ReorgNoMoney(env, s, proof, header, extra, addr, owner);
          NoMoneyKeepsLedger(s0, s, s');
        case MintGroup(signer, addr, group, unlock, recipients, token) =>
          MintGroupKeepsLedger(env, s0, s, signer, addr, group, unlock, recipients, token);
        case AutoAdvance(addr, owner, group, unlock, recipients, token) =>
          AutoAdvanceKeepsLedger(env, s0, s, addr, owner, group, unlock, recipients, token);
        case BufferInstruction(_, _) =>
        case TxoInstruction(_, _) =>
        case _ => PaymentKeepsLedger(env, s0, s, op, s');
      }
    }
  }

  // ---- The bridge's own token ----

  /** The step calls the token program, if at all, on the bridge's own mint. */
  predicate NamesOwnMint(b: Bridge, op: Operation) {
    match op
    case MintGroup(_, _, _, _, _, token) => token.mint == b.dogeMint
    case AutoAdvance(_, _, _, _, _, token) => token.mint == b.dogeMint
    case ManualDeposit(_, _, _, _, _, _, token) => token.mint == b.dogeMint
    case Withdraw(_, _, _, token) => token.mint == b.dogeMint
    case OperatorWithdraw(_, token) => token.mint == b.dogeMint
    case _ => true
  }

  /** The backlog whose group an auto-advance claims: the stored one, moved on if need be. */
  function ClaimedBacklog(env: Env, s: System, addr: Key, owner: Key): Manager {
    var m, txo := s.bridge.backlog, TxoAt(s, owner);
    if !NeedsAdvance(m) || txo.Missing? then m
    else
      match SetupNext(env.h, env.bridge, m, addr, MemoryAt(s.buffers, addr), txo)
      case Ok(m1) => m1
      case Err(_) => m
  }

  /** The records of the group an auto-advance names, as they lie in its buffer before the step. */
  function GroupRecords(env: Env, s: System, addr: Key, owner: Key, group: u16,
          recipients: seq<Key>): seq<PendingMint> {
    match Precheck(ClaimedBacklog(env, s, addr, owner), group, addr)
    case Err(_) => []
    case Ok(c) =>
      match ReadMints(MemoryAt(s.buffers, addr), c.offset, recipients)
      case Err(_) => []
      case Ok(ms) => ms
  }

  /** A transaction that fails, or an auto-advance whose records add up to nothing. */
  predicate MovesNothing(env: Env, s: System, op: Operation) {
    || StepOf(env, s, op).Err?
    || (op.AutoAdvance? && TotalAmount(GroupRecords(env, s, op.addr, op.owner, op.group, op.recipients)) == 0)
  }

  lemma SliceOfTail(s: Bytes, k: nat, lo: nat, hi: nat)
    requires k <= lo <= hi <= |s|
    ensures s[lo..hi] == s[k..][lo - k..hi - k]
  {
  }

  /** Behind the header two equal memories hold the same records. */
  lemma {:induction false} ReadsBehindHeader(mem: Bytes, mem': Bytes, offset: nat, recipients: seq<Key>)
    requires |mem| == |mem'| >= 72 && mem[72..] == mem'[72..] && offset >= 72
    ensures ReadMints(mem, offset, recipients) == ReadMints(mem', offset, recipients)
    decreases |recipients|
  {
    if |recipients| > 0 && offset + 40 <= |mem| {
      SliceOfTail(mem, 72, offset, offset + 40);
      SliceOfTail(mem', 72, offset, offset + 40);
      ReadsBehindHeader(mem, mem', offset + 40, recipients[1..]);
    }
  }

  lemma LockKeepsRecords(env: Env, buffers: Buffers, addr: Key, offset: nat, recipients: seq<Key>)
    requires LockAt(env, buffers, addr).Ok? && offset >= 72
    ensures ReadMints(MemoryAt(buffers, addr), offset, recipients)
            == ReadMints(MemoryAt(LockAt(env, buffers, addr).value, addr), offset, recipients)
  {
    var a, locked: Buffers := AccountAt(buffers, addr).account, LockAt(env, buffers, addr).value;
    assert Memory(a)[72..] == a.body && Memory(AccountAt(locked, addr).account)[72..] == a.body;
    ReadsBehindHeader(MemoryAt(buffers, addr), MemoryAt(locked, addr), offset, recipients);
  }

  lemma OffsetBehindHeader(m: Manager, g: u16, addr: Key)
    requires Precheck(m, g, addr).Ok?
    ensures Precheck(m, g, addr).value.offset >= 72
  {
  }

  /** What a claim takes astray, in terms of the records as they lie in the buffer before it. */
  lemma ClaimStrays(env: Env, s: System, m: Manager, advanced: bool, addr: Key, group: u16, unlock: bool,
          recipients: seq<Key>, token: TokenCall)
    requires ClaimStep(env, s, m, advanced, addr, group, unlock, recipients, token).Ok?
    ensures Precheck(m, group, addr).Ok?
    ensures var s', r := ClaimStep(env, s, m, advanced, addr, group, unlock, recipients, token).value,
                         ReadMints(MemoryAt(s.buffers, addr), Precheck(m, group, addr).value.offset, recipients);
            r.Ok? && s'.history.strayed == s.history.strayed + Elsewhere(s.bridge.dogeMint, token, TotalAmount(r.value))
  {
    OffsetBehindHeader(m, group, addr);
    if advanced {
      LockKeepsRecords(env, s.buffers, addr, Precheck(m, group, addr).value.offset, recipients);
    }
  }

  lemma AutoAdvanceIsClaim(env: Env, s: System, addr: Key, owner: Key, group: u16, unlock: bool,
          recipients: seq<Key>, token: TokenCall)
    requires AutoAdvanceStep(env, s, addr, owner, group, unlock, recipients, token).Ok?
    ensures AutoAdvanceStep(env, s, addr, owner, group, unlock, recipients, token)
         == ClaimStep(env, s, ClaimedBacklog(env, s, addr, owner), NeedsAdvance(s.bridge.backlog), addr, group,
             unlock, recipients, token)
  {
  }

  lemma AutoAdvanceStrays(env: Env, s: System, addr: Key, owner: Key, group: u16, unlock: bool, recipients: seq<Key>,
          token: TokenCall)
    requires AutoAdvanceStep(env, s, addr, owner, group, unlock, recipients, token).Ok?
    ensures var s' := AutoAdvanceStep(env, s, addr, owner, group, unlock, recipients, token).value;
            s'.history.strayed == s.history.strayed
                + Elsewhere(s.bridge.dogeMint, token, TotalAmount(GroupRecords(env, s, addr, owner, group, recipients)))
  {
    AutoAdvanceIsClaim(env, s, addr, owner, group, unlock, recipients, token);
    ClaimStrays(env, s, ClaimedBacklog(env, s, addr, owner), NeedsAdvance(s.bridge.backlog), addr, group, unlock,
        recipients, token);
  }

  /** When a step moves tokens of another mint. */
  lemma StraysIff(env: Env, s: System, op: Operation)
    requires StepOf(env, s, op).Ok? && !op.Initialize?
    ensures StepOf(env, s, op).value.history.strayed == s.history.strayed
            <==> NamesOwnMint(s.bridge, op) || MovesNothing(env, s, op)
  {
    match op {
      case MintGroup(signer, addr, group, unlock, recipients, token) =>
        var paid := ClaimMintsOnly(env, s, s.bridge.backlog, false, addr, group, unlock, recipients, token);
      case AutoAdvance(addr, owner, group, unlock, recipients, token) =>
        AutoAdvanceStrays(env, s, addr, owner, group, unlock, recipients, token);
      case BlockUpdate(proof, header, addr, owner) => BlockUpdateNoMoney(env, s, proof, header, addr, owner);
      case Reorg(proof, header, extra, addr, owner) => ReorgNoMoney(env, s, proof, header, extra, addr, owner);
      case Withdraw(amount, addressType, address, token) => ChargedFee(amount, s.bridge.config.withdrawal);
      case _ =>
    }
  }

  /**
   A step keeps the surplus exactly if it names the bridge's own mint or moves nothing.
   Withdrawal requests, manual deposits and auto-advances do not compare the mint account.
   */
  lemma StepKeepsBalanceIff(env: Env, s: System, op: Operation)
    requires !op.Initialize?
    ensures Surplus(Apply(env, s, op)) == Surplus(s) <==> NamesOwnMint(s.bridge, op) || MovesNothing(env, s, op)
  {
    StepKeepsLedger(env, s, s, op);
    if StepOf(env, s, op).Ok? {
      StraysIff(env, s, op);
    }
  }

  /** A withdrawal request on another mint is accepted like any other, and upsets the balance by its amount. */
  lemma ForeignWithdrawalUnbalances(env: Env, s: System, amount: u64, addressType: u32, address: Bytes, mint: Key)
    requires mint != s.bridge.dogeMint && RequestWithdrawal(s.bridge, amount, addressType, address).Ok?
    ensures var op := Withdraw(amount, addressType, address, TokenCall(mint, true));
            StepOf(env, s, op).Ok? && Surplus(Apply(env, s, op)) == Surplus(s) + amount != Surplus(s)
  {
    var op := Withdraw(amount, addressType, address, TokenCall(mint, true));
    StepKeepsLedger(env, s, s, op);
    ChargedFee(amount, s.bridge.config.withdrawal);
  }

  // ---- Whole runs ----

  ghost predicate NeverInitialized(ops: seq<Operation>) {
    forall op :: op in ops ==> !op.Initialize?
  }

  /** Every operation of the run names the bridge's own mint or moves nothing. */
  ghost predicate OwnMintRun(env: Env, s: System, ops: seq<Operation>)
    decreases |ops|
  {
    || |ops| == 0
    || ((NamesOwnMint(s.bridge, ops[0]) || MovesNothing(env, s, ops[0]))
        && OwnMintRun(env, Apply(env, s, ops[0]), ops[1..]))
  }

  lemma {:induction false} RunKeepsLedger(env: Env, s0: System, s: System, ops: seq<Operation>)
    requires NeverInitialized(ops)
    ensures KeepsLedger(s0, s, RunOf(env, s, ops))
    decreases |ops|
  {
    if |ops| > 0 {
      assert ops[0] in ops && forall op :: op in ops[1..] ==> op in ops;
      StepKeepsLedger(env, s0, s, ops[0]);
      RunKeepsLedger(env, s0, Apply(env, s, ops[0]), ops[1..]);
    }
  }

  lemma FeeTotal(s0: System, s: System)
    requires CountersAgree(s0, s)
    ensures 0 <= FeesSince(s0, s) && TotalFees(s.bridge) == Wrap64(FeesSince(s0, s) + s.bridge.header.chainFees)
  {
    var d, w := s.history.depositFees - s0.history.depositFees, s.history.withdrawalFees - s0.history.withdrawalFees;
    var c := s.bridge.header.chainFees;
    WrapSum(d, Wrap64(w) + c);
    WrapSum(w, d + c);
  }

  lemma {:induction false} OwnMintRunKeepsSurplus(env: Env, s: System, ops: seq<Operation>)
    requires NeverInitialized(ops) && OwnMintRun(env, s, ops)
    ensures Surplus(RunOf(env, s, ops)) == Surplus(s)
    decreases |ops|
  {
    if |ops| > 0 {
      assert ops[0] in ops && forall op :: op in ops[1..] ==> op in ops;
      StepKeepsBalanceIff(env, s, ops[0]);
      OwnMintRunKeepsSurplus(env, Apply(env, s, ops[0]), ops[1..]);
    }
  }

  /** The bridge was initialized just now, whatever happened before. */
  predicate JustInitialized(b: Bridge) {
    b == Initial(b.header, b.config, b.custodian, b.operator, b.dogeMint)
  }

  /**
   From one initialization to the next, supply, queued payouts, fees held and the tokens moved
   on other mints make up the claimed mints and the gross manual deposits. Fees already
   withdrawn are counted exactly, amounts requested modulo 2^64.
   */
  lemma ConservationWithStrays(env: Env, s0: System, ops: seq<Operation>)
    requires JustInitialized(s0.bridge) && NeverInitialized(ops)
    ensures var s := RunOf(env, s0, ops);
            && Total(s) == Total(s0)
            && s.bridge.money.feesWithdrawn == s.history.feesPaid - s0.history.feesPaid
            && s.history.withdrawalFees >= s0.history.withdrawalFees
            && s.bridge.money.requested
                == Wrap64(Queued(s.bridge.withdrawals) + (s.history.withdrawalFees - s0.history.withdrawalFees))
  {
    RunKeepsLedger(env, s0, s0, ops);
  }

  /** The law in the quantities the program itself keeps, for what happened since s0. */
  ghost predicate Conserved(s0: System, s: System) {
    var y0, y, b := s0.history, s.history, s.bridge;
    s.supply - s0.supply + Queued(b.withdrawals) + (TotalFees(b) - b.money.feesWithdrawn)
      == (TotalAmount(y.minted) - TotalAmount(y0.minted)) + (y.grossDeposits - y0.grossDeposits) + b.header.chainFees
  }

  /**
   Conservation from one initialization to the next, over every run whose operations name the
   bridge's own mint or move nothing: the change of supply, the queued payouts and the fees not
   yet withdrawn, as the program counts them, make up the claimed mints, the gross manual
   deposits and the fees the header reports, exactly if the fee total fits 64 bits.
   */
  lemma {:induction false} Conservation(env: Env, s0: System, ops: seq<Operation>)
    requires JustInitialized(s0.bridge) && NeverInitialized(ops) && OwnMintRun(env, s0, ops)
    ensures var s := RunOf(env, s0, ops);
            && Surplus(s) == Surplus(s0)
            && (Conserved(s0, s) <==> FeesSince(s0, s) + s.bridge.header.chainFees < U64_MODULUS)
  {
    RunKeepsLedger(env, s0, s0, ops);
    OwnMintRunKeepsSurplus(env, s0, ops);
    FeeTotal(s0, RunOf(env, s0, ops));
  }

  // ---- A second initialization ----

  /** An initialization forgets the queued payouts and takes them out of the surplus. */
  lemma InitializeForgetsQueue(env: Env, s: System, op: Operation)
    requires op.Initialize?
    ensures Surplus(Apply(env, s, op)) == Surplus(s) - Queued(s.bridge.withdrawals)
  {
  }

  /**
   The law outlives an initialization exactly if the queued payouts and the fees charged are
   what was withdrawn as fees.
   */
  lemma InitializeKeepsConservationIff(env: Env, s0: System, s: System, op: Operation)
    requires op.Initialize? && Conserved(s0, s)
    ensures var b := s.bridge;
            Conserved(s0, Apply(env, s, op)) <==>
              Queued(b.withdrawals) + TotalFees(b) - b.header.chainFees == b.money.feesWithdrawn
  {
    assert Queued([]) == 0;
  }

  /** Fees charged and not yet withdrawn are forgotten: the law fails although no payout was queued. */
  lemma UnpaidFeesAreForgotten(env: Env, s0: System, s: System, op: Operation)
    requires op.Initialize? && Conserved(s0, s) && Queued(s.bridge.withdrawals) == 0
    requires s.bridge.header.chainFees == s.bridge.money.feesWithdrawn == 0
    requires 0 < s.bridge.money.depositFees + s.bridge.money.withdrawalFees < U64_MODULUS
    ensures Surplus(Apply(env, s, op)) == Surplus(s) && !Conserved(s0, Apply(env, s, op))
  {
    InitializeForgetsQueue(env, s, op);
    InitializeKeepsConservationIff(env, s0, s, op);
  }

  lemma TwoSteps(env: Env, s: System, a: Operation, b: Operation)
    ensures RunOf(env, s, [a, b]) == Apply(env, Apply(env, s, a), b)
  {
    var s1 := Apply(env, s, a);
    assert [a, b][1..] == [b] && [b][1..] == [];
    assert RunOf(env, s1, [b]) == RunOf(env, Apply(env, s1, b), []);
  }

  /**
   Fees already withdrawn are forgotten too: the new operator is paid the chain's fees, however
   often they were paid before.
   */
  lemma ChainFeesArePaidAgain(env: Env, s: System, op: Operation)
    requires op.Initialize? && op.first.chainFees > 0
    ensures var pay := OperatorWithdraw(op.newOperator, TokenCall(op.dogeMint, true));
            RunOf(env, s, [op, pay]).supply == s.supply + op.first.chainFees
  {
    var pay := OperatorWithdraw(op.newOperator, TokenCall(op.dogeMint, true));
    TwoSteps(env, s, op, pay);
  }
}
