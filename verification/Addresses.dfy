/** Where buffers are: a mint buffer sits at the address derived from its writer, always. */
module Addresses {
  import opened Bytes
  import opened MintBuffer
  import opened MintBufferRuns
  import opened Backlog
  import opened Headers
  import opened Bridge
  import opened BridgeErrors
  import opened System
  import Txo = TxoBuffer

  ghost predicate AtHome(env: Env, buffers: Buffers) {
    forall addr :: addr in buffers && buffers[addr].account.Buffer? ==>
      addr == env.bufferOf(buffers[addr].account.header.writer)
  }

  lemma InstructionKeepsHome(env: Env, buffers: Buffers, addr: Key, i: Instruction)
    requires AtHome(env, buffers)
    ensures AtHome(env, buffers[addr := TransactAt(env.h, env.bufferOf, addr, AccountAt(buffers, addr), i)])
  {
    var a := AccountAt(buffers, addr).account;
    if Step(env.h, a, i).Ok? && Step(env.h, a, i).value != a {
      ChangesAreAuthorized(env.h, a, i);
    }
  }

  lemma LockKeepsHome(env: Env, buffers: Buffers, addr: Key)
    requires AtHome(env, buffers)
    ensures LockAt(env, buffers, addr).Ok? ==> AtHome(env, LockAt(env, buffers, addr).value)
    ensures UnlockAt(env, buffers, addr).Ok? ==> AtHome(env, UnlockAt(env, buffers, addr).value)
  {
  }

  lemma {:induction false} UpdateKeepsHome(env: Env, s: System, proof: Bytes, next: BridgeHeader, addr: Key, owner: Key)
    requires AtHome(env, s.buffers) && BlockUpdateStep(env, s, proof, next, addr, owner).Ok?
    ensures AtHome(env, BlockUpdateStep(env, s, proof, next, addr, owner).value.buffers)
  {
    LockKeepsHome(env, s.buffers, addr);
    LockKeepsHome(env, LockAt(env, s.buffers, addr).value, addr);
  }

  lemma {:induction false} ReorgKeepsHome(env: Env, s: System, proof: Bytes, next: BridgeHeader, extra: seq<Info>,
          addr: Key, owner: Key)
    requires AtHome(env, s.buffers) && ReorgStep(env, s, proof, next, extra, addr, owner).Ok?
    ensures AtHome(env, ReorgStep(env, s, proof, next, extra, addr, owner).value.buffers)
  {
    LockKeepsHome(env, s.buffers, addr);
    LockKeepsHome(env, LockAt(env, s.buffers, addr).value, addr);
  }

  lemma {:induction false} ClaimKeepsHome(env: Env, s: System, m: Manager, advanced: bool, addr: Key, group: u16,
          unlock: bool, recipients: seq<Key>, token: TokenCall)
    requires AtHome(env, s.buffers) && ClaimStep(env, s, m, advanced, addr, group, unlock, recipients, token).Ok?
    ensures AtHome(env, ClaimStep(env, s, m, advanced, addr, group, unlock, recipients, token).value.buffers)
  {
    LockKeepsHome(env, s.buffers, addr);
    if advanced {
      LockKeepsHome(env, LockAt(env, s.buffers, addr).value, addr);
    }
  }

  lemma {:induction false} AutoAdvanceKeepsHome(env: Env, s: System, addr: Key, owner: Key, group: u16, unlock: bool,
          recipients: seq<Key>, token: TokenCall)
    requires AtHome(env, s.buffers) && AutoAdvanceStep(env, s, addr, owner, group, unlock, recipients, token).Ok?
    ensures AtHome(env, AutoAdvanceStep(env, s, addr, owner, group, unlock, recipients, token).value.buffers)
  {
    var m, need := s.bridge.backlog, NeedsAdvance(s.bridge.backlog);
    var m1 := if need
        then SetupNext(env.h, env.bridge, m, addr, MemoryAt(s.buffers, addr), TxoAt(s, owner)).value else m;
    ClaimKeepsHome(env, s, m1, need, addr, group, unlock, recipients, token);
  }

  lemma StepKeepsHome(env: Env, s: System, op: Operation)
    requires AtHome(env, s.buffers)
    ensures AtHome(env, Apply(env, s, op).buffers)
  {
    if StepOf(env, s, op).Ok? {
      match op {
        case BufferInstruction(addr, i) => InstructionKeepsHome(env, s.buffers, addr, i);
        case BlockUpdate(proof, header, addr, owner) => UpdateKeepsHome(env, s, proof, header, addr, owner);
        case Reorg(proof, header, extra, addr, owner) => ReorgKeepsHome(env, s, proof, header, extra, addr, owner);
        case MintGroup(_, addr, group, unlock, recipients, token) =>
          ClaimKeepsHome(env, s, s.bridge.backlog, false, addr, group, unlock, recipients, token);
        case AutoAdvance(addr, owner, group, unlock, recipients, token) =>
          AutoAdvanceKeepsHome(env, s, addr, owner, group, unlock, recipients, token);
        case _ =>
      }
    }
  }

  /** Whatever operations are sent, every mint buffer sits at the address derived from its writer. */
  lemma {:induction false} BuffersStayHome(env: Env, s: System, ops: seq<Operation>)
    requires AtHome(env, s.buffers)
    ensures AtHome(env, RunOf(env, s, ops).buffers)
    decreases |ops|
  {
    if |ops| > 0 {
      StepKeepsHome(env, s, ops[0]);
      BuffersStayHome(env, Apply(env, s, ops[0]), ops[1..]);
    }
  }

  /**
   After any operations from a bridge without accounts, an accepted update uses a mint buffer
   that its own signer wrote, unless another key derives the same address.
   */
  lemma UpdatesUseOwnBuffers(env: Env, s0: System, ops: seq<Operation>, op: Operation)
    requires s0.buffers == map[] && (op.BlockUpdate? || op.Reorg?)
    requires var s := RunOf(env, s0, ops);
             StepOf(env, s, op).Ok?
    ensures var s := RunOf(env, s0, ops);
            && op.addr in s.buffers && s.buffers[op.addr].account.Buffer?
            && var writer := s.buffers[op.addr].account.header.writer;
               env.bufferOf(writer) == env.bufferOf(op.owner) == op.addr
  {
    BuffersStayHome(env, s0, ops);
  }
}
