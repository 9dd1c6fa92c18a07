/** The ring of recent finalized states and the manual claims checked against it. */
module RecentBlocks {
  import opened Bytes
  import opened MintBuffer
  import opened Backlog
  import opened Headers
  import opened Bridge
  import opened System
  import opened Alignment
  import opened Runs
  import TxoIndex

  function Rotated<T>(s: seq<T>, k: nat): (r: seq<T>)
    requires k <= |s|
    ensures |r| == |s|
  {
    s[k..] + s[..k]
  }

  /** The slots of the ring, oldest first. */
  function OldestFirst(r: Ring): (s: seq<FinalizedState>)
    ensures |s| == 8
  {
    Rotated(r.slots, r.next)
  }

  function LastEight(log: seq<FinalizedState>): seq<FinalizedState>
    requires |log| >= 8
  {
    log[|log| - 8..]
  }

  /** Overwriting the element a rotation starts with moves it to the end of the next rotation. */
  lemma RotationShifts<T>(s: seq<T>, k: nat, x: T)
    requires k < |s|
    ensures Rotated(s[k := x], k + 1) == Rotated(s, k)[1..] + [x]
  {
    assert s[k := x][k + 1..] == s[k + 1..] && s[k := x][..k + 1] == s[..k] + [x];
    assert s[k..] == [s[k]] + s[k + 1..];
  }

  lemma FullRotation<T>(s: seq<T>)
    ensures Rotated(s, |s|) == s == Rotated(s, 0)
  {
  }

  lemma RecordShifts(r: Ring, f: FinalizedState)
    ensures OldestFirst(Record(r, f)) == OldestFirst(r)[1..] + [f]
  {
    RotationShifts(r.slots, r.next, f);
    FullRotation(r.slots[r.next := f]);
    NextSlot(r.next);
  }

  lemma NextSlot(next: nat)
    requires next < 8
    ensures (next + 1) % 8 == if next == 7 then 0 else next + 1
  {
  }

  /** The log of recorded states, the initial one standing in for the time before. */
  function StateLog(first: FinalizedState, recorded: seq<FinalizedState>): (log: seq<FinalizedState>)
    ensures |log| >= 8
  {
    Repeated(first, 8) + recorded
  }

  /** The last initialization: the finalized state it was given, and how many states were recorded before it. */
  datatype Start = Start(first: FinalizedState, before: nat)

  /** The ring is the last eight of the states recorded since then, the given one standing in for the time before. */
  ghost predicate RingMatches(start: Start, s: System) {
    && start.before <= |s.history.recorded|
    && OldestFirst(s.bridge.ring) == LastEight(StateLog(start.first, s.history.recorded[start.before..]))
  }

  lemma RecordKeepsRing(first: FinalizedState, recorded: seq<FinalizedState>, r: Ring, f: FinalizedState)
    requires OldestFirst(r) == LastEight(StateLog(first, recorded))
    ensures OldestFirst(Record(r, f)) == LastEight(StateLog(first, recorded + [f]))
  {
    RecordShifts(r, f);
    assert StateLog(first, recorded + [f]) == StateLog(first, recorded) + [f];
  }

  lemma BlockUpdateRecords(env: Env, s: System, s': System, proof: Bytes, next: BridgeHeader, addr: Key, owner: Key)
    requires Sound(env) && SystemInvariant(env, s) && BlockUpdateStep(env, s, proof, next, addr, owner) == Ok(s')
    ensures s'.bridge.ring == Record(s.bridge.ring, next.finalized)
    ensures s'.history.recorded == s.history.recorded + [next.finalized]
  {
    BlockUpdateShape(env, s, s', proof, next, addr, owner);
    var a := AccountAt(LockAt(env, s.buffers, addr).value, addr).account;
    TransitionHeights(env, s.bridge, s'.bridge, proof, next, addr, Memory(a), TxoAt(s, owner));
  }

  lemma ReorgKeepsRing(env: Env, s: System, s': System, proof: Bytes, next: BridgeHeader, extra: seq<Info>,
          addr: Key, owner: Key)
    requires ReorgStep(env, s, proof, next, extra, addr, owner) == Ok(s')
    ensures s'.bridge.ring == s.bridge.ring && s'.history.recorded == s.history.recorded
  {
    ReorgParts(env, s, s', proof, next, extra, addr, owner);
    ReorgRaises(env, s, s', proof, next, extra, addr, owner);
  }

  lemma RecordSince(recorded: seq<FinalizedState>, k: nat, f: FinalizedState)
    requires k <= |recorded|
    ensures (recorded + [f])[k..] == recorded[k..] + [f]
  {
  }

  lemma StepKeepsRing(env: Env, start: Start, s: System, op: Operation)
    requires Sound(env) && SystemInvariant(env, s) && RingMatches(start, s) && !op.Initialize?
    ensures RingMatches(start, Apply(env, s, op))
  {
    if StepOf(env, s, op).Ok? {
      match op {
        case BlockUpdate(proof, header, addr, owner) =>
          BlockUpdateRecords(env, s, StepOf(env, s, op).value, proof, header, addr, owner);
          RecordSince(s.history.recorded, start.before, header.finalized);
          RecordKeepsRing(start.first, s.history.recorded[start.before..], s.bridge.ring, header.finalized);
        case Reorg(proof, header, extra, addr, owner) =>
          ReorgKeepsRing(env, s, StepOf(env, s, op).value, proof, header, extra, addr, owner);
        case _ => OthersKeepHeader(env, s, op);
      }
    }
  }

  /** The start of the stretch a run ends in. */
  function LastStart(env: Env, s: System, start: Start, ops: seq<Operation>): Start
    decreases |ops|
  {
    if |ops| == 0 then start
    else
      var op := ops[0];
      LastStart(env, Apply(env, s, op), if op.Initialize? then Start(op.first.finalized, |s.history.recorded|)
          else start, ops[1..])
  }

  lemma InitialRing(first: FinalizedState, s: System)
    requires s.bridge.ring == Ring(Repeated(first, 8), 0)
    ensures RingMatches(Start(first, |s.history.recorded|), s)
  {
    var recorded := s.history.recorded;
    assert recorded[|recorded|..] == [] && StateLog(first, []) == Repeated(first, 8);
    assert Repeated(first, 8)[0..] + Repeated(first, 8)[..0] == Repeated(first, 8);
  }

  lemma {:induction false} RunKeepsRing(env: Env, start: Start, s: System, ops: seq<Operation>)
    requires Sound(env) && SystemInvariant(env, s) && IsLongRun(env, s, ops) && RingMatches(start, s)
    ensures RingMatches(LastStart(env, s, start, ops), RunOf(env, s, ops))
    decreases |ops|
  {
    if |ops| > 0 {
      var op := ops[0];
      var s' := Apply(env, s, op);
      if op.Initialize? {
        InitializeKeepsInvariantIff(env, s, op);
        InitialRing(op.first.finalized, s');
        RunKeepsRing(env, Start(op.first.finalized, |s.history.recorded|), s', ops[1..]);
      } else {
        StepKeepsInvariant(env, s, op);
        StepKeepsRing(env, start, s, op);
        RunKeepsRing(env, start, s', ops[1..]);
      }
    }
  }

  /**
   After every run the ring holds the last eight states recorded since the last initialization,
   the state that one was given repeated before them.
   */
  lemma RingHoldsLastEight(env: Env, s0: System, ops: seq<Operation>)
    requires Sound(env) && IsInitial(env, s0) && IsLongRun(env, s0, ops)
    ensures RingMatches(LastStart(env, s0, Start(s0.bridge.header.finalized, 0), ops), RunOf(env, s0, ops))
  {
    InitialInvariant(env, s0);
    InitialRing(s0.bridge.header.finalized, s0);
    RunKeepsRing(env, Start(s0.bridge.header.finalized, 0), s0, ops);
  }

  // ---- Manual claims ----

  /** A state that supports a manual claim of an output with these two roots. */
  predicate Supports(f: FinalizedState, blockRoot: Digest, claimRoot: Digest, txoIndex: u64) {
    f.depositsRoot == claimRoot && f.blockRoot == blockRoot && TxoIndex.BlockOf(txoIndex) <= f.height
  }

  /** The fee part of a manual claim succeeds. */
  predicate FeeCharged(b: Bridge, amount: u64) {
    FeeOrNothing(amount, b.config.deposit).fee != 0 && FeeOrNothing(amount, b.config.deposit).net != 0
  }

  /** The states a claim is compared with: the header's, then the ring's slots in memory order. */
  function SearchList(b: Bridge): seq<FinalizedState> {
    [b.header.finalized] + b.ring.slots
  }

  /** Of all states with the claimed deposit root, only the first one is looked at. */
  ghost predicate IsFirstMatch(list: seq<FinalizedState>, root: Digest, i: nat) {
    && i < |list| && list[i].depositsRoot == root
    && forall j :: 0 <= j < i ==> list[j].depositsRoot != root
  }

  /**
   The claim rests on state i of the search list: it is the first match, supports the claim, and
   its height is valid.
   */
  ghost predicate RestsOn(b: Bridge, blockRoot: Digest, claimRoot: Digest, txoIndex: u64, i: nat) {
    && IsFirstMatch(SearchList(b), claimRoot, i)
    && Supports(SearchList(b)[i], blockRoot, claimRoot, txoIndex)
    && SearchList(b)[i].height != INVALID_BLOCK_HEIGHT
  }

  lemma FindRecentFindsFirst(b: Bridge, root: Digest, i: nat)
    requires IsFirstMatch(SearchList(b), root, i)
    ensures FindRecent(b, root) == (SearchList(b)[i].height, SearchList(b)[i].blockRoot)
  {
    var list, j := SearchList(b), FindSlot(b.ring.slots, root, 0);
    assert list[0] == b.header.finalized;
    assert forall k :: 0 <= k < 8 ==> list[k + 1] == b.ring.slots[k];
    if i > 0 {
      assert j < 8 ==> list[j + 1].depositsRoot == root;
    }
  }

  lemma FirstMatchExists(b: Bridge, root: Digest) returns (i: nat)
    requires FindRecent(b, root).0 != INVALID_BLOCK_HEIGHT
    ensures IsFirstMatch(SearchList(b), root, i)
  {
    i := if b.header.finalized.depositsRoot == root then 0 else FindSlot(b.ring.slots, root, 0) + 1;
  }

  /**
   A manual claim is accepted exactly if it rests on some state and the fee leaves
   something on both sides.
   */
  lemma ManualClaimAcceptedIff(b: Bridge, txHash: Digest, blockRoot: Digest, claimRoot: Digest, txoIndex: u64,
          recipient: Key, amount: u64)
    ensures ClaimDeposit(b, txHash, blockRoot, claimRoot, txoIndex, recipient, amount).Ok?
       <==> FeeCharged(b, amount) && exists i: nat :: RestsOn(b, blockRoot, claimRoot, txoIndex, i)
  {
    if i: nat :| RestsOn(b, blockRoot, claimRoot, txoIndex, i) {
      FindRecentFindsFirst(b, claimRoot, i);
    } else if ClaimDeposit(b, txHash, blockRoot, claimRoot, txoIndex, recipient, amount).Ok? {
      var i := FirstMatchExists(b, claimRoot);
      FindRecentFindsFirst(b, claimRoot, i);
      assert RestsOn(b, blockRoot, claimRoot, txoIndex, i);
    }
  }

  lemma SlotsAreOldestFirst(r: Ring, f: FinalizedState)
    ensures f in r.slots <==> f in OldestFirst(r)
  {
    assert r.slots == r.slots[..r.next] + r.slots[r.next..];
  }

  /**
   In every run an accepted manual claim rests on one state that carries both roots and is at
   least as high as the output's block: the current one or one of the last eight recorded since
   the last initialization, the state that one was given repeated before them.
   */
  lemma ManualClaimRestsOnRecentState(env: Env, s0: System, ops: seq<Operation>, txHash: Digest, blockRoot: Digest,
          claimRoot: Digest, txoIndex: u64, recipient: Key, amount: u64)
    returns (f: FinalizedState)
    requires Sound(env) && IsInitial(env, s0) && IsLongRun(env, s0, ops)
    requires ClaimDeposit(RunOf(env, s0, ops).bridge, txHash, blockRoot, claimRoot, txoIndex, recipient, amount).Ok?
    ensures Supports(f, blockRoot, claimRoot, txoIndex)
    ensures var s, start := RunOf(env, s0, ops), LastStart(env, s0, Start(s0.bridge.header.finalized, 0), ops);
            && start.before <= |s.history.recorded|
            && (f == s.bridge.header.finalized
                || f in LastEight(StateLog(start.first, s.history.recorded[start.before..])))
  {
    var s := RunOf(env, s0, ops);
    ManualClaimAcceptedIff(s.bridge, txHash, blockRoot, claimRoot, txoIndex, recipient, amount);
    var i: nat :| RestsOn(s.bridge, blockRoot, claimRoot, txoIndex, i);
    f := SearchList(s.bridge)[i];
    RingHoldsLastEight(env, s0, ops);
    SlotsAreOldestFirst(s.bridge.ring, f);
  }

  /** A newer state does not help a claim when an earlier slot has the same deposit root and another block root. */
  lemma ShadowedClaimFails(b: Bridge, txHash: Digest, txoIndex: u64, recipient: Key, amount: u64, i: nat, j: nat)
    requires i < j < 8 && b.ring.slots[i].depositsRoot == b.ring.slots[j].depositsRoot
    requires b.ring.slots[i].blockRoot != b.ring.slots[j].blockRoot
    requires IsFirstMatch(SearchList(b), b.ring.slots[i].depositsRoot, i + 1)
    ensures ClaimDeposit(b, txHash, b.ring.slots[j].blockRoot, b.ring.slots[j].depositsRoot, txoIndex, recipient,
            amount).Err?
  {
    FindRecentFindsFirst(b, b.ring.slots[j].depositsRoot, i + 1);
  }

  /** The scan of the slots, as the program runs it. */
  method ScanSlots(slots: array<FinalizedState>, root: Digest) returns (height: u32, blockRoot: Digest)
    requires slots.Length == 8
    ensures var j := FindSlot(slots[..], root, 0);
            (height, blockRoot) == if j < 8 then (slots[j].height, slots[j].blockRoot)
                else (INVALID_BLOCK_HEIGHT, ZERO32)
  {
    for i := 0 to slots.Length
      invariant FindSlot(slots[..], root, 0) == FindSlot(slots[..], root, i)
    {
      if slots[i].depositsRoot == root {
        return slots[i].height, slots[i].blockRoot;
      }
    }
    return INVALID_BLOCK_HEIGHT, ZERO32;
  }
}
