/** Bridge headers and their canonical bytes. */
module Headers {
  import opened Bytes
  import opened Hashing

  datatype FinalizedState = FinalizedState(
    blockHash: Digest,
    blockRoot: Digest,
    mintsHash: Digest,
    txoHash: Digest,
    claimedTxoRoot: Digest,
    depositsRoot: Digest,
    nextIndex: u32,
    height: u32)

  datatype TipState = TipState(blockHash: Digest, blockRoot: Digest, time: u32, height: u32)

  datatype BridgeHeader = BridgeHeader(
    tip: TipState,
    finalized: FinalizedState,
    stateHash: Digest,
    lastRollback: u32,
    pausedUntil: u32,
    chainFees: u64)

  function TipBytes(t: TipState): (s: Bytes)
    ensures |s| == 72
  {
    t.blockHash + (t.blockRoot + (LE32(t.time) + LE32(t.height)))
  }

  function FinalizedBytes(f: FinalizedState): (s: Bytes)
    ensures |s| == 200
  {
    f.blockHash + (f.blockRoot
        + (f.mintsHash + (f.txoHash + (f.claimedTxoRoot + (f.depositsRoot + (LE32(f.nextIndex) + LE32(f.height)))))))
  }

  function HeaderBytes(b: BridgeHeader): (s: Bytes)
    ensures |s| == 320
  {
    TipBytes(b.tip) + (FinalizedBytes(b.finalized)
        + (b.stateHash + (LE32(b.lastRollback) + (LE32(b.pausedUntil) + LE64(b.chainFees)))))
  }

  function HeaderHash(h: Hash, b: BridgeHeader): Digest {
    h(HeaderBytes(b))
  }

  // ---- Reading the bytes back ----

  function ReadU32(s: Bytes, at: nat): u32
    requires at + 4 <= |s|
  {
    EncodeDecodeLittleEndian(s[at..at + 4]);
    Pow256Values();
    FromLittleEndian(s[at..at + 4])
  }

  function ReadU64(s: Bytes, at: nat): u64
    requires at + 8 <= |s|
  {
    EncodeDecodeLittleEndian(s[at..at + 8]);
    Pow256Values();
    FromLittleEndian(s[at..at + 8])
  }

  /** The header whose fields stand at their places in 320 bytes. */
  function ParseHeader(s: Bytes): BridgeHeader
    requires |s| == 320
  {
    BridgeHeader(
      TipState(s[0..32], s[32..64], ReadU32(s, 64), ReadU32(s, 68)),
      FinalizedState(
        s[72..104], s[104..136], s[136..168], s[168..200], s[200..232], s[232..264], ReadU32(s, 264), ReadU32(s, 268)),
      s[272..304], ReadU32(s, 304), ReadU32(s, 308), ReadU64(s, 312))
  }

  lemma TipFields(t: TipState)
    ensures var s := TipBytes(t);
            && s[0..32] == t.blockHash && s[32..64] == t.blockRoot
            && s[64..68] == LE32(t.time) && s[68..72] == LE32(t.height)
  {
  }

  lemma FinalizedFields(f: FinalizedState)
    ensures var s := FinalizedBytes(f);
            && s[0..32] == f.blockHash && s[32..64] == f.blockRoot && s[64..96] == f.mintsHash
            && s[96..128] == f.txoHash && s[128..160] == f.claimedTxoRoot && s[160..192] == f.depositsRoot
            && s[192..196] == LE32(f.nextIndex) && s[196..200] == LE32(f.height)
  {
  }

  /** Parsing the canonical bytes returns the header, so every field stands at its place. */
  lemma ParseHeaderBytes(b: BridgeHeader)
    ensures ParseHeader(HeaderBytes(b)) == b
  {
    var s := HeaderBytes(b);
    TipFields(b.tip);
    FinalizedFields(b.finalized);
    assert s[0..72] == TipBytes(b.tip) && s[72..272] == FinalizedBytes(b.finalized);
    TipPart(s, b.tip);
    FinalizedPart(s, b.finalized);
    assert s[272..304] == b.stateHash && s[304..308] == LE32(b.lastRollback);
    assert s[308..312] == LE32(b.pausedUntil) && s[312..320] == LE64(b.chainFees);
    LE32RoundTrip(b.lastRollback);
    LE32RoundTrip(b.pausedUntil);
    LE64RoundTrip(b.chainFees);
  }

  lemma TipPart(s: Bytes, t: TipState)
    requires |s| == 320 && s[0..72] == TipBytes(t)
    ensures TipState(s[0..32], s[32..64], ReadU32(s, 64), ReadU32(s, 68)) == t
  {
    TipFields(t);
    SliceOfSlice(s, 0, 72, 0, 32);
    SliceOfSlice(s, 0, 72, 32, 64);
    SliceOfSlice(s, 0, 72, 64, 68);
    SliceOfSlice(s, 0, 72, 68, 72);
    LE32RoundTrip(t.time);
    LE32RoundTrip(t.height);
  }

  lemma FinalizedPart(s: Bytes, f: FinalizedState)
    requires |s| == 320 && s[72..272] == FinalizedBytes(f)
    ensures FinalizedState(s[72..104], s[104..136], s[136..168], s[168..200], s[200..232], s[232..264],
                ReadU32(s, 264), ReadU32(s, 268)) == f
  {
    FinalizedFields(f);
    SliceOfSlice(s, 72, 272, 0, 32);
    SliceOfSlice(s, 72, 272, 32, 64);
    SliceOfSlice(s, 72, 272, 64, 96);
    SliceOfSlice(s, 72, 272, 96, 128);
    SliceOfSlice(s, 72, 272, 128, 160);
    SliceOfSlice(s, 72, 272, 160, 192);
    SliceOfSlice(s, 72, 272, 192, 196);
    SliceOfSlice(s, 72, 272, 196, 200);
    LE32RoundTrip(f.nextIndex);
    LE32RoundTrip(f.height);
  }

  lemma LE32Pair(a: u32, b: u32, c: u32, d: u32)
    requires LE32(a) + LE32(b) == LE32(c) + LE32(d)
    ensures a == c && b == d
  {
    SplitUniquely(LE32(a), LE32(b), LE32(c), LE32(d));
    LE32RoundTrip(a);
    LE32RoundTrip(b);
    LE32RoundTrip(c);
    LE32RoundTrip(d);
  }

  lemma TipBytesInjective(a: TipState, b: TipState)
    requires TipBytes(a) == TipBytes(b)
    ensures a == b
  {
    var a2, b2 := LE32(a.time) + LE32(a.height), LE32(b.time) + LE32(b.height);
    SplitUniquely(a.blockHash, a.blockRoot + a2, b.blockHash, b.blockRoot + b2);
    SplitUniquely(a.blockRoot, a2, b.blockRoot, b2);
    LE32Pair(a.time, a.height, b.time, b.height);
  }

  lemma FinalizedBytesInjective(a: FinalizedState, b: FinalizedState)
    requires FinalizedBytes(a) == FinalizedBytes(b)
    ensures a == b
  {
    var a6, b6 := LE32(a.nextIndex) + LE32(a.height), LE32(b.nextIndex) + LE32(b.height);
    var a5, b5 := a.depositsRoot + a6, b.depositsRoot + b6;
    var a4, b4 := a.claimedTxoRoot + a5, b.claimedTxoRoot + b5;
    var a3, b3 := a.txoHash + a4, b.txoHash + b4;
    var a2, b2 := a.mintsHash + a3, b.mintsHash + b3;
    var a1, b1 := a.blockRoot + a2, b.blockRoot + b2;
    SplitUniquely(a.blockHash, a1, b.blockHash, b1);
    SplitUniquely(a.blockRoot, a2, b.blockRoot, b2);
    SplitUniquely(a.mintsHash, a3, b.mintsHash, b3);
    SplitUniquely(a.txoHash, a4, b.txoHash, b4);
    SplitUniquely(a.claimedTxoRoot, a5, b.claimedTxoRoot, b5);
    SplitUniquely(a.depositsRoot, a6, b.depositsRoot, b6);
    LE32Pair(a.nextIndex, a.height, b.nextIndex, b.height);
  }

  lemma HeaderBytesInjective(a: BridgeHeader, b: BridgeHeader)
    requires HeaderBytes(a) == HeaderBytes(b)
    ensures a == b
  {
    var a5, b5 := LE64(a.chainFees), LE64(b.chainFees);
    var a4, b4 := LE32(a.pausedUntil) + a5, LE32(b.pausedUntil) + b5;
    var a3, b3 := LE32(a.lastRollback) + a4, LE32(b.lastRollback) + b4;
    var a2, b2 := a.stateHash + a3, b.stateHash + b3;
    var a1, b1 := FinalizedBytes(a.finalized) + a2, FinalizedBytes(b.finalized) + b2;
    SplitUniquely(TipBytes(a.tip), a1, TipBytes(b.tip), b1);
    SplitUniquely(FinalizedBytes(a.finalized), a2, FinalizedBytes(b.finalized), b2);
    SplitUniquely(a.stateHash, a3, b.stateHash, b3);
    SplitUniquely(LE32(a.lastRollback), a4, LE32(b.lastRollback), b4);
    SplitUniquely(LE32(a.pausedUntil), a5, LE32(b.pausedUntil), b5);
    TipBytesInjective(a.tip, b.tip);
    FinalizedBytesInjective(a.finalized, b.finalized);
    LE32RoundTrip(a.lastRollback);
    LE32RoundTrip(b.lastRollback);
    LE32RoundTrip(a.pausedUntil);
    LE32RoundTrip(b.pausedUntil);
    LE64RoundTrip(a.chainFees);
    LE64RoundTrip(b.chainFees);
  }
}

/** The digests a zero-knowledge proof is verified against, and what they pin down. */
module PublicInputs {
  import opened Bytes
  import opened Hashing
  import opened Headers
  import opened Backlog

  // ---- The four formulas ----

  function BlockTransitionInputs(h: Hash, prev: Digest, next: Digest, config: Digest, custodian: Digest): Digest {
    h(TwoToOne(h, prev, next) + (config + custodian))
  }

  /** Chained digest of a list of blocks, starting from the all-zero string. */
  function BacklogHash(h: Hash, items: seq<Info>): Digest {
    if |items| == 0 then ZERO32
    else
      var last := items[|items| - 1];
      TwoToOne(h, BacklogHash(h, items[..|items| - 1]), TwoToOne(h, last.mintsHash, last.txoHash))
  }

  method ComputeBacklogHash(h: Hash, items: seq<Info>) returns (current: Digest)
    ensures current == BacklogHash(h, items)
  {
    current := ZERO32;
    for i := 0 to |items|
      invariant current == BacklogHash(h, items[..i])
    {
      var combined := TwoToOne(h, items[i].mintsHash, items[i].txoHash);
      current := TwoToOne(h, current, combined);
      assert items[..i + 1][..i] == items[..i];
    }
    assert items[..|items|] == items;
  }

  function ReorgInputs(h: Hash, prev: Digest, next: Digest, items: seq<Info>, config: Digest,
          custodian: Digest): Digest {
    h(TwoToOne(h, TwoToOne(h, prev, next), BacklogHash(h, items)) + (config + custodian))
  }

  datatype ManualDeposit = ManualDeposit(
    blockRoot: Digest,
    claimRoot: Digest,
    oldManualRoot: Digest,
    newManualRoot: Digest,
    txHash: Digest,
    recipient: Digest,
    custodian: Digest,
    txoIndex: u64,
    amount: u64)

  function DepositRecentInfo(h: Hash, d: ManualDeposit): Bytes {
    TwoToOne(h, d.blockRoot, d.claimRoot) + TwoToOne(h, d.oldManualRoot, d.newManualRoot)
  }

  function DepositTxInfo(d: ManualDeposit): Bytes {
    d.txHash + (d.recipient + (LE64(d.txoIndex) + LE64(d.amount)))
  }

  function ManualDepositInputs(h: Hash, d: ManualDeposit): Digest {
    h(h(DepositRecentInfo(h, d)) + (h(DepositTxInfo(d)) + d.custodian))
  }

  datatype WithdrawalInputs = WithdrawalInputs(
    snapshot: Digest,
    oldReturn: Digest,
    newReturn: Digest,
    oldSpentRoot: Digest,
    newSpentRoot: Digest,
    custodian: Digest,
    nextIndex: u64)

  function WithdrawalProofInputs(h: Hash, w: WithdrawalInputs): Digest {
    h(w.snapshot + (TwoToOne(h, w.oldReturn, w.newReturn)
        + (TwoToOne(h, w.oldSpentRoot, w.newSpentRoot) + (LE64(w.nextIndex) + w.custodian))))
  }

  // ---- Binding ----

  lemma EqualMessages(h: Hash, s: set<Bytes>, a: Bytes, b: Bytes)
    requires CollisionFree(h, s) && a in s && b in s && h(a) == h(b)
    ensures a == b
  {
  }

  /** All messages hashed for the chained digest of a list. */
  ghost function HashedForBacklog(h: Hash, items: seq<Info>): set<Bytes> {
    if |items| == 0 then {}
    else
      var last, init := items[|items| - 1], items[..|items| - 1];
      HashedForBacklog(h, init)
          + {last.mintsHash + last.txoHash, BacklogHash(h, init) + TwoToOne(h, last.mintsHash, last.txoHash)}
  }

  ghost predicate NoneZero(h: Hash, s: set<Bytes>) {
    forall m :: m in s ==> h(m) != ZERO32
  }

  /** The chained digest determines the whole list, whatever its length. */
  lemma {:induction false} BacklogHashBinding(h: Hash, a: seq<Info>, b: seq<Info>, s: set<Bytes>)
    requires HashedForBacklog(h, a) <= s && HashedForBacklog(h, b) <= s
    requires CollisionFree(h, s) && NoneZero(h, s)
    requires BacklogHash(h, a) == BacklogHash(h, b)
    ensures a == b
    decreases |a|
  {
    if |a| > 0 && |b| > 0 {
      var x, y := a[|a| - 1], b[|b| - 1];
      var a', b' := a[..|a| - 1], b[..|b| - 1];
      var cx, cy := TwoToOne(h, x.mintsHash, x.txoHash), TwoToOne(h, y.mintsHash, y.txoHash);
      EqualMessages(h, s, BacklogHash(h, a') + cx, BacklogHash(h, b') + cy);
      SplitUniquely(BacklogHash(h, a'), cx, BacklogHash(h, b'), cy);
      EqualMessages(h, s, x.mintsHash + x.txoHash, y.mintsHash + y.txoHash);
      SplitUniquely(x.mintsHash, x.txoHash, y.mintsHash, y.txoHash);
      BacklogHashBinding(h, a', b', s);
      assert a == a' + [x] && b == b' + [y];
    }
  }

  /** What a reorganization proof is about. */
  datatype ReorgStatement = ReorgStatement(prev: BridgeHeader, next: BridgeHeader, items: seq<Info>, config: Digest,
      custodian: Digest)

  function StatementInputs(h: Hash, r: ReorgStatement): Digest {
    ReorgInputs(h, HeaderHash(h, r.prev), HeaderHash(h, r.next), r.items, r.config, r.custodian)
  }

  function TransitionAndBacklog(h: Hash, prev: Digest, next: Digest, items: seq<Info>): Bytes {
    TwoToOne(h, prev, next) + BacklogHash(h, items)
  }

  ghost function HashedForReorg(h: Hash, r: ReorgStatement): set<Bytes> {
    var prev, next := HeaderHash(h, r.prev), HeaderHash(h, r.next);
    HashedForBacklog(h, r.items) + {
      HeaderBytes(r.prev),
      HeaderBytes(r.next),
      prev + next,
      TransitionAndBacklog(h, prev, next, r.items),
      h(TransitionAndBacklog(h, prev, next, r.items)) + (r.config + r.custodian)}
  }

  lemma EqualTransitions(h: Hash, s: set<Bytes>, a: BridgeHeader, a': BridgeHeader, b: BridgeHeader, b': BridgeHeader)
    requires CollisionFree(h, s)
    requires HeaderBytes(a) in s && HeaderBytes(a') in s && HeaderHash(h, a) + HeaderHash(h, a') in s
    requires HeaderBytes(b) in s && HeaderBytes(b') in s && HeaderHash(h, b) + HeaderHash(h, b') in s
    requires TwoToOne(h, HeaderHash(h, a), HeaderHash(h, a')) == TwoToOne(h, HeaderHash(h, b), HeaderHash(h, b'))
    ensures a == b && a' == b'
  {
    SplitUniquely(HeaderHash(h, a), HeaderHash(h, a'), HeaderHash(h, b), HeaderHash(h, b'));
    HeaderBytesInjective(a, b);
    HeaderBytesInjective(a', b');
  }

  /**
   Equal public inputs of two reorganization proofs force the same old and new header, the
   same backlog of any length, configuration and custodian, unless messages hashed for them
   collide or hash to zero.
   */
  lemma ReorgInputsBinding(h: Hash, a: ReorgStatement, b: ReorgStatement)
    requires StatementInputs(h, a) == StatementInputs(h, b)
    requires CollisionFree(h, HashedForReorg(h, a) + HashedForReorg(h, b))
    requires NoneZero(h, HashedForReorg(h, a) + HashedForReorg(h, b))
    ensures a == b
  {
    var s := HashedForReorg(h, a) + HashedForReorg(h, b);
    var am := TransitionAndBacklog(h, HeaderHash(h, a.prev), HeaderHash(h, a.next), a.items);
    var bm := TransitionAndBacklog(h, HeaderHash(h, b.prev), HeaderHash(h, b.next), b.items);
    EqualMessages(h, s, h(am) + (a.config + a.custodian), h(bm) + (b.config + b.custodian));
    SplitUniquely(h(am), a.config + a.custodian, h(bm), b.config + b.custodian);
    SplitUniquely(a.config, a.custodian, b.config, b.custodian);
    EqualMessages(h, s, am, bm);
    SplitUniquely(TwoToOne(h, HeaderHash(h, a.prev), HeaderHash(h, a.next)), BacklogHash(h, a.items),
                  TwoToOne(h, HeaderHash(h, b.prev), HeaderHash(h, b.next)), BacklogHash(h, b.items));
    EqualTransitions(h, s, a.prev, a.next, b.prev, b.next);
    BacklogHashBinding(h, a.items, b.items, s);
  }

  ghost function HashedForDeposit(h: Hash, d: ManualDeposit): set<Bytes> {
    { d.blockRoot + d.claimRoot,
      d.oldManualRoot + d.newManualRoot,
      DepositRecentInfo(h, d),
      DepositTxInfo(d),
      h(DepositRecentInfo(h, d)) + (h(DepositTxInfo(d)) + d.custodian) }
  }

  lemma DepositTxInfoInjective(a: ManualDeposit, b: ManualDeposit)
    requires DepositTxInfo(a) == DepositTxInfo(b)
    ensures a.txHash == b.txHash && a.recipient == b.recipient && a.txoIndex == b.txoIndex && a.amount == b.amount
  {
    var a2, b2 := LE64(a.txoIndex) + LE64(a.amount), LE64(b.txoIndex) + LE64(b.amount);
    SplitUniquely(a.txHash, a.recipient + a2, b.txHash, b.recipient + b2);
    SplitUniquely(a.recipient, a2, b.recipient, b2);
    SplitUniquely(LE64(a.txoIndex), LE64(a.amount), LE64(b.txoIndex), LE64(b.amount));
    LE64RoundTrip(a.txoIndex);
    LE64RoundTrip(b.txoIndex);
    LE64RoundTrip(a.amount);
    LE64RoundTrip(b.amount);
  }

  /** Equal public inputs of two manual deposits force all nine arguments equal, or a collision. */
  lemma ManualDepositBinding(h: Hash, a: ManualDeposit, b: ManualDeposit)
    requires ManualDepositInputs(h, a) == ManualDepositInputs(h, b)
    requires CollisionFree(h, HashedForDeposit(h, a) + HashedForDeposit(h, b))
    ensures a == b
  {
    var s := HashedForDeposit(h, a) + HashedForDeposit(h, b);
    var ar, br, ax, bx := h(DepositRecentInfo(h, a)), h(DepositRecentInfo(h, b)), h(DepositTxInfo(a)),
        h(DepositTxInfo(b));
    EqualMessages(h, s, ar + (ax + a.custodian), br + (bx + b.custodian));
    SplitUniquely(ar, ax + a.custodian, br, bx + b.custodian);
    SplitUniquely(ax, a.custodian, bx, b.custodian);
    EqualMessages(h, s, DepositRecentInfo(h, a), DepositRecentInfo(h, b));
    EqualMessages(h, s, DepositTxInfo(a), DepositTxInfo(b));
    DepositTxInfoInjective(a, b);
    SplitUniquely(TwoToOne(h, a.blockRoot, a.claimRoot), TwoToOne(h, a.oldManualRoot, a.newManualRoot),
                  TwoToOne(h, b.blockRoot, b.claimRoot), TwoToOne(h, b.oldManualRoot, b.newManualRoot));
    EqualMessages(h, s, a.blockRoot + a.claimRoot, b.blockRoot + b.claimRoot);
    EqualMessages(h, s, a.oldManualRoot + a.newManualRoot, b.oldManualRoot + b.newManualRoot);
    SplitUniquely(a.blockRoot, a.claimRoot, b.blockRoot, b.claimRoot);
    SplitUniquely(a.oldManualRoot, a.newManualRoot, b.oldManualRoot, b.newManualRoot);
  }

  ghost function HashedForWithdrawal(h: Hash, w: WithdrawalInputs): set<Bytes> {
    { w.oldReturn + w.newReturn,
      w.oldSpentRoot + w.newSpentRoot,
      w.snapshot + (TwoToOne(h, w.oldReturn, w.newReturn)
          + (TwoToOne(h, w.oldSpentRoot, w.newSpentRoot) + (LE64(w.nextIndex) + w.custodian))) }
  }

  /** Equal public inputs of two withdrawal proofs force all seven arguments equal, or a collision. */
  lemma WithdrawalBinding(h: Hash, a: WithdrawalInputs, b: WithdrawalInputs)
    requires WithdrawalProofInputs(h, a) == WithdrawalProofInputs(h, b)
    requires CollisionFree(h, HashedForWithdrawal(h, a) + HashedForWithdrawal(h, b))
    ensures a == b
  {
    var s := HashedForWithdrawal(h, a) + HashedForWithdrawal(h, b);
    var ar, br := TwoToOne(h, a.oldReturn, a.newReturn), TwoToOne(h, b.oldReturn, b.newReturn);
    var ax, bx := TwoToOne(h, a.oldSpentRoot, a.newSpentRoot), TwoToOne(h, b.oldSpentRoot, b.newSpentRoot);
    var ai, bi := LE64(a.nextIndex), LE64(b.nextIndex);
    EqualMessages(h, s, a.snapshot + (ar + (ax + (ai + a.custodian))), b.snapshot + (br + (bx + (bi + b.custodian))));
    SplitUniquely(a.snapshot, ar + (ax + (ai + a.custodian)), b.snapshot, br + (bx + (bi + b.custodian)));
    SplitUniquely(ar, ax + (ai + a.custodian), br, bx + (bi + b.custodian));
    SplitUniquely(ax, ai + a.custodian, bx, bi + b.custodian);
    SplitUniquely(ai, a.custodian, bi, b.custodian);
    LE64RoundTrip(a.nextIndex);
    LE64RoundTrip(b.nextIndex);
    EqualMessages(h, s, a.oldReturn + a.newReturn, b.oldReturn + b.newReturn);
    EqualMessages(h, s, a.oldSpentRoot + a.newSpentRoot, b.oldSpentRoot + b.newSpentRoot);
    SplitUniquely(a.oldReturn, a.newReturn, b.oldReturn, b.newReturn);
    SplitUniquely(a.oldSpentRoot, a.newSpentRoot, b.oldSpentRoot, b.newSpentRoot);
  }

  // ---- What is hashed where ----

  /**
   The public inputs of a manual deposit are the hash of 96 bytes: the digest of the four roots,
   the digest of an 80-byte message with the transaction's arguments at their places, and the custodian.
   */
  lemma DepositPlaces(h: Hash, d: ManualDeposit, roots: Bytes, tx: Bytes, s: Bytes)
    requires |tx| == 80 && tx[0..32] == d.txHash && tx[32..64] == d.recipient
    requires ReadU64(tx, 64) == d.txoIndex && ReadU64(tx, 72) == d.amount
    requires |roots| == 64 && roots[0..32] == h(d.blockRoot + d.claimRoot)
    requires roots[32..64] == h(d.oldManualRoot + d.newManualRoot)
    requires |s| == 96 && s[0..32] == h(roots) && s[32..64] == h(tx) && s[64..96] == d.custodian
    ensures ManualDepositInputs(h, d) == h(s)
  {
    EncodeDecodeLittleEndian(tx[64..72]);
    EncodeDecodeLittleEndian(tx[72..80]);
    assert tx == tx[0..32] + (tx[32..64] + (tx[64..72] + tx[72..80]));
    assert roots == roots[0..32] + roots[32..64];
    assert s == s[0..32] + (s[32..64] + s[64..96]);
  }

  /** The public inputs of a withdrawal proof are the hash of 136 bytes with its arguments at their places. */
  lemma WithdrawalPlaces(h: Hash, w: WithdrawalInputs, s: Bytes)
    requires |s| == 136 && s[0..32] == w.snapshot && s[32..64] == h(w.oldReturn + w.newReturn)
    requires s[64..96] == h(w.oldSpentRoot + w.newSpentRoot)
    requires ReadU64(s, 96) == w.nextIndex && s[104..136] == w.custodian
    ensures WithdrawalProofInputs(h, w) == h(s)
  {
    EncodeDecodeLittleEndian(s[96..104]);
    assert s == s[0..32] + (s[32..64] + (s[64..96] + (s[96..104] + s[104..136])));
  }
}
