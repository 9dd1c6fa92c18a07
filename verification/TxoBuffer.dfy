/**
 The TXO buffer program: a 48-byte header and the little-endian output indices of one
 Dogecoin block, written in chunks under a batch number and then finalized.
 */
module TxoBuffer {
  import opened Bytes

  datatype Error =
    | AccountAlreadyInitialized
    | InvalidArgument
    | InvalidInstructionData
    | InvalidSeeds
    | IllegalOwner
    | AccountDataTooSmall
    | InvalidRealloc
    | IncorrectProgramId

  datatype Header = Header(writer: Key, initStatus: u16, finalized: u16, height: u32, batch: u32, size: u32)

  datatype Account = Missing | Buffer(header: Header, body: Bytes)

  datatype Instruction =
    | Initialize(writer: Key)
    | SetDataLength(signer: Key, length: u32, resize: bool, batch: u32, height: u32, finalize: bool, exposed: Bytes)
    | WriteData(signer: Key, batch: u32, offset: u32, data: Bytes)

  function NextBatch(batch: u32): u32 {
    (batch + 1) % 0x1_0000_0000
  }

  /** The batch rule: stay in an open batch, or move on to the next one and reopen. */
  function EnterBatch(hd: Header, batch: u32): Result<Header, Error> {
    if batch == hd.batch then
      if hd.finalized == 1 then Err(AccountAlreadyInitialized) else Ok(hd)
    else if batch == NextBatch(hd.batch) then Ok(hd.(batch := batch, finalized := 0))
    else Err(InvalidArgument)
  }

  /** The largest body of an account of at most 10 MiB. */
  const MAX_BODY: int := 10_485_712

  /** The runtime lets a body of this length take on the new one. */
  predicate MayResize(len: nat, length: nat) {
    length <= len + MAX_INCREASE && length <= MAX_BODY
  }

  function SetDataLengthStep(a: Account, i: Instruction): Result<Account, Error>
    requires a.Buffer? && i.SetDataLength?
  {
    if a.header.writer != i.signer then Err(IllegalOwner)
    else
      var isNewBatch := i.batch == NextBatch(a.header.batch);
      var hd :- EnterBatch(a.header, i.batch);
      if !isNewBatch && hd.height != 0 && hd.height != i.height then Err(InvalidInstructionData)
      else if i.resize && !MayResize(|a.body|, i.length) then Err(InvalidRealloc)
      else if !i.resize && |a.body| < i.length then Err(AccountDataTooSmall)
      else
        var body := if i.resize then Reallocate(a.body, i.length, i.exposed) else a.body;
        Ok(Buffer(hd.(height := i.height, finalized := if i.finalize then 1 else hd.finalized, size := i.length), body))
  }

  function WriteDataStep(a: Account, i: Instruction): Result<Account, Error>
    requires a.Buffer? && i.WriteData?
  {
    if a.header.writer != i.signer then Err(IllegalOwner)
    else
      var hd :- EnterBatch(a.header, i.batch);
      var end := i.offset + |i.data|;
      if end > |a.body| then Err(AccountDataTooSmall)
      else Ok(Buffer(hd.(size := if end > hd.size then end % 0x1_0000_0000 else hd.size),
          Overwrite(a.body, i.offset, i.data)))
  }

  /** One instruction on the account derived from the key `owner`. */
  function Step(owner: Key, a: Account, i: Instruction): Result<Account, Error> {
    match i
    case Initialize(writer) =>
      if writer != owner then Err(InvalidSeeds)
      else
        var b := if a.Missing? then Buffer(Header(ZERO32, 0, 0, 0, 0, 0), []) else a;
        Ok(b.(header := b.header.(writer := writer, initStatus := 1)))
    case SetDataLength(_, _, _, _, _, _, _) =>
      if a.Missing? then Err(IncorrectProgramId) else SetDataLengthStep(a, i)
    case WriteData(_, _, _, _) =>
      if a.Missing? then Err(IncorrectProgramId) else WriteDataStep(a, i)
  }

  function Transact(owner: Key, a: Account, i: Instruction): Account {
    match Step(owner, a, i)
    case Ok(b) => b
    case Err(_) => a
  }

  function Run(owner: Key, a: Account, ix: seq<Instruction>): Account
    decreases |ix|
  {
    if |ix| == 0 then a else Run(owner, Transact(owner, a, ix[0]), ix[1..])
  }

  lemma {:induction false} RunConcat(owner: Key, a: Account, xs: seq<Instruction>, ys: seq<Instruction>)
    ensures Run(owner, a, xs + ys) == Run(owner, Run(owner, a, xs), ys)
    decreases |xs|
  {
    if |xs| == 0 {
      assert xs + ys == ys;
    } else {
      assert (xs + ys)[1..] == xs[1..] + ys;
      RunConcat(owner, Transact(owner, a, xs[0]), xs[1..], ys);
    }
  }

  // ---- A finalized batch does not change ----

  /** What holds of every account that instructions made: it is its owner's and not too long. */
  predicate Owned(owner: Key, a: Account) {
    a.Buffer? ==>
      a.header.writer == owner && a.header.initStatus == 1 && a.header.finalized <= 1 && |a.body| <= MAX_BODY
  }

  lemma TransactKeepsOwned(owner: Key, a: Account, i: Instruction)
    requires Owned(owner, a)
    ensures Owned(owner, Transact(owner, a, i))
  {
  }

  predicate NamesBatch(i: Instruction, batch: u32) {
    !i.Initialize? && i.batch == batch
  }

  /** An instruction changes a finalized account exactly if it is accepted and names the next batch. */
  lemma FinalizedStep(owner: Key, a: Account, i: Instruction)
    requires Owned(owner, a) && a.Buffer? && a.header.finalized == 1
    ensures Transact(owner, a, i) != a <==> NamesBatch(i, NextBatch(a.header.batch)) && Step(owner, a, i).Ok?
  {
    assert a.header.batch != NextBatch(a.header.batch);
  }

  /** No sequence of instructions changes a finalized account before one names the next batch. */
  lemma {:induction false} FinalizedIsFrozen(owner: Key, a: Account, ix: seq<Instruction>)
    requires Owned(owner, a) && a.Buffer? && a.header.finalized == 1
    requires forall i :: i in ix ==> !NamesBatch(i, NextBatch(a.header.batch))
    ensures Run(owner, a, ix) == a
    decreases |ix|
  {
    if |ix| > 0 {
      assert ix[0] in ix;
      FinalizedStep(owner, a, ix[0]);
      FinalizedIsFrozen(owner, a, ix[1..]);
    }
  }

  // ---- Who may change an account, and its height ----

  /** Every instruction that changes an account that exists is its owner's. */
  lemma ChangesAreAuthorized(owner: Key, a: Account, i: Instruction)
    requires Owned(owner, a) && a.Buffer? && Transact(owner, a, i) != a
    ensures !i.Initialize? && i.signer == owner
  {
  }

  /** The batch is the open one, not yet finalized, or the one after it. */
  predicate MayUseBatch(hd: Header, batch: u32) {
    (batch == hd.batch && hd.finalized == 0) || batch == (hd.batch + 1) % 0x1_0000_0000
  }

  /**
   A write is accepted exactly if the owner sends it, in a usable batch, and it fits the body; it
   changes just its bytes.
   */
  lemma WriteAcceptedIff(owner: Key, a: Account, i: Instruction)
    requires Owned(owner, a) && i.WriteData?
    ensures Step(owner, a, i).Ok? <==>
              && a.Buffer? && i.signer == owner && MayUseBatch(a.header, i.batch) && i.offset + |i.data| <= |a.body|
    ensures Step(owner, a, i).Ok? ==>
              var b, end := Step(owner, a, i).value, i.offset + |i.data|;
              && b.Buffer? && b.body == a.body[..i.offset] + i.data + a.body[end..]
              && b.header == Header(owner, 1, 0, a.header.height, i.batch,
                  if end > a.header.size then end else a.header.size)
  {
    if a.Buffer? && i.offset + |i.data| <= |a.body| {
      assert Overwrite(a.body, i.offset, i.data) == a.body[..i.offset] + i.data + a.body[i.offset + |i.data|..];
    }
  }

  /**
   Setting the length is accepted exactly if the owner does it, in a usable batch, for the height
   of an open batch that has one, and the body has the length or may take it on.
   */
  lemma SetLengthAcceptedIff(owner: Key, a: Account, i: Instruction)
    requires Owned(owner, a) && i.SetDataLength?
    ensures Step(owner, a, i).Ok? <==>
              && a.Buffer? && i.signer == owner && MayUseBatch(a.header, i.batch)
              && (i.batch == a.header.batch ==> a.header.height == 0 || a.header.height == i.height)
              && if i.resize then i.length <= |a.body| + 10240 && i.length <= 10_485_712 else i.length <= |a.body|
    ensures Step(owner, a, i).Ok? ==>
              var b := Step(owner, a, i).value;
              && b.Buffer? && b.header == Header(owner, 1, if i.finalize then 1 else 0, i.height, i.batch, i.length)
              && if i.resize then |b.body| == i.length && (b.body <= a.body || a.body <= b.body) else b.body == a.body
  {
  }

  /** Within a batch a height once set does not change. */
  lemma {:induction false} HeightStaysInBatch(owner: Key, a: Account, ix: seq<Instruction>)
    requires a.Buffer? && a.header.height != 0
    requires forall i :: i in ix ==> !NamesBatch(i, NextBatch(a.header.batch))
    ensures Run(owner, a, ix).Buffer?
    ensures Run(owner, a, ix).header.batch == a.header.batch && Run(owner, a, ix).header.height == a.header.height
    decreases |ix|
  {
    if |ix| > 0 {
      assert ix[0] in ix;
      HeightStaysInBatch(owner, Transact(owner, a, ix[0]), ix[1..]);
    }
  }

  // ---- Chunk writes in any order ----

  /** A write of the open batch that carries bytes of `target` at their place. */
  ghost predicate IsPieceOf(i: Instruction, writer: Key, batch: u32, target: Bytes) {
    && i.WriteData? && i.signer == writer && i.batch == batch
    && i.offset + |i.data| <= |target|
    && i.data == target[i.offset..i.offset + |i.data|]
  }

  predicate Covers(i: Instruction, k: nat) {
    i.WriteData? && i.offset <= k < i.offset + |i.data|
  }

  ghost predicate Covered(ws: seq<Instruction>, k: nat) {
    exists i :: i in ws && Covers(i, k)
  }

  ghost predicate Pieces(ws: seq<Instruction>, writer: Key, batch: u32, target: Bytes) {
    && (forall i :: i in ws ==> IsPieceOf(i, writer, batch, target))
    && (forall k: nat :: k < |target| ==> Covered(ws, k))
  }

  lemma {:induction false} WritesLand(owner: Key, a: Account, ws: seq<Instruction>, target: Bytes)
    requires a.Buffer? && a.header.finalized == 0 && |a.body| == a.header.size == |target|
    requires forall i :: i in ws ==> IsPieceOf(i, a.header.writer, a.header.batch, target)
    ensures var b := Run(owner, a, ws);
            && b.Buffer? && b.header == a.header && |b.body| == |target|
            && forall k: nat :: k < |target| && (a.body[k] == target[k] || Covered(ws, k)) ==> b.body[k] == target[k]
    decreases |ws|
  {
    if |ws| > 0 {
      var w, b := ws[0], Transact(owner, a, ws[0]);
      assert w in ws && IsPieceOf(w, a.header.writer, a.header.batch, target);
      assert b == Buffer(a.header, Overwrite(a.body, w.offset, w.data));
      WritesLand(owner, b, ws[1..], target);
      var c := Run(owner, b, ws[1..]);
      forall k: nat | k < |target| && (a.body[k] == target[k] || Covered(ws, k))
        ensures c.body[k] == target[k]
      {
        if Covers(w, k) || a.body[k] == target[k] {
          assert b.body[k] == target[k];
        } else {
          var i :| i in ws && Covers(i, k);
          assert i in ws[1..];
          assert Covered(ws[1..], k);
        }
      }
    }
  }

  /** An account ready to receive a list under `batch` at `height`. */
  predicate Accepts(a: Account, batch: u32, height: u32) {
    && a.Buffer?
    && (batch == NextBatch(a.header.batch) ||
        (batch == a.header.batch && a.header.finalized != 1 && (a.header.height == 0 || a.header.height == height)))
  }

  predicate IsOpen(i: Instruction, owner: Key, batch: u32, height: u32, length: nat) {
    i.SetDataLength? && i.signer == owner && i.length == length && i.resize && i.batch == batch && i.height == height
        && !i.finalize
  }

  predicate IsClose(i: Instruction, owner: Key, batch: u32, height: u32, length: nat) {
    i.SetDataLength? && i.signer == owner && i.length == length && !i.resize && i.batch == batch
        && i.height == height && i.finalize
  }

  /**
   Length settings of one batch that take a body from `len` to `target`, none growing it by more
   than one increase.
   */
  predicate Grows(os: seq<Instruction>, owner: Key, batch: u32, height: u32, len: nat, target: nat)
    decreases |os|
  {
    && |os| > 0 && os[0].SetDataLength?
    && IsOpen(os[0], owner, batch, height, os[0].length) && MayResize(len, os[0].length)
    && if |os| == 1 then os[0].length == target else Grows(os[1..], owner, batch, height, os[0].length, target)
  }

  /** An account that is open under the batch and the height with a body of this length. */
  predicate IsOpened(owner: Key, a: Account, batch: u32, height: u32, length: nat) {
    a.Buffer? && length <= MAX_BODY && a.header == Header(owner, 1, 0, height, batch, length) && |a.body| == length
  }

  lemma OpenStep(owner: Key, a: Account, batch: u32, height: u32, o: Instruction)
    requires Owned(owner, a) && Accepts(a, batch, height)
    requires o.SetDataLength? && IsOpen(o, owner, batch, height, o.length)
    ensures if MayResize(|a.body|, o.length) then IsOpened(owner, Transact(owner, a, o), batch, height, o.length)
            else Transact(owner, a, o) == a
  {
  }

  lemma {:induction false} GrowthOpens(owner: Key, a: Account, batch: u32, height: u32, os: seq<Instruction>,
          target: nat)
    requires Owned(owner, a) && Accepts(a, batch, height)
    requires Grows(os, owner, batch, height, |a.body|, target)
    ensures IsOpened(owner, Run(owner, a, os), batch, height, target)
    decreases |os|
  {
    OpenStep(owner, a, batch, height, os[0]);
    if |os| == 1 {
      assert os[1..] == [];
    } else {
      GrowthOpens(owner, Transact(owner, a, os[0]), batch, height, os[1..], target);
    }
  }

  /**
   Set the length in steps the runtime allows, write the pieces in any order and any number of
   times, finalize: the body is the target, finalized under the batch and the height.
   */
  lemma {:induction false} UploadInAnyOrder(owner: Key, a: Account, batch: u32, height: u32, target: Bytes,
                                            os: seq<Instruction>, ws: seq<Instruction>, close: Instruction)
    requires Owned(owner, a) && Accepts(a, batch, height)
    requires Grows(os, owner, batch, height, |a.body|, |target|)
    requires Pieces(ws, owner, batch, target) && IsClose(close, owner, batch, height, |target|)
    ensures |target| <= MAX_BODY
    ensures Run(owner, a, os + ws + [close]) == Buffer(Header(owner, 1, 1, height, batch, |target|), target)
  {
    GrowthOpens(owner, a, batch, height, os, |target|);
    var b := Run(owner, a, os);
    WritesLand(owner, b, ws, target);
    var c := Run(owner, b, ws);
    assert forall k: nat :: k < |target| ==> Covered(ws, k) && c.body[k] == target[k];
    assert c.body == target;
    RunConcat(owner, a, os, ws);
    RunConcat(owner, a, os + ws, [close]);
    assert [close][1..] == [];
    assert Run(owner, c, [close]) == Transact(owner, c, close);
  }

  /** Only a length setting that resizes changes the length of the body. */
  lemma {:induction false} LengthStays(owner: Key, a: Account, ix: seq<Instruction>)
    requires a.Buffer? && forall i :: i in ix ==> !(i.SetDataLength? && i.resize)
    ensures Run(owner, a, ix).Buffer? && |Run(owner, a, ix).body| == |a.body|
    decreases |ix|
  {
    if |ix| > 0 {
      assert ix[0] in ix;
      LengthStays(owner, Transact(owner, a, ix[0]), ix[1..]);
    }
  }

  /**
   With a single length setting the upload succeeds exactly if the runtime lets the body take on
   that length at once.
   */
  lemma SingleOpenIff(owner: Key, a: Account, batch: u32, height: u32, target: Bytes,
                      open: Instruction, ws: seq<Instruction>, close: Instruction)
    requires Owned(owner, a) && Accepts(a, batch, height) && |target| < 0x1_0000_0000
    requires open.SetDataLength? && IsOpen(open, owner, batch, height, |target|)
    requires Pieces(ws, owner, batch, target) && IsClose(close, owner, batch, height, |target|)
    ensures Run(owner, a, [open] + ws + [close]) == Buffer(Header(owner, 1, 1, height, batch, |target|), target)
       <==> MayResize(|a.body|, |target|)
  {
    if MayResize(|a.body|, |target|) {
      UploadInAnyOrder(owner, a, batch, height, target, [open], ws, close);
    } else {
      OpenStep(owner, a, batch, height, open);
      var rest := ws + [close];
      assert [open] + ws + [close] == [open] + rest && ([open] + rest)[1..] == rest;
      forall i | i in rest
        ensures !(i.SetDataLength? && i.resize)
      {
        assert i in ws ==> IsPieceOf(i, owner, batch, target);
      }
      LengthStays(owner, a, rest);
    }
  }

  /** A shortest such sequence of length settings. */
  function GrowthSteps(owner: Key, batch: u32, height: u32, len: nat, target: u32): (os: seq<Instruction>)
    requires target <= MAX_BODY
    ensures Grows(os, owner, batch, height, len, target)
    decreases target - len
  {
    if target <= len + MAX_INCREASE then [SetDataLength(owner, target, true, batch, height, false, [])]
    else
      var step := SetDataLength(owner, len + MAX_INCREASE, true, batch, height, false, []);
      [step] + GrowthSteps(owner, batch, height, len + MAX_INCREASE, target)
  }
}

/** Little-endian lists of output indices, their chunks and their reassembly. */
module TxoIndices {
  import opened Bytes
  import opened Hashing
  import opened TxoBuffer

  function IndexBytes(xs: seq<u32>): (s: Bytes)
    ensures |s| == 4 * |xs|
  {
    if |xs| == 0 then [] else LE32(xs[0]) + IndexBytes(xs[1..])
  }

  /** The commitment to an index list; the empty list gives the digest of the empty string. */
  function TxoHash(h: Hash, xs: seq<u32>): Digest {
    h(IndexBytes(xs))
  }

  function ReadU32(s: Bytes): u32
    requires |s| == 4
  {
    EncodeDecodeLittleEndian(s);
    Pow256Values();
    FromLittleEndian(s)
  }

  function ParseIndices(s: Bytes): seq<u32>
  {
    if |s| < 4 then [] else [ReadU32(s[..4])] + ParseIndices(s[4..])
  }

  lemma {:induction false} ParseIndexBytes(xs: seq<u32>)
    ensures ParseIndices(IndexBytes(xs)) == xs
  {
    if |xs| > 0 {
      LE32RoundTrip(xs[0]);
      assert IndexBytes(xs)[..4] == LE32(xs[0]) && IndexBytes(xs)[4..] == IndexBytes(xs[1..]);
      ParseIndexBytes(xs[1..]);
    }
  }

  lemma {:induction false} IndexBytesOfParse(s: Bytes)
    requires |s| % 4 == 0
    ensures IndexBytes(ParseIndices(s)) == s && 4 * |ParseIndices(s)| == |s|
  {
    if |s| > 0 {
      EncodeDecodeLittleEndian(s[..4]);
      IndexBytesOfParse(s[4..]);
      assert ParseIndices(s)[1..] == ParseIndices(s[4..]);
      assert s == s[..4] + s[4..];
    }
  }

  lemma {:induction false} ParseIndicesStep(s: Bytes, k: nat)
    requires 4 * k + 4 <= |s|
    ensures ParseIndices(s[..4 * k + 4]) == ParseIndices(s[..4 * k]) + [ReadU32(s[4 * k..4 * k + 4])]
  {
    if k == 0 {
      assert s[..4][4..] == [] && s[..4][..4] == s[0..4] == s[..4] && s[..0] == [];
      assert ParseIndices(s[..4]) == [ReadU32(s[..4])] + ParseIndices(s[..4][4..]);
    } else {
      ParseIndicesStep(s[4..], k - 1);
      assert s[..4 * k + 4][4..] == s[4..][..4 * (k - 1) + 4];
      assert s[..4 * k][4..] == s[4..][..4 * (k - 1)];
      assert s[..4 * k + 4][..4] == s[..4] == s[..4 * k][..4];
      assert s[4..][4 * (k - 1)..4 * (k - 1) + 4] == s[4 * k..4 * k + 4];
    }
  }

  lemma {:induction false} ParseIndicesTail(s: Bytes, k: nat)
    requires 4 * k <= |s| < 4 * k + 4
    ensures ParseIndices(s[..4 * k]) == ParseIndices(s)
  {
    if k > 0 {
      ParseIndicesTail(s[4..], k - 1);
      assert s[..4 * k][4..] == s[4..][..4 * (k - 1)];
      assert s[..4 * k][..4] == s[..4];
    }
  }

  // ---- Client chunks ----

  /** Chunk number c of the data, as a write of the batch. */
  function ChunkWrite(writer: Key, batch: u32, data: Bytes, c: nat): Instruction
    requires 900 * c < |data| < 0x1_0000_0000
  {
    WriteData(writer, batch, 900 * c, data[900 * c..Min(900 * c + 900, |data|)])
  }

  function ChunkCount(n: nat): nat {
    (n + 899) / 900
  }

  /** Any sequence with the same writes as the client's chunks, in whatever order. */
  ghost predicate IsChunking(ws: seq<Instruction>, writer: Key, batch: u32, data: Bytes)
    requires |data| < 0x1_0000_0000
  {
    && (forall i :: i in ws ==> exists c: nat :: 900 * c < |data| && i == ChunkWrite(writer, batch, data, c))
    && (forall c: nat :: 900 * c < |data| ==> ChunkWrite(writer, batch, data, c) in ws)
  }

  lemma ChunksArePieces(ws: seq<Instruction>, writer: Key, batch: u32, data: Bytes)
    requires |data| < 0x1_0000_0000 && IsChunking(ws, writer, batch, data)
    ensures Pieces(ws, writer, batch, data)
  {
    forall k: nat | k < |data|
      ensures Covered(ws, k)
    {
      var w := ChunkWrite(writer, batch, data, k / 900);
      assert w in ws && Covers(w, k);
    }
  }

  // ---- Reassembly ----

  predicate Reaches(writes: map<u32, Bytes>, o: u32, k: nat) {
    o in writes && o <= k < o + |writes[o]|
  }

  ghost predicate Reached(writes: map<u32, Bytes>, k: nat) {
    exists o :: Reaches(writes, o, k)
  }

  /** Chunks by offset that carry all of the data. */
  ghost predicate Holds(writes: map<u32, Bytes>, data: Bytes) {
    && (forall o :: o in writes ==> o + |writes[o]| <= |data| && writes[o] == data[o..o + |writes[o]|])
    && (forall k: nat :: k < |data| ==> Reached(writes, k))
  }

  /** All chunks but those still to be visited are in. */
  ghost predicate Copied(writes: map<u32, Bytes>, offsets: set<u32>, raw: Bytes, data: Bytes) {
    forall o: u32, k: nat :: Reaches(writes, o, k) && o !in offsets ==>
      k < |raw| && k < |data| && raw[k] == data[k]
  }

  lemma CopyOne(writes: map<u32, Bytes>, offsets: set<u32>, raw: Bytes, data: Bytes, o: u32)
    requires Holds(writes, data) && |raw| == |data| && o in writes && Copied(writes, offsets, raw, data)
    ensures Copied(writes, offsets - {o}, Overwrite(raw, o, writes[o]), data)
  {
  }

  /** Copies the chunks, visited in an arbitrary order; `None` is an aborted slice. */
  method AssembleBytes(writes: map<u32, Bytes>, expectedSize: u32, ghost data: Bytes) returns (r: Option<Bytes>)
    ensures |data| == expectedSize && Holds(writes, data) ==> r == Some(data)
  {
    var raw := Zeros(expectedSize);
    var offsets := writes.Keys;
    while offsets != {}
      invariant offsets <= writes.Keys
      invariant |raw| == expectedSize
      invariant |data| == expectedSize && Holds(writes, data) ==> Copied(writes, offsets, raw, data)
      decreases |offsets|
    {
      var o :| o in offsets;
      var start: nat := o;
      var end := Min(start + |writes[o]|, |raw|);
      if end < start {
        return None;
      }
      if |data| == expectedSize && Holds(writes, data) {
        CopyOne(writes, offsets, raw, data, o);
      }
      if end - start > 0 {
        raw := Overwrite(raw, start, writes[o][..end - start]);
      }
      offsets := offsets - {o};
    }
    if |data| == expectedSize && Holds(writes, data) {
      forall k: nat | k < |data|
        ensures raw[k] == data[k]
      {
        assert Reached(writes, k);
        var o :| Reaches(writes, o, k);
        assert o !in offsets;
      }
      assert raw == data;
    }
    return Some(raw);
  }

  method ParseRaw(raw: Bytes) returns (indices: seq<u32>)
    ensures indices == ParseIndices(raw)
  {
    indices := [];
    var k := 0;
    while 4 * k + 4 <= |raw|
      invariant 4 * k <= |raw|
      invariant indices == ParseIndices(raw[..4 * k])
    {
      ParseIndicesStep(raw, k);
      indices := indices + [ReadU32(raw[4 * k..4 * k + 4])];
      k := k + 1;
    }
    ParseIndicesTail(raw, k);
  }

  /** Reassembly returns the list its chunks were cut from, in whatever order it meets them. */
  method AssembleTxoIndices(writes: map<u32, Bytes>, expectedSize: u32, ghost xs: seq<u32>)
    returns (r: Option<seq<u32>>)
    ensures 4 * |xs| == expectedSize && Holds(writes, IndexBytes(xs)) ==> r == Some(xs)
  {
    if writes == map[] || expectedSize == 0 {
      assert 4 * |xs| == expectedSize && Holds(writes, IndexBytes(xs)) && |xs| > 0 ==> Reached(writes, 0);
      return Some([]);
    }
    var raw := AssembleBytes(writes, expectedSize, IndexBytes(xs));
    if raw.None? {
      return None;
    }
    var indices := ParseRaw(raw.value);
    ParseIndexBytes(xs);
    return Some(indices);
  }
}

/** The TXO buffer account as the program updates it in place. */
module TxoBufferAccount {
  import opened Bytes
  import opened TxoBuffer

  class OutputAccount {
    var created: bool
    var writer: Key
    var initStatus: u16
    var finalized: u16
    var height: u32
    var batch: u32
    var size: u32
    var body: Bytes

    function Contents(): Account
      reads this
    {
      if !created then Missing else Buffer(Header(writer, initStatus, finalized, height, batch, size), body)
    }

    constructor ()
      ensures Contents() == Missing
    {
      created, writer, initStatus, finalized, height, batch, size, body := false, ZERO32, 0, 0, 0, 0, 0, [];
    }

    /** Enter a batch: stay in an open one, or move on to the next and reopen. */
    method HandleBatchTransition(input: u32) returns (r: Result<(), Error>)
      requires created
      modifies this`batch, this`finalized
      ensures r.Ok? <==> EnterBatch(old(Contents()).header, input).Ok?
      ensures r.Ok? ==> Contents() == old(Contents()).(header := EnterBatch(old(Contents()).header, input).value)
      ensures r.Err? ==> r.error == EnterBatch(old(Contents()).header, input).error
    {
      if input == batch {
        if finalized == 1 {
          return Err(AccountAlreadyInitialized);
        }
      } else if input == (batch + 1) % 0x1_0000_0000 {
        batch := input;
        finalized := 0;
      } else {
        return Err(InvalidArgument);
      }
      return Ok(());
    }

    method Initialize(owner: Key, key: Key) returns (r: Result<(), Error>)
      modifies this
      ensures r.Ok? <==> Step(owner, old(Contents()), Instruction.Initialize(key)).Ok?
      ensures r.Ok? ==> Contents() == Step(owner, old(Contents()), Instruction.Initialize(key)).value
      ensures r.Err? ==> r.error == Step(owner, old(Contents()), Instruction.Initialize(key)).error
    {
      if key != owner {
        return Err(InvalidSeeds);
      }
      if !created {
        created, writer, initStatus, finalized, height, batch, size, body := true, ZERO32, 0, 0, 0, 0, 0, [];
      }
      writer := key;
      initStatus := 1;
      return Ok(());
    }

    method SetDataLength(i: Instruction) returns (r: Result<(), Error>)
      requires created && i.SetDataLength?
      modifies this
      ensures r.Ok? <==> SetDataLengthStep(old(Contents()), i).Ok?
      ensures r.Ok? ==> Contents() == SetDataLengthStep(old(Contents()), i).value
      ensures r.Err? ==> r.error == SetDataLengthStep(old(Contents()), i).error
    {
      if writer != i.signer {
        return Err(IllegalOwner);
      }
      var isNewBatch := i.batch == (batch + 1) % 0x1_0000_0000;
      r := HandleBatchTransition(i.batch);
      if r.Err? {
        return r;
      }
      if !isNewBatch && height != 0 && height != i.height {
        return Err(InvalidInstructionData);
      }
      height := i.height;
      if i.finalize {
        finalized := 1;
      }
      if i.resize {
        if i.length > |body| + MAX_INCREASE || i.length > MAX_BODY {
          return Err(InvalidRealloc);
        }
        body := Reallocate(body, i.length, i.exposed);
      } else if |body| < i.length {
        return Err(AccountDataTooSmall);
      }
      size := i.length;
      return Ok(());
    }

    method WriteData(i: Instruction) returns (r: Result<(), Error>)
      requires created && i.WriteData?
      modifies this
      ensures r.Ok? <==> WriteDataStep(old(Contents()), i).Ok?
      ensures r.Ok? ==> Contents() == WriteDataStep(old(Contents()), i).value
      ensures r.Err? ==> r.error == WriteDataStep(old(Contents()), i).error
    {
      if writer != i.signer {
        return Err(IllegalOwner);
      }
      r := HandleBatchTransition(i.batch);
      if r.Err? {
        return r;
      }
      var writeEnd := i.offset + |i.data|;
      if writeEnd > |body| {
        return Err(AccountDataTooSmall);
      }
      body := Overwrite(body, i.offset, i.data);
      if writeEnd > size {
        size := writeEnd % 0x1_0000_0000;
      }
      return Ok(());
    }

    /** A whole transaction: the dispatcher, then the runtime's roll-back of a failed one. */
    method Process(owner: Key, i: Instruction) returns (r: Result<(), Error>)
      modifies this
      ensures Contents() == Transact(owner, old(Contents()), i)
      ensures r.Ok? <==> Step(owner, old(Contents()), i).Ok?
      ensures r.Err? ==> r.error == Step(owner, old(Contents()), i).error
    {
      var created0, writer0, initStatus0, finalized0 := created, writer, initStatus, finalized;
      var height0, batch0, size0, body0 := height, batch, size, body;
      if !created && !i.Initialize? {
        return Err(IncorrectProgramId);
      }
      match i {
        case Initialize(key) => r := Initialize(owner, key);
        case SetDataLength(_, _, _, _, _, _, _) => r := SetDataLength(i);
        case WriteData(_, _, _, _) => r := WriteData(i);
      }
      if r.Err? {
        created, writer, initStatus, finalized := created0, writer0, initStatus0, finalized0;
        height, batch, size, body := height0, batch0, size0, body0;
      }
    }
  }
}
