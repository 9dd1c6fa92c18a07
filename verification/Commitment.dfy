/** Errors of the bridge program and its library. */
module BridgeErrors {
  datatype BridgeError =
    | NoPendingMintsToProcess
    | NoPendingMintsToAutoProcess
    | PendingMintsGroupIndexOutOfBounds
    | PendingMintsGroupAlreadyProcessed
    | RemainingPendingMintsInPreviousState
    | PendingFinalizedBlockMintsNotEmpty
    | PendingFinalizedBlockMintsInvalidGroupCount
    | PendingFinalizedBlockMintsInvalidAutoClaimMintsData
    | InvalidAutoClaimMintBufferDataAccountSize
    | InvalidMintBufferLockingPermission
    | InvalidMintBufferPendingMintGroupsCount
    | InvalidMintBufferPendingMintsCount
    | InvalidPendingMintsBufferHash
    | InvalidPendingMintsCountForTransition
    | ProgramStateNotReadyForBlockUpdate
    | InvalidBlockHeightForSingleBlockTransition
    | InvalidBlockHeightForReorgTransition
    | InvalidAutoClaimedDepositsNextIndex
    | TooManyNewAutoClaimedDeposits
    | InvalidBridgeInputZKP
    | InvalidAutoClaimTxoBufferDataAccountSize
    | InvalidAutoClaimTxoBufferPendingMintsCount
    | InvalidAutoClaimTxoBufferHash
    | InvalidExtraFinalizedBlocksLengthForReorg
    | InvalidAccountKey
    | InvalidMintBufferPDA
    | InvalidAccountInput
    | MissingRequiredSignature
    | IllegalOwner
    | AccountMismatch
    | CpiLockCallError
    | CpiUnlockCallError
    | CpiTokenMintToCallError
    | CpiTokenBurnCallError
    | AttemptedUnlockPendingMintBuffer
    | FailedUnlockPendingMintBuffer
    | CannotUnlockAfterAutoAdvance
    | AutoClaimedDepositTreeRootNotRecentEnough
    | BlockMerkleTreeRootNotRecentEnough
    | InsufficientBridgeFees
    | InvalidWithdrawalAmount
    | NoOperatorFeesToWithdraw
    | Panic
}

/** The two-level commitment to a mint list: the client's hash and the bridge's check of a buffer. */
module Commitment {
  import opened Bytes
  import opened Hashing
  import opened Mints
  import opened MintBuffer
  import opened BridgeErrors

  // ---- The client's side ----

  function MintsPreimage(h: Hash, ms: seq<PendingMint>): Bytes {
    LE16(|ms| % 0x1_0000) + GroupHashes(h, ms, GroupCount(|ms|))
  }

  /** The commitment to a mint list; the empty list gives the digest of two zero bytes. */
  function MintsHash(h: Hash, ms: seq<PendingMint>): Digest {
    h(MintsPreimage(h, ms))
  }

  const EMPTY_MINTS_PREIMAGE: Bytes := [0, 0]

  /** Client serialization of one group, record by record. */
  method SerializeGroup(mints: seq<PendingMint>, g: nat) returns (data: Bytes)
    requires g < GroupCount(|mints|)
    ensures data == MintListBytes(Group(mints, g))
  {
    var start, end := g * 24, Min(g * 24 + 24, |mints|);
    data := [];
    for j := start to end
      invariant data == MintListBytes(mints[start..j])
    {
      var done := mints[start..j];
      assert mints[start..j + 1] == done + [mints[j]];
      MintListBytesConcat(done, [mints[j]]);
      assert MintListBytes([mints[j]]) == MintBytes(mints[j]);
      data := data + MintBytes(mints[j]);
    }
  }

  method ComputeMintsHash(h: Hash, mints: seq<PendingMint>) returns (d: Digest)
    ensures d == MintsHash(h, mints)
  {
    if |mints| == 0 {
      assert MintsPreimage(h, mints) == EMPTY_MINTS_PREIMAGE;
      return h(EMPTY_MINTS_PREIMAGE);
    }
    var count: u16 := |mints| % 0x1_0000;
    var numGroups := (|mints| + 24 - 1) / 24;
    var preimage := LE16(count);
    for i := 0 to numGroups
      invariant preimage == LE16(count) + GroupHashes(h, mints, i)
    {
      var groupBytes := SerializeGroup(mints, i);
      preimage := preimage + h(groupBytes);
    }
    return h(preimage);
  }

  // ---- The bridge's side ----

  /** Number of groups and size of the last one. */
  function MintGroupInfo(total: u16): (u16, u16) {
    if total == 0 then (0, 0)
    else
      var rem := total % 24;
      if rem == 0 then (total / 24, 24) else (total / 24 + 1, rem)
  }

  lemma MintGroupInfoMeaning(total: u16)
    ensures MintGroupInfo(total).0 == GroupCount(total)
    ensures total > 0 ==> MintGroupInfo(total).1 == total - 24 * (GroupCount(total) - 1)
  {
  }

  /** The check a transition makes of the raw memory of a mint buffer. */
  function CheckMintBuffer(h: Hash, bridge: Key, mem: Bytes, expected: Digest): Result<u16, BridgeError> {
    if |mem| < 72 then Err(InvalidAutoClaimMintBufferDataAccountSize)
    else if mem[0..32] != bridge then Err(InvalidMintBufferLockingPermission)
    else
      var count := ReadU16(mem, 70);
      var groups := MintGroupInfo(count).0;
      if ReadU16(mem, 66) != groups then Err(InvalidMintBufferPendingMintGroupsCount)
      else if count >= U16_MAX then Err(InvalidMintBufferPendingMintsCount)
      else if |mem| < TargetSize(count) then Err(InvalidAutoClaimMintBufferDataAccountSize)
      else if h(mem[70..32 * groups + 72]) != expected then Err(InvalidPendingMintsBufferHash)
      else Ok(count)
  }

  /** The check of raw memory, byte by byte: whose it is, the two counts, room for all records, and the hash. */
  lemma CheckAcceptedIff(h: Hash, bridge: Key, mem: Bytes, expected: Digest, n: u16)
    ensures CheckMintBuffer(h, bridge, mem, expected) == Ok(n) <==>
              && n < 65535 && |mem| >= 72 + 32 * ((n + 23) / 24) + 40 * n
              && mem[0..32] == bridge && mem[66..68] == LE16((n + 23) / 24) && mem[70..72] == LE16(n)
              && h(mem[70..72 + 32 * ((n + 23) / 24)]) == expected
  {
    MintGroupInfoMeaning(n);
    LE16RoundTrip(n);
    LE16RoundTrip((n + 23) / 24);
    if |mem| >= 72 {
      EncodeDecodeLittleEndian(mem[66..68]);
      EncodeDecodeLittleEndian(mem[70..72]);
    }
  }

  lemma CheckedSlice(h: Hash, a: Account)
    requires Complete(h, a)
    ensures Memory(a)[70..32 * a.header.groups + 72] == if a.header.count == 0 then EMPTY_MINTS_PREIMAGE
            else MintsPreimage(h, MintsOf(a))
  {
    var groups: nat, count := a.header.groups, a.header.count;
    MemoryFromCount(a, 32 * groups);
    if count == 0 {
      assert LE16(0) == EMPTY_MINTS_PREIMAGE;
    } else {
      LayoutParts(h, MintsOf(a));
      assert |MintsOf(a)| % 0x1_0000 == count;
    }
  }

  /**
   Of a complete non-empty buffer locked to the bridge, the check accepts exactly the
   client's hash of the list the buffer holds, and reports the length of that list.
   */
  lemma CheckAcceptsExactlyItsList(h: Hash, bridge: Key, a: Account, d: Digest)
    requires Complete(h, a) && 0 < a.header.count < U16_MAX && a.header.locker == bridge
    ensures CheckMintBuffer(h, bridge, Memory(a), d).Ok? <==> d == MintsHash(h, MintsOf(a))
    ensures CheckMintBuffer(h, bridge, Memory(a), d).Ok?
            ==> CheckMintBuffer(h, bridge, Memory(a), d).value == |MintsOf(a)|
  {
    MemoryFields(a);
    MintGroupInfoMeaning(a.header.count);
    CheckedSlice(h, a);
  }

  /** An accepted buffer that is complete is non-empty or committed as the empty list. */
  lemma AcceptedBuffer(h: Hash, bridge: Key, a: Account, d: Digest)
    requires Complete(h, a) && CheckMintBuffer(h, bridge, Memory(a), d).Ok?
    ensures CheckMintBuffer(h, bridge, Memory(a), d).value == a.header.count < U16_MAX
    ensures a.header.locker == bridge
    ensures a.header.count > 0 ==> d == MintsHash(h, MintsOf(a))
    ensures a.header.count == 0 ==> d == h(EMPTY_MINTS_PREIMAGE)
  {
    MemoryFields(a);
    MintGroupInfoMeaning(a.header.count);
    CheckedSlice(h, a);
  }

  // ---- Binding ----

  /** All messages hashed on the way to a list's commitment. */
  ghost function HashedForMints(h: Hash, ms: seq<PendingMint>): set<Bytes> {
    {MintsPreimage(h, ms)} + set g: nat | g < GroupCount(|ms|) :: MintListBytes(Group(ms, g))
  }

  lemma {:induction false} EqualPreimages(h: Hash, a: seq<PendingMint>, b: seq<PendingMint>)
    requires |a| <= U16_MAX && |b| <= U16_MAX
    requires MintsPreimage(h, a) == MintsPreimage(h, b)
    ensures |a| == |b| && GroupHashes(h, a, GroupCount(|a|)) == GroupHashes(h, b, GroupCount(|b|))
  {
    var ca: u16, cb: u16 := |a|, |b|;
    var ha, hb := GroupHashes(h, a, GroupCount(ca)), GroupHashes(h, b, GroupCount(cb));
    assert MintsPreimage(h, a) == LE16(ca) + ha && MintsPreimage(h, b) == LE16(cb) + hb by {
      assert |a| % 0x1_0000 == ca && |b| % 0x1_0000 == cb;
    }
    SplitUniquely(LE16(ca), ha, LE16(cb), hb);
    LE16RoundTrip(ca);
    LE16RoundTrip(cb);
  }

  /** Lists with the same commitment are equal, unless two of the messages hashed for them collide. */
  lemma MintsHashBinding(h: Hash, a: seq<PendingMint>, b: seq<PendingMint>)
    requires |a| <= U16_MAX && |b| <= U16_MAX
    requires MintsHash(h, a) == MintsHash(h, b)
    requires CollisionFree(h, HashedForMints(h, a) + HashedForMints(h, b))
    ensures a == b
  {
    var s := HashedForMints(h, a) + HashedForMints(h, b);
    assert MintsPreimage(h, a) in s && MintsPreimage(h, b) in s;
    EqualPreimages(h, a, b);
    forall g: nat | g < GroupCount(|a|)
      ensures MintListBytes(Group(a, g)) == MintListBytes(Group(b, g))
    {
      GroupHashesSlot(h, a, GroupCount(|a|), g);
      GroupHashesSlot(h, b, GroupCount(|b|), g);
      assert MintListBytes(Group(a, g)) in s && MintListBytes(Group(b, g)) in s;
    }
    EqualGroups(a, b);
  }
}
