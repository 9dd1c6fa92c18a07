/** The backlog of finalized blocks whose mints are still to be claimed. */
module Backlog {
  import opened Bytes
  import opened Hashing
  import opened Mints
  import opened MintBuffer
  import opened Commitment
  import opened Tracker
  import opened BridgeErrors
  import Txo = TxoBuffer

  /** Commitments of one finalized block: its mint list and its output indices. */
  datatype Info = Info(mintsHash: Digest, txoHash: Digest)

  predicate IsEmptyInfo(h: Hash, i: Info) {
    i.mintsHash == h(EMPTY_MINTS_PREIMAGE) && i.txoHash == h([])
  }

  function BlankInfos(n: nat): (s: seq<Info>)
    ensures |s| == n
  {
    seq(n, _ => BLANK_INFO)
  }

  const BLANK_INFO: Info := Info(ZERO32, ZERO32)

  datatype ManagerData = Manager(infos: seq<Info>, index: u16, count: u16, start: u32, tracker: Tracker)

  type Manager = m: ManagerData | |m.infos| == 8 && m.index <= m.count <= 8
    witness Manager(BlankInfos(8), 0, 0, 0, BLANK_TRACKER)

  const NEW_MANAGER: Manager := Manager(BlankInfos(8), 0, 0, 0, BLANK_TRACKER)

  predicate IsDrained(m: Manager) {
    m.count == 0 || (m.count == m.index && m.tracker.remaining == 0)
  }

  predicate IsActive(m: Manager) {
    m.tracker.remaining != 0
  }

  // ---- Skipping empty blocks ----

  /** First non-empty item of `infos` from position i on, or its length. */
  function NextNonEmpty(h: Hash, infos: seq<Info>, i: nat): (j: nat)
    requires i <= |infos|
    ensures i <= j <= |infos|
    ensures forall k :: i <= k < j ==> IsEmptyInfo(h, infos[k])
    ensures j < |infos| ==> !IsEmptyInfo(h, infos[j])
    decreases |infos| - i
  {
    if i == |infos| || !IsEmptyInfo(h, infos[i]) then i else NextNonEmpty(h, infos, i + 1)
  }

  function FastForward(h: Hash, m: Manager): (r: Manager) {
    if m.index >= m.count || IsActive(m) then m
    else
      var j := NextNonEmpty(h, m.infos[..m.count], m.index);
      if j == m.index then m else m.(index := j, tracker := BLANK_TRACKER)
  }

  // ---- Loading blocks ----

  function AppendBlocks(h: Hash, m: Manager, height: u32, items: seq<Info>, account: Key, total: u32,
          groups: u32): Result<Manager, BridgeError> {
    if !IsDrained(m) then Err(PendingFinalizedBlockMintsNotEmpty)
    else if |items| > 8 then Err(PendingFinalizedBlockMintsInvalidGroupCount)
    else if |items| == 0 then Ok(m)
    else
      var m1 := FastForward(h,
          Manager(items + m.infos[|items|..], 0, |items|, height, Tracker(account, NO_BITS, 0, 0)));
      if IsDrained(m1) then
        if total != 0 || groups != 0 then Err(PendingFinalizedBlockMintsInvalidAutoClaimMintsData) else Ok(m1)
      else Ok(m1.(tracker := m1.tracker.(total := total, remaining := groups)))
  }

  /** A list that starts with a non-empty block is loaded as it is, with its first block active. */
  lemma AppendNonEmpty(h: Hash, m: Manager, height: u32, items: seq<Info>, account: Key, total: u32, groups: u32)
    requires AppendBlocks(h, m, height, items, account, total, groups).Ok?
    requires |items| > 0 && (total != 0 || groups != 0)
    requires |items| > 1 ==> !IsEmptyInfo(h, items[0])
    ensures IsDrained(m) && |items| <= 8 && !IsEmptyInfo(h, items[0])
    ensures AppendBlocks(h, m, height, items, account, total, groups).value
         == Manager(items + m.infos[|items|..], 0, |items|, height, Tracker(account, NO_BITS, total, groups))
  {
    var m0 := Manager(items + m.infos[|items|..], 0, |items|, height, Tracker(account, NO_BITS, 0, 0));
    assert m0.infos[..|items|] == items;
  }

  // ---- Claiming a group ----

  /** Size of group g of the current block, computed in u16. */
  function GroupSize(t: Tracker, g: u16): u16 {
    if TotalGroups(t) > 0 && g == TotalGroups(t) - 1 then
      var rem := t.total % 0x1_0000 % 24;
      if rem == 0 then 24 else rem
    else 24
  }

  function MintOffset(groups: u16, mint: u16): nat {
    72 + 32 * groups + 40 * mint
  }

  datatype Claim = Claim(next: Manager, canUnlock: bool, size: u16, offset: nat)

  function MarkGroup(m: Manager, g: u16): Result<Manager, BridgeError> {
    var t :- MarkClaimed(m.tracker, g);
    Ok(m.(tracker := t, index := if t.remaining == 0 && m.index < m.count then m.index + 1 else m.index))
  }

  function Precheck(m: Manager, g: u16, account: Key): Result<Claim, BridgeError> {
    if IsDrained(m) then Err(NoPendingMintsToAutoProcess)
    else if TotalGroups(m.tracker) == 0 then Err(NoPendingMintsToAutoProcess)
    else if !IsActive(m) then Err(NoPendingMintsToAutoProcess)
    else
      var _ :- EnsureCanClaim(m.tracker, g);
      if account != m.tracker.account then Err(InvalidAccountKey)
      else
        var next :- MarkGroup(m, g);
        Ok(Claim(next, next.tracker.remaining == 0, GroupSize(m.tracker, g),
            MintOffset(TotalGroups(m.tracker), g * 24 % 0x1_0000)))
  }

  /** Of an active, consistent backlog the precheck accepts exactly the claimable groups of its own buffer. */
  lemma PrecheckAccepts(m: Manager, g: u16, account: Key)
    requires IsActive(m) && Consistent(m.tracker) && m.index < m.count
    ensures Precheck(m, g, account).Ok? <==> EnsureCanClaim(m.tracker, g).Ok? && account == m.tracker.account
  {
    if EnsureCanClaim(m.tracker, g).Ok? {
      ClaimKeepsConsistent(m.tracker, g);
    }
  }

  /** The u16 size and offset computed for group g delimit exactly its records. */
  lemma GroupExtent(t: Tracker, g: u16)
    requires t.total <= U16_MAX && g < TotalGroups(t)
    ensures g < GroupCount(t.total)
    ensures GroupSize(t, g) == GroupEnd(t.total, g) - 24 * g
    ensures MintOffset(TotalGroups(t), g * 24 % 0x1_0000) == 72 + 32 * GroupCount(t.total) + 960 * g
  {
    TotalGroupsMeaning(t);
    GroupBounds(t.total, g);
  }

  /**
   All ways of counting groups agree on every u16 count, except that of the buffer program,
   which agrees exactly up to 65512 mints.
   */
  lemma GroupFormulasAgree(count: u16, t: Tracker)
    requires t.total == count
    ensures MintGroupInfo(count).0 == TotalGroups(t) == GroupCount(count)
    ensures TargetSize(count) == 72 + 32 * MintGroupInfo(count).0 + 40 * count
    ensures WrappingGroupCount(count) == MintGroupInfo(count).0 <==> count <= 65512
    ensures count > 0 ==> GroupSize(t, MintGroupInfo(count).0 - 1) == MintGroupInfo(count).1
  {
    MintGroupInfoMeaning(count);
    WrappingGroupCountExact(count);
    TotalGroupsMeaning(t);
  }

  /** The ranges of the groups partition the positions of the list. */
  lemma GroupsPartition(n: nat, i: nat, g: nat)
    requires g < GroupCount(n)
    ensures 24 * g <= i < GroupEnd(n, g) <==> i < n && g == i / 24
  {
    GroupBounds(n, g);
  }

  /** The backlog after group g was claimed. */
  ghost predicate ClaimedGroup(m: Manager, m': Manager, g: nat) {
    var t, t' := m.tracker, m'.tracker;
    && Consistent(t')
    && t' == t.(claimed := t'.claimed, remaining := t'.remaining)
    && t'.remaining == t.remaining - 1
    && g < GroupCount(t.total) && g !in Members(t.claimed)
    && Members(t'.claimed) == Members(t.claimed) + {g}
    && m' == m.(tracker := t', index := if t.remaining == 1 && m.index < m.count then m.index + 1 else m.index)
  }

  /** What an accepted claim does: it reads the records of group g of the list and marks the group. */
  lemma PrecheckMeaning(m: Manager, g: u16, account: Key)
    requires Consistent(m.tracker) && Precheck(m, g, account).Ok?
    ensures !IsDrained(m) && IsActive(m) && account == m.tracker.account
    ensures var c, n := Precheck(m, g, account).value, m.tracker.total;
            && ClaimedGroup(m, c.next, g)
            && c.canUnlock == (m.tracker.remaining == 1)
            && c.size == GroupEnd(n, g) - 24 * g
            && c.offset == 72 + 32 * GroupCount(n) + 960 * g
  {
    ClaimKeepsConsistent(m.tracker, g);
    GroupExtent(m.tracker, g);
  }

  // ---- Setting up the next block ----

  /** The check of the output indices of a block with `count` mints. */
  function CheckTxos(h: Hash, a: Txo.Account, count: u16, expected: Digest): Result<(), BridgeError>
    requires a.Buffer?
  {
    if |a.body| < 4 * count then Err(InvalidAutoClaimTxoBufferDataAccountSize)
    else if h(a.body[..4 * count]) != expected then Err(InvalidAutoClaimTxoBufferHash)
    else Ok(())
  }

  /** Activate the block the index stands on from the buffers that hold its mints and outputs. */
  function Activate(h: Hash, bridge: Key, m: Manager, account: Key, mem: Bytes, txo: Txo.Account)
          : Result<Manager, BridgeError>
    requires txo.Buffer? && m.index < m.count
  {
    var info := m.infos[m.index];
    var count :- CheckMintBuffer(h, bridge, mem, info.mintsHash);
    if |txo.body| < 4 * count then Err(InvalidAutoClaimTxoBufferDataAccountSize)
    else if txo.header.height != (m.start + m.index) % 0x1_0000_0000 then Err(InvalidBlockHeightForReorgTransition)
    else
      var _ :- CheckTxos(h, txo, count, info.txoHash);
      Ok(m.(tracker := Tracker(account, NO_BITS, count, MintGroupInfo(count).0)))
  }

  /** Skip empty blocks and activate the next other one. */
  function SetupNext(h: Hash, bridge: Key, m: Manager, account: Key, mem: Bytes, txo: Txo.Account)
          : Result<Manager, BridgeError>
    requires txo.Buffer?
  {
    if IsDrained(m) then Err(NoPendingMintsToAutoProcess)
    else if IsActive(m) then Err(RemainingPendingMintsInPreviousState)
    else if m.index >= m.count then Err(NoPendingMintsToAutoProcess)
    else
      var m1 := FastForward(h, m);
      if IsDrained(m1) || m1.index >= m1.count then Err(NoPendingMintsToAutoProcess)
      else Activate(h, bridge, m1, account, mem, txo)
  }

  /** The item the next set-up will activate, if there is one. */
  function NextItem(h: Hash, m: Manager): (j: nat)
    requires m.index <= m.count
    ensures m.index <= j <= m.count
  {
    NextNonEmpty(h, m.infos[..m.count], m.index)
  }

  lemma FastForwardMeaning(h: Hash, m: Manager)
    requires !IsActive(m)
    ensures var r := FastForward(h, m);
            && r.index == NextItem(h, m)
            && !IsActive(r)
            && r == m.(index := r.index, tracker := if r.index == m.index then m.tracker else BLANK_TRACKER)
  {
  }

  /** A block that gets activated has at least one mint. */
  lemma ActivatedIsNonEmpty(h: Hash, bridge: Key, a: Account, txo: Txo.Account, info: Info)
    requires Complete(h, a) && txo.Buffer? && !IsEmptyInfo(h, info)
    requires CheckMintBuffer(h, bridge, Memory(a), info.mintsHash).Ok?
    requires CheckTxos(h, txo, CheckMintBuffer(h, bridge, Memory(a), info.mintsHash).value, info.txoHash).Ok?
    ensures a.header.count > 0
  {
    AcceptedBuffer(h, bridge, a, info.mintsHash);
    assert txo.body[..0] == [];
  }

  /** With only empty blocks left no buffers whatever set up another block. */
  lemma EmptyTailIsStuck(h: Hash, bridge: Key, m: Manager, account: Key, mem: Bytes, txo: Txo.Account)
    requires txo.Buffer? && !IsActive(m) && NextItem(h, m) == m.count
    ensures SetupNext(h, bridge, m, account, mem, txo) == Err(NoPendingMintsToAutoProcess)
  {
    FastForwardMeaning(h, m);
  }
}
