/** The backlog and its tracker as the program updates them in place. */
module MintManagers {
  import opened Bytes
  import opened Hashing
  import opened Commitment
  import opened Tracker
  import opened Backlog
  import opened BridgeErrors
  import Txo = TxoBuffer

  class MintManager {
    const infos: array<Info>
    var index: u16
    var count: u16
    var start: u32
    var account: Key
    const claimed: array<bv8>
    var total: u32
    var remaining: u32

    predicate Valid()
      reads this
    {
      infos.Length == 8 && claimed.Length == 32 && index <= count <= 8
    }

    function Contents(): Manager
      requires Valid()
      reads this, infos, claimed
    {
      Manager(infos[..], index, count, start, Tracker(account, claimed[..], total, remaining))
    }

    constructor ()
      ensures Valid() && Contents() == NEW_MANAGER
      ensures fresh(infos) && fresh(claimed)
    {
      infos := new Info[8](_ => BLANK_INFO);
      claimed := new bv8[32](_ => 0);
      index, count, start, account, total, remaining := 0, 0, 0, ZERO32, 0, 0;
      new;
      assert infos[..] == BlankInfos(8) && claimed[..] == ZeroBits(32);
    }

    /** Put back an earlier state, as the runtime does when a transaction fails. */
    method Restore(m: Manager)
      requires Valid()
      modifies this, infos, claimed
      ensures Valid() && Contents() == m
    {
      forall i | 0 <= i < 8 {
        infos[i] := m.infos[i];
      }
      forall i | 0 <= i < 32 {
        claimed[i] := m.tracker.claimed[i];
      }
      index, count, start := m.index, m.count, m.start;
      account, total, remaining := m.tracker.account, m.tracker.total, m.tracker.remaining;
      assert infos[..] == m.infos && claimed[..] == m.tracker.claimed;
    }

    method ClearTracker(owner: Key)
      requires Valid()
      modifies this`account, this`total, this`remaining, claimed
      ensures Valid() && Contents() == old(Contents()).(tracker := Tracker(owner, NO_BITS, 0, 0))
    {
      forall i | 0 <= i < 32 {
        claimed[i] := 0;
      }
      account, total, remaining := owner, 0, 0;
      assert claimed[..] == NO_BITS;
    }

    /** Mark a group; the result says whether it was the last one, which moves the index on. */
    method MarkPendingMintsGroupClaimed(g: u16) returns (r: Result<bool, BridgeError>)
      requires Valid()
      modifies this, claimed
      ensures Valid()
      ensures r.Ok? <==> MarkGroup(old(Contents()), g).Ok?
      ensures r.Ok? ==> Contents() == MarkGroup(old(Contents()), g).value && r.value == (remaining == 0)
      ensures r.Err? ==> r.error == MarkGroup(old(Contents()), g).error && Contents() == old(Contents())
    {
      if total == 0 || remaining == 0 {
        return Err(NoPendingMintsToProcess);
      }
      if g > 256 {
        return Err(PendingMintsGroupIndexOutOfBounds);
      }
      if g == 256 {
        return Err(Panic);
      }
      if BitOf(claimed[g / 8], g % 8) {
        return Err(PendingMintsGroupAlreadyProcessed);
      }
      claimed[g / 8] := WithBit(claimed[g / 8], g % 8);
      remaining := remaining - 1;
      assert claimed[..] == WithSet(old(claimed[..]), g);
      if remaining == 0 && index < count {
        index := index + 1;
      }
      return Ok(remaining == 0);
    }

    /** Skip the empty blocks the index stands on. */
    method FastForwardEmpty(h: Hash)
      requires Valid()
      modifies this, claimed
      ensures Valid() && Contents() == FastForward(h, old(Contents()))
    {
      if index >= count || remaining != 0 {
        return;
      }
      ghost var items, first := infos[..][..count], index;
      var modified := false;
      while index < count && IsEmptyInfo(h, infos[index])
        modifies this`index
        invariant first <= index <= count
        invariant modified <==> index > first
        invariant NextNonEmpty(h, items, first) == NextNonEmpty(h, items, index)
      {
        assert items[index] == infos[index];
        index := index + 1;
        modified := true;
      }
      assert index < count ==> items[index] == infos[index];
      assert NextNonEmpty(h, items, index) == index;
      if modified {
        ClearTracker(ZERO32);
      }
    }

    /** Load new blocks into a drained backlog. */
    method StandardAppendBlock(h: Hash, height: u32, items: seq<Info>, owner: Key, firstTotal: u32, firstGroups: u32)
      returns (r: Result<(), BridgeError>)
      requires Valid()
      modifies this, infos, claimed
      ensures Valid()
      ensures r.Ok? <==> AppendBlocks(h, old(Contents()), height, items, owner, firstTotal, firstGroups).Ok?
      ensures r.Ok?
              ==> Contents() == AppendBlocks(h, old(Contents()), height, items, owner, firstTotal, firstGroups).value
      ensures r.Err?
              ==> r.error == AppendBlocks(h, old(Contents()), height, items, owner, firstTotal, firstGroups).error
    {
      if !IsDrained(Contents()) {
        return Err(PendingFinalizedBlockMintsNotEmpty);
      }
      if |items| > 8 {
        return Err(PendingFinalizedBlockMintsInvalidGroupCount);
      }
      if |items| == 0 {
        return Ok(());
      }
      for i := 0 to |items|
        modifies infos
        invariant infos[..i] == items[..i]
        invariant infos[i..] == old(infos[..])[i..]
      {
        ghost var done, rest := infos[..i], infos[i + 1..];
        infos[i] := items[i];
        assert infos[..i + 1] == done + [items[i]] && infos[i + 1..] == rest;
      }
      assert infos[..] == items + old(infos[..])[|items|..];
      index, count, start := 0, |items|, height;
      ClearTracker(owner);
      FastForwardEmpty(h);
      if IsDrained(Contents()) {
        if firstTotal != 0 || firstGroups != 0 {
          return Err(PendingFinalizedBlockMintsInvalidAutoClaimMintsData);
        }
        return Ok(());
      }
      total, remaining := firstTotal, firstGroups;
      return Ok(());
    }

    /** Check and mark a group; the result says whether to unlock, how many records to mint and where they start. */
    method RunAutoMintGroupPrecheck(g: u16, buffer: Key) returns (r: Result<(bool, u16, nat), BridgeError>)
      requires Valid()
      modifies this, claimed
      ensures Valid()
      ensures r.Ok? <==> Precheck(old(Contents()), g, buffer).Ok?
      ensures r.Ok? ==>
                var c := Precheck(old(Contents()), g, buffer).value;
                Contents() == c.next && r.value == (c.canUnlock, c.size, c.offset)
      ensures r.Err? ==> r.error == Precheck(old(Contents()), g, buffer).error && Contents() == old(Contents())
    {
      var m := Contents();
      if IsDrained(m) || TotalGroups(m.tracker) == 0 || remaining == 0 {
        return Err(NoPendingMintsToAutoProcess);
      }
      var can := EnsureCanClaim(m.tracker, g);
      if can.Err? {
        return Err(can.error);
      }
      var size, offset := GroupSize(m.tracker, g), MintOffset(TotalGroups(m.tracker), g * 24 % 0x1_0000);
      if buffer != account {
        return Err(InvalidAccountKey);
      }
      var marked := MarkPendingMintsGroupClaimed(g);
      if marked.Err? {
        return Err(marked.error);
      }
      return Ok((marked.value, size, offset));
    }

    /** Activate the block the index stands on from the buffers that hold its mints and outputs. */
    method ActivateCurrent(h: Hash, bridge: Key, buffer: Key, mem: Bytes, txo: Txo.Account)
      returns (r: Result<(), BridgeError>)
      requires Valid() && txo.Buffer? && index < count
      modifies this, claimed
      ensures Valid()
      ensures r.Ok? <==> Activate(h, bridge, old(Contents()), buffer, mem, txo).Ok?
      ensures r.Ok? ==> Contents() == Activate(h, bridge, old(Contents()), buffer, mem, txo).value
      ensures r.Err? ==> r.error == Activate(h, bridge, old(Contents()), buffer, mem, txo).error
    {
      var checked := CheckMintBuffer(h, bridge, mem, infos[index].mintsHash);
      if checked.Err? {
        return Err(checked.error);
      }
      var mints: nat := checked.value;
      if |txo.body| < 4 * mints {
        return Err(InvalidAutoClaimTxoBufferDataAccountSize);
      }
      if txo.header.height != (start + index) % 0x1_0000_0000 {
        return Err(InvalidBlockHeightForReorgTransition);
      }
      if h(txo.body[..4 * mints]) != infos[index].txoHash {
        return Err(InvalidAutoClaimTxoBufferHash);
      }
      ClearTracker(buffer);
      total, remaining := checked.value, MintGroupInfo(checked.value).0;
      return Ok(());
    }

    /** Skip empty blocks and activate the next other one. */
    method RunSetupNextPendingBuffer(h: Hash, bridge: Key, buffer: Key, mem: Bytes, txo: Txo.Account)
      returns (r: Result<(), BridgeError>)
      requires Valid() && txo.Buffer?
      modifies this, claimed
      ensures Valid()
      ensures r.Ok? <==> SetupNext(h, bridge, old(Contents()), buffer, mem, txo).Ok?
      ensures r.Ok? ==> Contents() == SetupNext(h, bridge, old(Contents()), buffer, mem, txo).value
      ensures r.Err? ==> r.error == SetupNext(h, bridge, old(Contents()), buffer, mem, txo).error
    {
      if IsDrained(Contents()) {
        return Err(NoPendingMintsToAutoProcess);
      }
      if remaining != 0 {
        return Err(RemainingPendingMintsInPreviousState);
      }
      if index >= count {
        return Err(NoPendingMintsToAutoProcess);
      }
      FastForwardEmpty(h);
      if IsDrained(Contents()) || index >= count {
        return Err(NoPendingMintsToAutoProcess);
      }
      r := ActivateCurrent(h, bridge, buffer, mem, txo);
    }
  }
}
