/**
 The pending-mint buffer program: an account holding a 72-byte header, one 32-byte hash
 per group of 24 mints, and the 40-byte mint records. A writer fills it group by group,
 a locker freezes it.
 */
module MintBuffer {
  import opened Bytes
  import opened Hashing
  import opened Mints

  datatype Error =
    | AccountAlreadyInitialized
    | InvalidAccountData
    | IllegalOwner
    | InvalidArgument
    | InvalidSeeds
    | InvalidInstructionData
    | AccountDataTooSmall
    | IncorrectProgramId

  datatype Header = Header(
    locker: Key,
    writer: Key,
    isLocked: byte,
    mode: byte,
    groups: u16,
    initialized: u16,
    count: u16)

  /** An account of the program: not yet allocated, or a header followed by `body`. */
  datatype Account = Missing | Buffer(header: Header, body: Bytes)

  const BLANK_HEADER: Header := Header(ZERO32, ZERO32, 0, 0, 0, 0, 0)

  // ---- Account memory, as other programs read it ----

  function HeaderBytes(hd: Header): (s: Bytes)
    ensures |s| == 72
  {
    hd.locker + hd.writer + [hd.isLocked, hd.mode] + LE16(hd.groups) + LE16(hd.initialized) + LE16(hd.count)
  }

  function Memory(a: Account): (s: Bytes)
    requires a.Buffer?
    ensures |s| == 72 + |a.body|
  {
    HeaderBytes(a.header) + a.body
  }

  function ReadU16(s: Bytes, at: nat): u16
    requires at + 2 <= |s|
  {
    EncodeDecodeLittleEndian(s[at..at + 2]);
    Pow256Values();
    FromLittleEndian(s[at..at + 2])
  }

  lemma HeaderTail(hd: Header)
    ensures HeaderBytes(hd)[70..] == LE16(hd.count)
  {
  }

  lemma MemoryFromCount(a: Account, k: nat)
    requires a.Buffer? && k <= |a.body|
    ensures Memory(a)[70..72 + k] == LE16(a.header.count) + a.body[..k]
  {
    StraddlingSlice(HeaderBytes(a.header), a.body, 70, k);
    HeaderTail(a.header);
  }

  /** The fields other programs pick out of the raw bytes are the header's own. */
  lemma MemoryFields(a: Account)
    requires a.Buffer?
    ensures Memory(a)[0..32] == a.header.locker
    ensures Memory(a)[32..64] == a.header.writer
    ensures ReadU16(Memory(a), 66) == a.header.groups
    ensures ReadU16(Memory(a), 68) == a.header.initialized
    ensures ReadU16(Memory(a), 70) == a.header.count
    ensures Memory(a)[70..72] == LE16(a.header.count)
    ensures Memory(a)[72..] == a.body
  {
    var m, hd := Memory(a), a.header;
    LE16RoundTrip(hd.groups);
    LE16RoundTrip(hd.initialized);
    LE16RoundTrip(hd.count);
    assert m[66..68] == LE16(hd.groups);
    assert m[68..70] == LE16(hd.initialized);
    assert m[70..72] == LE16(hd.count);
  }

  // ---- Sizes ----

  /** The u16 ceiling division of the program, with its wrap-around. */
  function WrappingGroupCount(count: u16): u16 {
    (count + 24 + U16_MAX) % 0x1_0000 / 24
  }

  /** The wrapped division is the true number of groups exactly for counts up to 65512. */
  lemma WrappingGroupCountExact(count: u16)
    ensures WrappingGroupCount(count) == GroupCount(count) <==> count <= 65512
    ensures count > 65512 ==> WrappingGroupCount(count) == 0
  {
  }

  function TargetSize(count: u16): nat {
    72 + 32 * GroupCount(count) + 40 * count
  }

  function TotalSize(hd: Header): nat {
    72 + 32 * hd.groups + 40 * hd.count
  }

  /** Length after one reallocation towards `target`, at most 10240 bytes up. */
  function GrownLength(len: nat, target: nat): nat {
    if target > len then len + Min(target - len, MAX_INCREASE) else len
  }

  // ---- Instructions ----

  datatype Instruction =
    | Setup(locker: Key, writer: Key)
    | Reinit(signer: Key, count: u16, exposed: Bytes)
    | Resize(signer: Key, exposed: Bytes)
    | Insert(signer: Key, group: u16, data: Bytes, exposed: Bytes)
    | Lock(signer: Key)
    | Unlock(signer: Key)

  function SetupStep(a: Account, locker: Key, writer: Key): Result<Account, Error> {
    var hd := if a.Missing? then BLANK_HEADER else a.header;
    var body := if a.Missing? then [] else a.body;
    if hd.locker != ZERO32 then Err(AccountAlreadyInitialized)
    else Ok(Buffer(Header(locker, writer, 0, 0, 0, 0, 0), body))
  }

  function ReinitStep(a: Account, signer: Key, count: u16, exposed: Bytes): Result<Account, Error>
    requires a.Buffer?
  {
    var hd := a.header;
    var target := TargetSize(count);
    var len := 72 + |a.body|;
    var newLen := if target < len then target else GrownLength(len, target);
    var body := Reallocate(a.body, newLen - 72, exposed);
    if hd.writer != signer then Err(IllegalOwner)
    else if hd.isLocked != 0 then Err(AccountAlreadyInitialized)
    else
      var hd' := hd.(count := count, groups := WrappingGroupCount(count), initialized := 0);
      var cleared := Min(32 * hd'.groups, |body|);
      Ok(Buffer(hd', Overwrite(body, 0, Zeros(cleared))))
  }

  function ResizeStep(a: Account, signer: Key, exposed: Bytes): Result<Account, Error>
    requires a.Buffer?
  {
    var target := TotalSize(a.header);
    var len := 72 + |a.body|;
    if a.header.writer != signer then Err(IllegalOwner)
    else if a.header.isLocked != 0 then Err(AccountAlreadyInitialized)
    else if target < len then Err(InvalidAccountData)
    else Ok(a.(body := Reallocate(a.body, GrownLength(len, target) - 72, exposed)))
  }

  function InsertGroup(h: Hash, hd: Header, body: Bytes, group: u16, data: Bytes): Result<Account, Error>
  {
    var slot := 32 * group;
    var start := 32 * hd.groups + 40 * (group * 24 % 0x1_0000);
    if hd.isLocked != 0 then Err(AccountAlreadyInitialized)
    else if group >= hd.groups then Err(InvalidArgument)
    else if |data| > 24 * 40 then Err(InvalidInstructionData)
    else if |data| % 40 != 0 then Err(InvalidInstructionData)
    else if start + |data| > |body| || slot + 32 > |body| then Err(AccountDataTooSmall)
    else if body[slot..slot + 32] != ZERO32 then Err(AccountAlreadyInitialized)
    else
      var hashed := Overwrite(body, slot, h(data));
      Ok(Buffer(hd.(initialized := (hd.initialized + |data| / 40) % 0x1_0000), Overwrite(hashed, start, data)))
  }

  /** The body after the growth step that precedes every insert. */
  function GrownBody(a: Account, exposed: Bytes): (r: Bytes)
    requires a.Buffer?
    ensures |r| == GrownLength(72 + |a.body|, TotalSize(a.header)) - 72 >= |a.body|
    ensures r[..|a.body|] == a.body
  {
    Reallocate(a.body, GrownLength(72 + |a.body|, TotalSize(a.header)) - 72, exposed)
  }

  function InsertStep(h: Hash, a: Account, signer: Key, group: u16, data: Bytes, exposed: Bytes): Result<Account, Error>
    requires a.Buffer?
  {
    if a.header.writer != signer then Err(IllegalOwner)
    else InsertGroup(h, a.header, GrownBody(a, exposed), group, data)
  }

  function LockStep(a: Account, signer: Key): Result<Account, Error>
    requires a.Buffer?
  {
    var hd := a.header;
    if hd.isLocked != 0 then Err(AccountAlreadyInitialized)
    else if hd.initialized != hd.count then Err(InvalidAccountData)
    else if signer != hd.locker then Err(IllegalOwner)
    else Ok(a.(header := hd.(isLocked := 1)))
  }

  function UnlockStep(a: Account, signer: Key): Result<Account, Error>
    requires a.Buffer?
  {
    var hd := a.header;
    if hd.isLocked == 0 then Err(InvalidAccountData)
    else if signer != hd.locker then Err(IllegalOwner)
    else Ok(a.(header := hd.(isLocked := 0, groups := 0, count := 0, initialized := 0)))
  }

  /** One instruction of the program on one account. */
  function Step(h: Hash, a: Account, i: Instruction): Result<Account, Error> {
    if i.Setup? then SetupStep(a, i.locker, i.writer)
    else if a.Missing? then Err(IncorrectProgramId)
    else
      match i
      case Reinit(signer, count, exposed) => ReinitStep(a, signer, count, exposed)
      case Resize(signer, exposed) => ResizeStep(a, signer, exposed)
      case Insert(signer, group, data, exposed) => InsertStep(h, a, signer, group, data, exposed)
      case Lock(signer) => LockStep(a, signer)
      case Unlock(signer) => UnlockStep(a, signer)
  }

  /** The same on the account at an address; set-up insists on the address derived from the writer. */
  function StepAt(h: Hash, bufferOf: Key -> Key, addr: Key, a: Account, i: Instruction): Result<Account, Error> {
    if i.Setup? && addr != bufferOf(i.writer) then Err(InvalidSeeds) else Step(h, a, i)
  }

  // ---- Complete buffers ----

  predicate ExactLength(a: Account) {
    a.Buffer? && |a.body| == 32 * a.header.groups + 40 * a.header.count
  }

  function MintsOf(a: Account): (ms: seq<PendingMint>)
    requires ExactLength(a)
    ensures |ms| == a.header.count
  {
    ParseMintList(a.body[32 * a.header.groups..])
  }

  /** Every group is present and every slot holds the hash of exactly its group's records. */
  ghost predicate Complete(h: Hash, a: Account) {
    && a.Buffer?
    && a.header.groups == GroupCount(a.header.count)
    && (a.header.count > 0 ==> ExactLength(a) && a.body == Layout(h, MintsOf(a)))
  }
}

/** The pending-mint buffer account as the program updates it in place. */
module MintBufferAccount {
  import opened Bytes
  import opened Hashing
  import opened MintBuffer

  class BufferAccount {
    var created: bool
    var locker: Key
    var writer: Key
    var isLocked: byte
    var mode: byte
    var groups: u16
    var initialized: u16
    var count: u16
    var body: Bytes

    function Contents(): Account
      reads this
    {
      if !created then Missing
      else Buffer(Header(locker, writer, isLocked, mode, groups, initialized, count), body)
    }

    constructor ()
      ensures Contents() == Missing
    {
      created, locker, writer, isLocked, mode := false, ZERO32, ZERO32, 0, 0;
      groups, initialized, count, body := 0, 0, 0, [];
    }

    method Setup(lockerKey: Key, writerKey: Key) returns (r: Result<(), Error>)
      modifies this
      ensures r.Ok? == SetupStep(old(Contents()), lockerKey, writerKey).Ok?
      ensures r.Ok? ==> Contents() == SetupStep(old(Contents()), lockerKey, writerKey).value
      ensures r.Err? ==> r.error == SetupStep(old(Contents()), lockerKey, writerKey).error
    {
      if !created {
        created, locker, writer, isLocked, mode := true, ZERO32, ZERO32, 0, 0;
        groups, initialized, count, body := 0, 0, 0, [];
      }
      if locker != ZERO32 {
        return Err(AccountAlreadyInitialized);
      }
      locker := lockerKey;
      writer := writerKey;
      isLocked := 0;
      mode := 0;
      groups := 0;
      initialized := 0;
      count := 0;
      return Ok(());
    }

    method Reinit(signer: Key, newCount: u16, exposed: Bytes) returns (r: Result<(), Error>)
      requires created
      modifies this
      ensures r.Ok? == ReinitStep(old(Contents()), signer, newCount, exposed).Ok?
      ensures r.Ok? ==> Contents() == ReinitStep(old(Contents()), signer, newCount, exposed).value
      ensures r.Err? ==> r.error == ReinitStep(old(Contents()), signer, newCount, exposed).error
    {
      if writer != signer {
        return Err(IllegalOwner);
      }
      ReallocateTowards(TargetSize(newCount), exposed);
      if isLocked != 0 {
        return Err(AccountAlreadyInitialized);
      }
      StartOver(newCount);
      return Ok(());
    }

    /** Forget the records: a new count, and zeros in the hash slots, as far as the body reaches. */
    method StartOver(newCount: u16)
      modifies this`count, this`groups, this`initialized, this`body
      ensures count == newCount && groups == WrappingGroupCount(newCount) && initialized == 0
      ensures body == Overwrite(old(body), 0, Zeros(Min(32 * groups, |old(body)|)))
    {
      count := newCount;
      groups := WrappingGroupCount(newCount);
      initialized := 0;
      if |body| >= 32 * groups {
        body := Overwrite(body, 0, Zeros(32 * groups));
      } else if |body| > 0 {
        body := Overwrite(body, 0, Zeros(|body|));
      }
    }

    /** Shrink to the target, or grow towards it by at most one increase. */
    method ReallocateTowards(target: nat, exposed: Bytes)
      requires target >= 72
      modifies this`body
      ensures var len := 72 + old(|body|);
              body == Reallocate(old(body), (if target < len then target else GrownLength(len, target)) - 72, exposed)
    {
      var currentLen := 72 + |body|;
      var newLen := currentLen;
      if target > currentLen {
        newLen := currentLen + Min(target - currentLen, MAX_INCREASE);
      } else if target < currentLen {
        newLen := target;
      }
      if newLen != currentLen {
        body := Reallocate(body, newLen - 72, exposed);
      } else {
        assert body == body[..newLen - 72];
      }
    }

    method Resize(signer: Key, exposed: Bytes) returns (r: Result<(), Error>)
      requires created
      modifies this
      ensures r.Ok? == ResizeStep(old(Contents()), signer, exposed).Ok?
      ensures r.Ok? ==> Contents() == ResizeStep(old(Contents()), signer, exposed).value
      ensures r.Err? ==> r.error == ResizeStep(old(Contents()), signer, exposed).error
    {
      if writer != signer {
        return Err(IllegalOwner);
      }
      var target := 72 + 32 * groups + 40 * count;
      if isLocked != 0 {
        return Err(AccountAlreadyInitialized);
      }
      var currentLen := 72 + |body|;
      if target < currentLen {
        return Err(InvalidAccountData);
      }
      if target > currentLen {
        body := Reallocate(body, currentLen + Min(target - currentLen, MAX_INCREASE) - 72, exposed);
      } else {
        assert body == body[..target - 72];
      }
      return Ok(());
    }

    method Insert(h: Hash, signer: Key, group: u16, data: Bytes, exposed: Bytes) returns (r: Result<(), Error>)
      requires created
      modifies this
      ensures r.Ok? == InsertStep(h, old(Contents()), signer, group, data, exposed).Ok?
      ensures r.Ok? ==> Contents() == InsertStep(h, old(Contents()), signer, group, data, exposed).value
      ensures r.Err? ==> r.error == InsertStep(h, old(Contents()), signer, group, data, exposed).error
    {
      if writer != signer {
        return Err(IllegalOwner);
      }
      var target := 72 + 32 * groups + 40 * count;
      var currentLen := 72 + |body|;
      if currentLen < target {
        body := Reallocate(body, currentLen + Min(target - currentLen, MAX_INCREASE) - 72, exposed);
      } else {
        assert body == body[..currentLen - 72];
      }
      ghost var hd, grown := old(Contents()).header, body;
      assert grown == GrownBody(old(Contents()), exposed);
      assert InsertStep(h, old(Contents()), signer, group, data, exposed) == InsertGroup(h, hd, grown, group, data);
      r := InsertPendingMints(h, group, data);
    }

    method InsertPendingMints(h: Hash, group: u16, data: Bytes) returns (r: Result<(), Error>)
      requires created
      modifies this
      ensures r.Ok? == InsertGroup(h, old(Contents()).header, old(body), group, data).Ok?
      ensures r.Ok? ==> Contents() == InsertGroup(h, old(Contents()).header, old(body), group, data).value
      ensures r.Err? ==> r.error == InsertGroup(h, old(Contents()).header, old(body), group, data).error
    {
      if isLocked != 0 {
        return Err(AccountAlreadyInitialized);
      }
      if group >= groups {
        return Err(InvalidArgument);
      }
      if |data| > 24 * 40 || |data| % 40 != 0 {
        return Err(InvalidInstructionData);
      }
      var globalStart: u16 := group * 24 % 0x1_0000;
      var slot := 32 * group;
      var start := 32 * groups + 40 * globalStart;
      if start + |data| > |body| || slot + 32 > |body| {
        return Err(AccountDataTooSmall);
      }
      if body[slot..slot + 32] != ZERO32 {
        return Err(AccountAlreadyInitialized);
      }
      body := Overwrite(body, slot, h(data));
      body := Overwrite(body, start, data);
      initialized := (initialized + |data| / 40) % 0x1_0000;
      return Ok(());
    }

    method Lock(signer: Key) returns (r: Result<(), Error>)
      requires created
      modifies this
      ensures r.Ok? == LockStep(old(Contents()), signer).Ok?
      ensures r.Ok? ==> Contents() == LockStep(old(Contents()), signer).value
      ensures r.Err? ==> r.error == LockStep(old(Contents()), signer).error
    {
      if isLocked != 0 {
        return Err(AccountAlreadyInitialized);
      }
      if initialized != count {
        return Err(InvalidAccountData);
      }
      if signer != locker {
        return Err(IllegalOwner);
      }
      isLocked := 1;
      return Ok(());
    }

    method Unlock(signer: Key) returns (r: Result<(), Error>)
      requires created
      modifies this
      ensures r.Ok? == UnlockStep(old(Contents()), signer).Ok?
      ensures r.Ok? ==> Contents() == UnlockStep(old(Contents()), signer).value
      ensures r.Ok? ==> old(isLocked) != 0 && signer == locker && isLocked == groups == count == initialized == 0
                        && (locker, writer, mode, body) == old((locker, writer, mode, body))
      ensures r.Err? ==> r.error == UnlockStep(old(Contents()), signer).error
    {
      if isLocked == 0 {
        return Err(InvalidAccountData);
      }
      if signer != locker {
        return Err(IllegalOwner);
      }
      isLocked := 0;
      groups := 0;
      count := 0;
      initialized := 0;
      return Ok(());
    }

    /** A whole transaction on the account at `addr`: the dispatcher, then the runtime's roll-back of a failed one. */
    method Process(h: Hash, bufferOf: Key -> Key, addr: Key, i: Instruction) returns (r: Result<(), Error>)
      modifies this
      ensures r.Ok? == StepAt(h, bufferOf, addr, old(Contents()), i).Ok?
      ensures r.Ok? ==> Contents() == StepAt(h, bufferOf, addr, old(Contents()), i).value
      ensures r.Err? ==> r.error == StepAt(h, bufferOf, addr, old(Contents()), i).error && Contents() == old(Contents())
    {
      if i.Setup? && addr != bufferOf(i.writer) {
        return Err(InvalidSeeds);
      }
      var created0, locker0, writer0, isLocked0, mode0 := created, locker, writer, isLocked, mode;
      var groups0, initialized0, count0, body0 := groups, initialized, count, body;
      if !created && !i.Setup? {
        return Err(IncorrectProgramId);
      }
      match i {
        case Setup(lockerKey, writerKey) => r := Setup(lockerKey, writerKey);
        case Reinit(signer, newCount, exposed) => r := Reinit(signer, newCount, exposed);
        case Resize(signer, exposed) => r := Resize(signer, exposed);
        case Insert(signer, group, data, exposed) => r := Insert(h, signer, group, data, exposed);
        case Lock(signer) => r := Lock(signer);
        case Unlock(signer) => r := Unlock(signer);
      }
      if r.Err? {
        created, locker, writer, isLocked, mode := created0, locker0, writer0, isLocked0, mode0;
        groups, initialized, count, body := groups0, initialized0, count0, body0;
      }
    }
  }
}
