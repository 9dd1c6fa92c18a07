/** What holds of a pending-mint buffer after any sequence of instructions. */
module MintBufferRuns {
  import opened Bytes
  import opened Hashing
  import opened Mints
  import opened MintBuffer

  /** An account with the history of groups inserted since it was last emptied. */
  datatype Monitored = Monitored(account: Account, inserted: map<nat, Bytes>)

  const UNALLOCATED: Monitored := Monitored(Missing, map[])

  function Observe(m: Monitored, i: Instruction, a: Account): Monitored {
    match i
    case Setup(_, _) => Monitored(a, map[])
    case Reinit(_, _, _) => Monitored(a, map[])
    case Unlock(_) => Monitored(a, map[])
    case Insert(_, group, data, _) => Monitored(a, m.inserted[group as nat := data])
    case _ => Monitored(a, m.inserted)
  }

  /** One transaction; a failed one changes nothing. */
  function Transact(h: Hash, m: Monitored, i: Instruction): Monitored {
    match Step(h, m.account, i)
    case Ok(a) => Observe(m, i, a)
    case Err(_) => m
  }

  /** One transaction on the account at an address: a set-up that names another writer is refused. */
  function TransactAt(h: Hash, bufferOf: Key -> Key, addr: Key, m: Monitored, i: Instruction): Monitored {
    if StepAt(h, bufferOf, addr, m.account, i).Ok? then Transact(h, m, i) else m
  }

  function Run(h: Hash, m: Monitored, ix: seq<Instruction>): Monitored
    decreases |ix|
  {
    if |ix| == 0 then m else Run(h, Transact(h, m, ix[0]), ix[1..])
  }

  // ---- The invariant of every run ----

  /** Mints inserted into groups 0..n. */
  function Filled(inserted: map<nat, Bytes>, n: nat): nat {
    if n == 0 then 0
    else Filled(inserted, n - 1) + if n - 1 in inserted then |inserted[n - 1]| / 40 else 0
  }

  /** Group g was inserted as d, d is still in its place and its hash in its slot. */
  ghost predicate InPlace(h: Hash, groups: nat, body: Bytes, g: nat, d: Bytes) {
    && g < groups
    && |d| % 40 == 0
    && |d| <= 960
    && 32 * groups + 960 * g + |d| <= |body|
    && body[32 * g..32 * g + 32] == h(d)
    && body[32 * groups + 960 * g..32 * groups + 960 * g + |d|] == d
  }

  ghost predicate AllInPlace(h: Hash, groups: nat, body: Bytes, inserted: map<nat, Bytes>) {
    forall g :: g in inserted ==> InPlace(h, groups, body, g, inserted[g])
  }

  ghost predicate FillingParts(h: Hash, hd: Header, body: Bytes, inserted: map<nat, Bytes>) {
    && hd.groups == GroupCount(hd.count)
    && |body| <= 32 * hd.groups + 40 * hd.count
    && AllInPlace(h, hd.groups, body, inserted)
    && hd.initialized == Filled(inserted, hd.groups)
  }

  ghost predicate Filling(h: Hash, m: Monitored)
    requires m.account.Buffer?
  {
    FillingParts(h, m.account.header, m.account.body, m.inserted)
  }

  ghost predicate Emptied(m: Monitored)
    requires m.account.Buffer?
  {
    m.account.header.groups == 0 && m.account.header.initialized == 0 && m.inserted == map[]
  }

  ghost predicate Invariant(h: Hash, m: Monitored) {
    if m.account.Missing? then m.inserted == map[]
    else
      && (Emptied(m) || Filling(h, m))
      && (m.account.header.isLocked != 0 ==> m.account.header.initialized == m.account.header.count)
  }

  lemma {:induction false} FilledNone(n: nat)
    ensures Filled(map[], n) == 0
  {
    if n > 0 { FilledNone(n - 1); }
  }

  lemma {:induction false} FilledInsert(inserted: map<nat, Bytes>, g: nat, d: Bytes, n: nat)
    requires g !in inserted
    ensures Filled(inserted[g := d], n) == Filled(inserted, n) + if g < n then |d| / 40 else 0
  {
    if n > 0 { FilledInsert(inserted, g, d, n - 1); }
  }

  ghost predicate WithinCapacity(count: nat, inserted: map<nat, Bytes>) {
    forall g :: g in inserted
        ==> |inserted[g]| % 40 == 0 && |inserted[g]| <= 960 && 960 * g + |inserted[g]| <= 40 * count
  }

  ghost predicate AllFull(count: nat, inserted: map<nat, Bytes>, n: nat) {
    forall g {:trigger g in inserted} :: 0 <= g < n
        ==> g in inserted && |inserted[g]| == 40 * (GroupEnd(count, g) - 24 * g)
  }

  /** The counters of groups 0..n add up to their joint capacity exactly when every group is full. */
  lemma {:induction false} FullByCounting(count: nat, inserted: map<nat, Bytes>, n: nat)
    requires n <= GroupCount(count)
    requires WithinCapacity(count, inserted)
    ensures Filled(inserted, n) <= Min(24 * n, count)
    ensures Filled(inserted, n) == Min(24 * n, count) <==> AllFull(count, inserted, n)
  {
    if n > 0 {
      FullByCounting(count, inserted, n - 1);
      if n - 1 in inserted {
        assert |inserted[n - 1]| / 40 <= Min(24 * n, count) - 24 * (n - 1);
      }
    }
  }

  lemma InPlaceWithinCapacity(h: Hash, count: nat, groups: nat, body: Bytes, inserted: map<nat, Bytes>)
    requires |body| <= 32 * groups + 40 * count
    requires AllInPlace(h, groups, body, inserted)
    ensures WithinCapacity(count, inserted)
  {
    forall g | g in inserted
      ensures |inserted[g]| % 40 == 0 && |inserted[g]| <= 960 && 960 * g + |inserted[g]| <= 40 * count
    {
      assert InPlace(h, groups, body, g, inserted[g]);
    }
  }

  /** Growth keeps what is in place. */
  lemma InPlaceAfterGrowth(h: Hash, groups: nat, body: Bytes, body': Bytes, g: nat, d: Bytes)
    requires InPlace(h, groups, body, g, d)
    requires |body| <= |body'| && body'[..|body|] == body
    ensures InPlace(h, groups, body', g, d)
  {
    var start := 32 * groups + 960 * g;
    SliceOfSlice(body', 0, |body|, 32 * g, 32 * g + 32);
    SliceOfSlice(body', 0, |body|, start, start + |d|);
  }

  lemma AllInPlaceAfterGrowth(h: Hash, groups: nat, body: Bytes, body': Bytes, inserted: map<nat, Bytes>)
    requires AllInPlace(h, groups, body, inserted)
    requires |body| <= |body'| && body'[..|body|] == body
    ensures AllInPlace(h, groups, body', inserted)
  {
    forall g | g in inserted
      ensures InPlace(h, groups, body', g, inserted[g])
    {
      InPlaceAfterGrowth(h, groups, body, body', g, inserted[g]);
    }
  }

  function Written(h: Hash, groups: nat, body: Bytes, g: nat, d: Bytes): (r: Bytes)
    requires g < groups && |d| <= 960 && 32 * groups + 960 * g + |d| <= |body|
    ensures |r| == |body|
  {
    Overwrite(Overwrite(body, 32 * g, h(d)), 32 * groups + 960 * g, d)
  }

  /** Writing one group leaves every other inserted group in place. */
  lemma OthersStayInPlace(h: Hash, groups: nat, body: Bytes, g: nat, d: Bytes, k: nat, e: Bytes)
    requires g < groups && |d| <= 960 && 32 * groups + 960 * g + |d| <= |body|
    requires InPlace(h, groups, body, k, e) && k != g
    ensures InPlace(h, groups, Written(h, groups, body, g, d), k, e)
  {
    var hashed := Overwrite(body, 32 * g, h(d));
    var start, from := 32 * groups + 960 * g, 32 * groups + 960 * k;
    OverwriteElsewhere(body, 32 * g, h(d), 32 * k, 32 * k + 32);
    OverwriteElsewhere(hashed, start, d, 32 * k, 32 * k + 32);
    OverwriteElsewhere(body, 32 * g, h(d), from, from + |e|);
    OverwriteElsewhere(hashed, start, d, from, from + |e|);
  }

  lemma WrittenInPlace(h: Hash, groups: nat, body: Bytes, g: nat, d: Bytes)
    requires g < groups && |d| % 40 == 0 && |d| <= 960 && 32 * groups + 960 * g + |d| <= |body|
    ensures InPlace(h, groups, Written(h, groups, body, g, d), g, d)
  {
    var hashed := Overwrite(body, 32 * g, h(d));
    OverwriteElsewhere(hashed, 32 * groups + 960 * g, d, 32 * g, 32 * g + 32);
  }

  /** A slot that still reads zero was not inserted, as no digest is zero. */
  lemma ZeroSlotIsFree(h: Hash, groups: nat, body: Bytes, inserted: map<nat, Bytes>, g: nat)
    requires NeverZero(h) && AllInPlace(h, groups, body, inserted)
    requires 32 * g + 32 <= |body| && body[32 * g..32 * g + 32] == ZERO32
    ensures g !in inserted
  {
    assert g in inserted ==> InPlace(h, groups, body, g, inserted[g]);
  }

  lemma AllInPlaceAfterWrite(h: Hash, groups: nat, body: Bytes, inserted: map<nat, Bytes>, g: nat, d: Bytes)
    requires g < groups && |d| % 40 == 0 && |d| <= 960 && 32 * groups + 960 * g + |d| <= |body|
    requires AllInPlace(h, groups, body, inserted)
    ensures AllInPlace(h, groups, Written(h, groups, body, g, d), inserted[g := d])
  {
    var inserted' := inserted[g := d];
    forall k | k in inserted'
      ensures InPlace(h, groups, Written(h, groups, body, g, d), k, inserted'[k])
    {
      if k == g {
        WrittenInPlace(h, groups, body, g, d);
      } else {
        OthersStayInPlace(h, groups, body, g, d, k, inserted[k]);
      }
    }
  }

  /** An accepted insert writes its own slot and its own records and nothing else. */
  lemma InsertGroupWrites(h: Hash, hd: Header, body: Bytes, group: u16, data: Bytes)
    requires hd.groups == GroupCount(hd.count)
    requires InsertGroup(h, hd, body, group, data).Ok?
    ensures group < hd.groups && |data| % 40 == 0 && |data| <= 960
    ensures 32 * hd.groups + 960 * group + |data| <= |body|
    ensures body[32 * group..32 * group + 32] == ZERO32
    ensures var a := InsertGroup(h, hd, body, group, data).value;
            && a.body == Written(h, hd.groups, body, group, data)
            && a.header == hd.(initialized := (hd.initialized + |data| / 40) % 0x1_0000)
  {
    assert group * 24 % 0x1_0000 == group * 24;
  }

  lemma WriteKeepsFilling(h: Hash, hd: Header, body: Bytes, inserted: map<nat, Bytes>, g: nat, data: Bytes)
    requires FillingParts(h, hd, body, inserted) && g !in inserted
    requires g < hd.groups && |data| % 40 == 0 && |data| <= 960 && 32 * hd.groups + 960 * g + |data| <= |body|
    ensures hd.initialized + |data| / 40 <= U16_MAX
    ensures FillingParts(h, hd.(initialized := hd.initialized + |data| / 40), Written(h, hd.groups, body, g, data),
            inserted[g := data])
  {
    var body', inserted' := Written(h, hd.groups, body, g, data), inserted[g := data];
    AllInPlaceAfterWrite(h, hd.groups, body, inserted, g, data);
    FilledInsert(inserted, g, data, hd.groups);
    InPlaceWithinCapacity(h, hd.count, hd.groups, body', inserted');
    FullByCounting(hd.count, inserted', hd.groups);
  }

  lemma InsertGroupKeepsFilling(h: Hash, hd: Header, body: Bytes, inserted: map<nat, Bytes>, group: u16, data: Bytes)
    requires NeverZero(h) && FillingParts(h, hd, body, inserted)
    requires InsertGroup(h, hd, body, group, data).Ok?
    ensures var a := InsertGroup(h, hd, body, group, data).value;
            FillingParts(h, a.header, a.body, inserted[group as nat := data])
  {
    InsertGroupWrites(h, hd, body, group, data);
    ZeroSlotIsFree(h, hd.groups, body, inserted, group);
    WriteKeepsFilling(h, hd, body, inserted, group, data);
  }

  lemma InsertKeepsInvariant(h: Hash, m: Monitored, signer: Key, group: u16, data: Bytes, exposed: Bytes)
    requires NeverZero(h) && Invariant(h, m) && m.account.Buffer?
    requires InsertStep(h, m.account, signer, group, data, exposed).Ok?
    ensures Invariant(h, Transact(h, m, Insert(signer, group, data, exposed)))
  {
    var hd, body := m.account.header, GrownBody(m.account, exposed);
    AllInPlaceAfterGrowth(h, hd.groups, m.account.body, body, m.inserted);
    InsertGroupKeepsFilling(h, hd, body, m.inserted, group, data);
  }

  lemma TransactKeepsInvariant(h: Hash, m: Monitored, i: Instruction)
    requires NeverZero(h) && Invariant(h, m)
    ensures Invariant(h, Transact(h, m, i))
  {
    if Step(h, m.account, i).Ok? {
      match i {
        case Reinit(signer, count, exposed) =>
          WrappingGroupCountExact(count);
          FilledNone(WrappingGroupCount(count));
        case Resize(signer, exposed) =>
          var a := m.account;
          if Filling(h, m) {
            var body := ResizeStep(a, signer, exposed).value.body;
            AllInPlaceAfterGrowth(h, a.header.groups, a.body, body, m.inserted);
          }
        case Insert(signer, group, data, exposed) =>
          InsertKeepsInvariant(h, m, signer, group, data, exposed);
        case _ =>
      }
    }
  }

  lemma {:induction false} RunKeepsInvariant(h: Hash, m: Monitored, ix: seq<Instruction>)
    requires NeverZero(h) && Invariant(h, m)
    ensures Invariant(h, Run(h, m, ix))
    decreases |ix|
  {
    if |ix| > 0 {
      TransactKeepsInvariant(h, m, ix[0]);
      RunKeepsInvariant(h, Transact(h, m, ix[0]), ix[1..]);
    }
  }

  // ---- A locked buffer is complete ----

  lemma GroupInPlace(h: Hash, n: nat, body: Bytes, g: nat, d: Bytes)
    requires g < GroupCount(n) && |body| == 32 * GroupCount(n) + 40 * n
    requires InPlace(h, GroupCount(n), body, g, d) && |d| == 40 * (GroupEnd(n, g) - 24 * g)
    ensures var ms := ParseMintList(body[32 * GroupCount(n)..]);
            && d == MintListBytes(Group(ms, g))
            && body[..32 * GroupCount(n)][32 * g..32 * g + 32] == h(MintListBytes(Group(ms, g)))
  {
    var groups := GroupCount(n);
    var records := body[32 * groups..];
    var ms := ParseMintList(records);
    MintListBytesOfParse(records);
    GroupBounds(n, g);
    GroupBytes(ms, g);
    SliceOfSlice(body, 32 * groups, |body|, 960 * g, 40 * GroupEnd(n, g));
    SliceOfSlice(body, 0, 32 * groups, 32 * g, 32 * g + 32);
  }

  /** Group g was inserted, as the records of group g of the buffer's list. */
  ghost predicate InsertedAsGroup(m: Monitored, g: nat)
    requires ExactLength(m.account) && g < GroupCount(m.account.header.count)
  {
    g in m.inserted && m.inserted[g] == MintListBytes(Group(MintsOf(m.account), g))
  }

  ghost predicate InsertedAsList(m: Monitored)
    requires ExactLength(m.account)
  {
    forall g: nat :: g < GroupCount(m.account.header.count) ==> InsertedAsGroup(m, g)
  }

  lemma FullLength(h: Hash, m: Monitored)
    requires m.account.Buffer? && Filling(h, m) && m.account.header.count > 0
    requires AllFull(m.account.header.count, m.inserted, m.account.header.groups)
    ensures ExactLength(m.account)
  {
    var last := m.account.header.groups - 1;
    assert last in m.inserted;
    assert InPlace(h, m.account.header.groups, m.account.body, last, m.inserted[last]);
    GroupBounds(m.account.header.count, last);
  }

  lemma FullGroups(h: Hash, m: Monitored)
    requires m.account.Buffer? && Filling(h, m) && ExactLength(m.account)
    requires AllFull(m.account.header.count, m.inserted, m.account.header.groups)
    ensures InsertedAsList(m)
    ensures m.account.body[..32 * m.account.header.groups]
            == GroupHashes(h, MintsOf(m.account), m.account.header.groups)
  {
    var groups: nat, body, ms := m.account.header.groups, m.account.body, MintsOf(m.account);
    var slots := body[..32 * groups];
    forall g: nat | g < groups
      ensures InsertedAsGroup(m, g)
      ensures slots[32 * g..32 * g + 32] == h(MintListBytes(Group(ms, g)))
    {
      assert g in m.inserted && InPlace(h, groups, body, g, m.inserted[g]);
      GroupInPlace(h, m.account.header.count, body, g, m.inserted[g]);
    }
    SlotsDetermineGroupHashes(h, ms, groups, slots);
  }

  lemma PartsMakeLayout(h: Hash, a: Account)
    requires ExactLength(a) && a.header.groups == GroupCount(a.header.count)
    requires a.body[..32 * a.header.groups] == GroupHashes(h, MintsOf(a), a.header.groups)
    ensures a.body == Layout(h, MintsOf(a))
  {
    var groups := a.header.groups;
    MintListBytesOfParse(a.body[32 * groups..]);
    assert a.body == a.body[..32 * groups] + a.body[32 * groups..];
  }

  /** Full groups in place make up the whole layout. */
  lemma FullIsComplete(h: Hash, m: Monitored)
    requires m.account.Buffer? && Filling(h, m) && m.account.header.count > 0
    requires AllFull(m.account.header.count, m.inserted, m.account.header.groups)
    ensures Complete(h, m.account) && InsertedAsList(m)
  {
    FullLength(h, m);
    FullGroups(h, m);
    PartsMakeLayout(h, m.account);
  }

  ghost predicate EveryGroupInserted(m: Monitored)
    requires m.account.Buffer?
  {
    && m.account.header.groups == GroupCount(m.account.header.count)
    && AllFull(m.account.header.count, m.inserted, m.account.header.groups)
  }

  /**
   In a reachable state the comparison of two counters accepts a Lock exactly when every
   group was inserted, once and at full size.
   */
  lemma CounterMeansEveryGroup(h: Hash, m: Monitored)
    requires Invariant(h, m) && m.account.Buffer?
    ensures m.account.header.initialized == m.account.header.count <==> EveryGroupInserted(m)
    ensures m.account.header.initialized == m.account.header.count ==> Complete(h, m.account)
  {
    var hd := m.account.header;
    if Filling(h, m) {
      InPlaceWithinCapacity(h, hd.count, hd.groups, m.account.body, m.inserted);
      FullByCounting(hd.count, m.inserted, hd.groups);
      if hd.initialized == hd.count && hd.count > 0 {
        FullIsComplete(h, m);
      }
    }
  }

  /**
   Whatever was done to an account before, Lock succeeds exactly for its locker on an
   unlocked buffer holding every group; the locked buffer then is, byte for byte, the group
   hashes and records of one mint list, and each group is what was inserted for it.
   */
  lemma LockIffComplete(h: Hash, ix: seq<Instruction>, signer: Key)
    requires NeverZero(h)
    ensures var m := Run(h, UNALLOCATED, ix);
            && (Step(h, m.account, Lock(signer)).Ok? <==>
                m.account.Buffer? && m.account.header.isLocked == 0 && m.account.header.locker == signer
                    && EveryGroupInserted(m))
            && (Step(h, m.account, Lock(signer)).Ok? ==>
                  && Complete(h, m.account)
                  && (m.account.header.count > 0 ==> InsertedAsList(m)))
  {
    RunKeepsInvariant(h, UNALLOCATED, ix);
    var m := Run(h, UNALLOCATED, ix);
    if m.account.Buffer? {
      CounterMeansEveryGroup(h, m);
      if Step(h, m.account, Lock(signer)).Ok? && m.account.header.count > 0 {
        FullIsComplete(h, m);
      }
    }
  }

  /**
   No group is inserted twice: an accepted insert names a group that was not inserted since the
   account was last emptied.
   */
  lemma NoGroupTwice(h: Hash, ix: seq<Instruction>, i: Instruction)
    requires NeverZero(h) && i.Insert? && Step(h, Run(h, UNALLOCATED, ix).account, i).Ok?
    ensures i.group as nat !in Run(h, UNALLOCATED, ix).inserted
  {
    RunKeepsInvariant(h, UNALLOCATED, ix);
    AcceptedInsertIsNew(h, Run(h, UNALLOCATED, ix), i);
  }

  lemma AcceptedInsertIsNew(h: Hash, m: Monitored, i: Instruction)
    requires NeverZero(h) && Invariant(h, m) && m.account.Buffer? && i.Insert?
    requires InsertStep(h, m.account, i.signer, i.group, i.data, i.exposed).Ok?
    ensures i.group as nat !in m.inserted
  {
    var hd, body := m.account.header, GrownBody(m.account, i.exposed);
    if Filling(h, m) {
      AllInPlaceAfterGrowth(h, hd.groups, m.account.body, body, m.inserted);
      InsertGroupWrites(h, hd, body, i.group, i.data);
      ZeroSlotIsFree(h, hd.groups, body, m.inserted, i.group);
    }
  }

  /** In every reachable state a locked buffer is complete. */
  lemma LockedIsComplete(h: Hash, m: Monitored)
    requires Invariant(h, m) && m.account.Buffer? && m.account.header.isLocked != 0
    ensures Complete(h, m.account)
  {
    CounterMeansEveryGroup(h, m);
  }

  // ---- Frozen while locked ----

  /**
   No instruction sequence changes a locked buffer, header or bytes, unless its locker
   unlocks it. The exception is a buffer whose locker is the all-zero key.
   */
  lemma {:induction false} FrozenWhileLocked(h: Hash, m: Monitored, ix: seq<Instruction>)
    requires m.account.Buffer? && m.account.header.isLocked != 0
    requires m.account.header.locker != ZERO32
    requires forall i :: i in ix ==> i != Unlock(m.account.header.locker)
    ensures Run(h, m, ix) == m
    decreases |ix|
  {
    if |ix| > 0 {
      assert ix[0] in ix;
      assert Transact(h, m, ix[0]) == m;
      assert forall i :: i in ix[1..] ==> i in ix;
      FrozenWhileLocked(h, m, ix[1..]);
    }
  }

  /** With the all-zero locker a Setup replaces the header of a locked buffer. */
  lemma ZeroLockerIsNotFrozen(h: Hash, m: Monitored, locker: Key, writer: Key)
    requires m.account.Buffer? && m.account.header.isLocked != 0
    ensures m.account.header.locker == ZERO32 <==> Transact(h, m, Setup(locker, writer)) != m
  {
  }

  // ---- Who may change a buffer, and how ----

  /** A buffer nobody claimed yet: its account is new or its locker is the all-zero key. */
  predicate IsVacant(a: Account) {
    a.Missing? || a.header.locker == ZERO32
  }

  /**
   Every instruction that changes an account comes from the one it belongs to: the writer while
   it is unlocked, the locker to lock and unlock it, anyone to set up a vacant one. Locker
   and writer are fixed from then on.
   */
  lemma ChangesAreAuthorized(h: Hash, a: Account, i: Instruction)
    requires Step(h, a, i).Ok? && Step(h, a, i).value != a
    ensures match i
            case Setup(_, _) => IsVacant(a)
            case Reinit(signer, _, _) => a.Buffer? && signer == a.header.writer && a.header.isLocked == 0
            case Resize(signer, _) => a.Buffer? && signer == a.header.writer && a.header.isLocked == 0
            case Insert(signer, _, _, _) => a.Buffer? && signer == a.header.writer && a.header.isLocked == 0
            case Lock(signer) => a.Buffer? && signer == a.header.locker && a.header.isLocked == 0
            case Unlock(signer) => a.Buffer? && signer == a.header.locker && a.header.isLocked != 0
    ensures var b := Step(h, a, i).value;
            b.Buffer? && if i.Setup? then b.header == Header(i.locker, i.writer, 0, 0, 0, 0, 0)
                         else b.header.locker == a.header.locker && b.header.writer == a.header.writer
  {
  }

  /** Unlocking leaves an empty buffer of the same owners, which its locker can lock again at once. */
  lemma UnlockEmpties(h: Hash, a: Account, signer: Key)
    requires Step(h, a, Unlock(signer)).Ok?
    ensures var b := Step(h, a, Unlock(signer)).value;
            && a.Buffer?
            && b == Buffer(Header(a.header.locker, a.header.writer, 0, a.header.mode, 0, 0, 0), a.body)
            && Step(h, b, Lock(signer)).Ok?
  {
  }

  /**
   A writer can resize an unlocked buffer exactly if it is not too long, and brings it one step
   closer to its full length.
   */
  lemma ResizeGrows(h: Hash, a: Account, signer: Key, exposed: Bytes)
    requires a.Buffer?
    ensures var full := 32 * a.header.groups + 40 * a.header.count;
            Step(h, a, Resize(signer, exposed)).Ok?
            <==> signer == a.header.writer && a.header.isLocked == 0 && |a.body| <= full
    ensures Step(h, a, Resize(signer, exposed)).Ok? ==>
              var b, full := Step(h, a, Resize(signer, exposed)).value, 32 * a.header.groups + 40 * a.header.count;
              && b.header == a.header && a.body <= b.body
              && |b.body| == Min(full, |a.body| + MAX_INCREASE)
  {
  }

  // ---- The client's upload ----

  const DRAINABLE_MINTS: int := 6144

  /** Up to here the buffer program counts groups right. */
  const COUNTABLE_MINTS: int := 65_512

  /** Up to here, groups inserted in order always find the body grown far enough. */
  const IN_ORDER_MINTS: int := 14_640

  ghost predicate IsInsertOf(i: Instruction, writer: Key, ms: seq<PendingMint>, g: nat)
    requires g < GroupCount(|ms|)
  {
    i.Insert? && i.signer == writer && i.group == g && i.data == MintListBytes(Group(ms, g))
  }

  /** Inserts of groups of the list, in the order given. */
  ghost predicate InsertsOf(ix: seq<Instruction>, writer: Key, ms: seq<PendingMint>, order: seq<nat>) {
    && |ix| == |order|
    && forall j: nat :: j < |ix| ==> order[j] < GroupCount(|ms|) && IsInsertOf(ix[j], writer, ms, order[j])
  }

  /** Re-initialize for the list, then insert groups of it in the order given. */
  ghost predicate IsUpload(ix: seq<Instruction>, writer: Key, ms: seq<PendingMint>, order: seq<nat>) {
    && |ix| > 0 && ix[0].Reinit? && ix[0].signer == writer && ix[0].count == |ms|
    && InsertsOf(ix[1..], writer, ms, order)
  }

  /** Length of the hash area and records of n mints. */
  function FullBody(n: nat): nat {
    32 * GroupCount(n) + 40 * n
  }

  function GrownTo(n: nat, len: nat): nat {
    if len < FullBody(n) then Min(FullBody(n), len + MAX_INCREASE) else len
  }

  /** The body after a re-initialization for n mints. */
  function ReinitLength(n: nat, len: nat): nat {
    if FullBody(n) < len then FullBody(n) else GrownTo(n, len)
  }

  /** The body reaches the end of the records of group g. */
  predicate InReach(n: nat, g: nat, len: nat) {
    32 * GroupCount(n) + 40 * GroupEnd(n, g) <= len
  }

  /**
   The groups present after inserts in this order into a body of length len: an insert goes in
   exactly if its group is new and the body, grown by one step, reaches its end. Only an
   insert that goes in grows the body.
   */
  function Delivered(n: nat, len: nat, order: seq<nat>, done: set<nat>): set<nat>
    decreases |order|
  {
    if |order| == 0 then done
    else if order[0] !in done && InReach(n, order[0], GrownTo(n, len)) then
      Delivered(n, GrownTo(n, len), order[1..], done + {order[0]})
    else Delivered(n, len, order[1..], done)
  }

  /** The slot of group g is zero as far as the body reaches. */
  ghost predicate ClearSlot(body: Bytes, g: nat) {
    forall j :: 32 * g <= j < 32 * g + 32 && j < |body| ==> body[j] == 0
  }

  lemma SlotIsZero(body: Bytes, g: nat)
    requires 32 * g + 32 <= |body|
    ensures body[32 * g..32 * g + 32] == ZERO32 <==> ClearSlot(body, g)
  {
    var slot := body[32 * g..32 * g + 32];
    if ClearSlot(body, g) {
      assert forall j :: 0 <= j < 32 ==> slot[j] == 0;
    }
    if slot == ZERO32 {
      assert forall j :: 32 * g <= j < 32 * g + 32 ==> body[j] == slot[j - 32 * g];
    }
  }

  /** Growth exposes zeros only. */
  ghost predicate ExposesZeros(i: Instruction) {
    i.Insert? ==> forall k :: 0 <= k < |i.exposed| ==> i.exposed[k] == 0
  }

  /** All slots lie in the body already, or what growth will expose of them is zero. */
  ghost predicate SlotsSafe(ix: seq<Instruction>, n: nat, len: nat) {
    32 * GroupCount(n) <= len || forall j :: 0 <= j < |ix| ==> ExposesZeros(ix[j])
  }

  /** Re-initialization for up to 7680 mints brings all slots into the body. */
  lemma SmallSlotsSafe(ix: seq<Instruction>, n: nat, len: nat)
    requires 0 < n <= 7680
    ensures SlotsSafe(ix, n, ReinitLength(n, len))
  {
  }

  lemma GrowthKeepsClear(body: Bytes, len: nat, exposed: Bytes, k: nat)
    requires ClearSlot(body, k) && len >= |body|
    requires 32 * k + 32 <= |body| || forall j :: 0 <= j < |exposed| ==> exposed[j] == 0
    ensures ClearSlot(Reallocate(body, len, exposed), k)
  {
    var grown := Reallocate(body, len, exposed);
    assert forall j :: 0 <= j < |body| ==> grown[j] == body[j];
  }

  lemma GrowthKeepsOthersClear(h: Hash, m: Monitored, i: Instruction, ms: seq<PendingMint>, done: set<nat>)
    requires Uploaded(h, m, ms, done) && i.Insert? && SlotsSafe([i], |ms|, |m.account.body|)
    ensures OthersClear(GrownBody(m.account, i.exposed), ms, done)
  {
    assert 32 * GroupCount(|ms|) <= |m.account.body| || ExposesZeros([i][0]);
    forall k: nat | k < GroupCount(|ms|) && k !in done
      ensures ClearSlot(GrownBody(m.account, i.exposed), k)
    {
      GrowthKeepsClear(m.account.body, |GrownBody(m.account, i.exposed)|, i.exposed, k);
    }
  }

  ghost predicate RecordsIn(inserted: map<nat, Bytes>, ms: seq<PendingMint>, done: set<nat>) {
    && inserted.Keys == done
    && forall g :: g in inserted ==> g < GroupCount(|ms|) && inserted[g] == MintListBytes(Group(ms, g))
  }

  ghost predicate OthersClear(body: Bytes, ms: seq<PendingMint>, done: set<nat>) {
    forall g: nat :: g < GroupCount(|ms|) && g !in done ==> ClearSlot(body, g)
  }

  /** Exactly the groups of `done` are in, the slots of the others are clear. */
  ghost predicate Uploaded(h: Hash, m: Monitored, ms: seq<PendingMint>, done: set<nat>) {
    && Invariant(h, m) && m.account.Buffer? && Filling(h, m)
    && m.account.header.isLocked == 0
    && m.account.header.count == |ms|
    && RecordsIn(m.inserted, ms, done)
    && OthersClear(m.account.body, ms, done)
  }

  lemma ReinitStartsUpload(h: Hash, m: Monitored, i: Instruction, ms: seq<PendingMint>)
    requires NeverZero(h) && Invariant(h, m) && m.account.Buffer? && m.account.header.isLocked == 0
    requires 0 < |ms| <= COUNTABLE_MINTS
    requires i.Reinit? && i.signer == m.account.header.writer && i.count == |ms|
    ensures var m' := Transact(h, m, i);
            && Uploaded(h, m', ms, {})
            && |m'.account.body| == ReinitLength(|ms|, |m.account.body|)
            && m'.account.header == m.account.header.(count := |ms|, groups := GroupCount(|ms|), initialized := 0)
  {
    var m' := Transact(h, m, i);
    TransactKeepsInvariant(h, m, i);
    WrappingGroupCountExact(i.count);
    FilledNone(m'.account.header.groups);
    forall g: nat | g < GroupCount(|ms|)
      ensures ClearSlot(m'.account.body, g)
    {
      var cleared := Min(32 * GroupCount(|ms|), |m'.account.body|);
      assert m'.account.body[..cleared] == Zeros(cleared);
      assert forall j :: 0 <= j < cleared ==> m'.account.body[j] == m'.account.body[..cleared][j];
    }
  }

  /** A full group is accepted exactly if its records lie in the body and its slot is clear. */
  lemma InsertGroupAcceptedIff(h: Hash, hd: Header, body: Bytes, ms: seq<PendingMint>, g: nat)
    requires |ms| == hd.count && hd.groups == GroupCount(|ms|) && hd.isLocked == 0 && g < hd.groups
    ensures InsertGroup(h, hd, body, g, MintListBytes(Group(ms, g))).Ok?
            <==> InReach(|ms|, g, |body|) && ClearSlot(body, g)
  {
    GroupBounds(|ms|, g);
    assert g * 24 % 0x1_0000 == g * 24;
    if InReach(|ms|, g, |body|) {
      SlotIsZero(body, g);
    }
  }

  lemma GrownBodyLength(h: Hash, m: Monitored, ms: seq<PendingMint>, done: set<nat>, exposed: Bytes)
    requires Uploaded(h, m, ms, done)
    ensures |GrownBody(m.account, exposed)| == GrownTo(|ms|, |m.account.body|)
  {
  }

  /**
   While a list is being uploaded, inserting a group of it succeeds exactly if the group is
   not in yet and the body, grown by one step, reaches the end of its records.
   */
  lemma InsertAcceptedIff(h: Hash, m: Monitored, i: Instruction, ms: seq<PendingMint>, done: set<nat>, g: nat)
    requires NeverZero(h) && Uploaded(h, m, ms, done) && g < GroupCount(|ms|)
    requires IsInsertOf(i, m.account.header.writer, ms, g) && SlotsSafe([i], |ms|, |m.account.body|)
    ensures Step(h, m.account, i).Ok? <==> g !in done && InReach(|ms|, g, GrownTo(|ms|, |m.account.body|))
  {
    var body := GrownBody(m.account, i.exposed);
    GrownBodyLength(h, m, ms, done, i.exposed);
    InsertGroupAcceptedIff(h, m.account.header, body, ms, g);
    GrowthKeepsOthersClear(h, m, i, ms, done);
    if Step(h, m.account, i).Ok? {
      AcceptedInsertIsNew(h, m, i);
    }
  }

  /** Writing group g leaves the other slots as they are. */
  lemma OtherSlotStaysClear(h: Hash, groups: nat, body: Bytes, g: nat, d: Bytes, k: nat)
    requires g < groups && |d| <= 960 && 32 * groups + 960 * g + |d| <= |body|
    requires ClearSlot(body, k) && k < groups && k != g
    ensures ClearSlot(Written(h, groups, body, g, d), k)
  {
    SlotIsZero(body, k);
    SlotIsZero(Written(h, groups, body, g, d), k);
    OverwriteElsewhere(body, 32 * g, h(d), 32 * k, 32 * k + 32);
    OverwriteElsewhere(Overwrite(body, 32 * g, h(d)), 32 * groups + 960 * g, d, 32 * k, 32 * k + 32);
  }

  lemma UploadInsertStep(h: Hash, m: Monitored, i: Instruction, ms: seq<PendingMint>, done: set<nat>, g: nat)
    requires NeverZero(h) && Uploaded(h, m, ms, done) && g < GroupCount(|ms|)
    requires IsInsertOf(i, m.account.header.writer, ms, g) && Step(h, m.account, i).Ok?
    requires SlotsSafe([i], |ms|, |m.account.body|)
    ensures var m' := Transact(h, m, i);
            && Uploaded(h, m', ms, done + {g})
            && |m'.account.body| == GrownTo(|ms|, |m.account.body|)
            && m'.account.header == m.account.header.(initialized := m'.account.header.initialized)
  {
    var body := GrownBody(m.account, i.exposed);
    GrownBodyLength(h, m, ms, done, i.exposed);
    TransactKeepsInvariant(h, m, i);
    InsertShape(h, m, i);
    GrowthKeepsOthersClear(h, m, i, ms, done);
    SlotsAfterInsert(h, body, ms, done, g, i.data);
    RecordsAfterInsert(m.inserted, ms, done, g);
  }

  lemma InsertShape(h: Hash, m: Monitored, i: Instruction)
    requires m.account.Buffer? && m.account.header.groups == GroupCount(m.account.header.count)
    requires i.Insert? && Step(h, m.account, i).Ok?
    ensures var hd, body, m' := m.account.header, GrownBody(m.account, i.exposed), Transact(h, m, i);
            && i.group < hd.groups && |i.data| <= 960 && 32 * hd.groups + 960 * i.group + |i.data| <= |body|
            && m'.account.Buffer? && m'.account.body == Written(h, hd.groups, body, i.group, i.data)
            && m'.account.header == hd.(initialized := m'.account.header.initialized)
            && m'.inserted == m.inserted[i.group as nat := i.data]
  {
    InsertGroupWrites(h, m.account.header, GrownBody(m.account, i.exposed), i.group, i.data);
  }

  lemma SlotsAfterInsert(h: Hash, body: Bytes, ms: seq<PendingMint>, done: set<nat>, g: nat, d: Bytes)
    requires OthersClear(body, ms, done)
    requires g < GroupCount(|ms|) && |d| <= 960 && 32 * GroupCount(|ms|) + 960 * g + |d| <= |body|
    ensures OthersClear(Written(h, GroupCount(|ms|), body, g, d), ms, done + {g})
  {
    forall k: nat | k < GroupCount(|ms|) && k !in done + {g}
      ensures ClearSlot(Written(h, GroupCount(|ms|), body, g, d), k)
    {
      OtherSlotStaysClear(h, GroupCount(|ms|), body, g, d, k);
    }
  }

  lemma RecordsAfterInsert(inserted: map<nat, Bytes>, ms: seq<PendingMint>, done: set<nat>, g: nat)
    requires RecordsIn(inserted, ms, done) && g < GroupCount(|ms|)
    ensures RecordsIn(inserted[g := MintListBytes(Group(ms, g))], ms, done + {g})
  {
  }

  lemma InsertsOfTail(ix: seq<Instruction>, writer: Key, ms: seq<PendingMint>, order: seq<nat>)
    requires InsertsOf(ix, writer, ms, order) && |ix| > 0
    ensures order[0] < GroupCount(|ms|) && IsInsertOf(ix[0], writer, ms, order[0])
    ensures InsertsOf(ix[1..], writer, ms, order[1..])
  {
    forall j: nat | j < |ix[1..]|
      ensures order[1..][j] < GroupCount(|ms|) && IsInsertOf(ix[1..][j], writer, ms, order[1..][j])
    {
      assert IsInsertOf(ix[j + 1], writer, ms, order[j + 1]);
    }
  }

  lemma SafeTail(ix: seq<Instruction>, n: nat, len: nat)
    requires |ix| > 0 && SlotsSafe(ix, n, len)
    ensures SlotsSafe([ix[0]], n, len) && forall len' :: len' >= len ==> SlotsSafe(ix[1..], n, len')
  {
  }

  /** Inserts in any order, with repetitions and retries, leave exactly the delivered groups. */
  lemma {:induction false} InsertsDeliver(h: Hash, m: Monitored, ix: seq<Instruction>, ms: seq<PendingMint>,
          order: seq<nat>, done: set<nat>)
    requires NeverZero(h) && Uploaded(h, m, ms, done)
    requires InsertsOf(ix, m.account.header.writer, ms, order) && SlotsSafe(ix, |ms|, |m.account.body|)
    ensures var m' := Run(h, m, ix);
            && Uploaded(h, m', ms, Delivered(|ms|, |m.account.body|, order, done))
            && m'.account.header == m.account.header.(initialized := m'.account.header.initialized)
    decreases |ix|
  {
    if |ix| > 0 {
      InsertsOfTail(ix, m.account.header.writer, ms, order);
      SafeTail(ix, |ms|, |m.account.body|);
      InsertAcceptedIff(h, m, ix[0], ms, done, order[0]);
      if Step(h, m.account, ix[0]).Ok? {
        UploadInsertStep(h, m, ix[0], ms, done, order[0]);
        InsertsDeliver(h, Transact(h, m, ix[0]), ix[1..], ms, order[1..], done + {order[0]});
      } else {
        InsertsDeliver(h, m, ix[1..], ms, order[1..], done);
      }
    }
  }

  ghost predicate AllIn(n: nat, done: set<nat>) {
    forall g: nat :: g < GroupCount(n) ==> g in done
  }

  lemma AllInIsFull(inserted: map<nat, Bytes>, ms: seq<PendingMint>, done: set<nat>)
    requires RecordsIn(inserted, ms, done)
    ensures AllIn(|ms|, done) <==> AllFull(|ms|, inserted, GroupCount(|ms|))
  {
    forall g: nat | g < GroupCount(|ms|) && g in inserted
      ensures |inserted[g]| == 40 * (GroupEnd(|ms|, g) - 24 * g)
    {
      GroupBounds(|ms|, g);
    }
  }

  lemma UploadedAll(h: Hash, m: Monitored, ms: seq<PendingMint>, done: set<nat>)
    requires |ms| > 0 && Uploaded(h, m, ms, done) && AllIn(|ms|, done)
    ensures m.account.header.initialized == |ms| && m.account.body == Layout(h, ms)
  {
    AllInIsFull(m.inserted, ms, done);
    CounterMeansEveryGroup(h, m);
    FullIsComplete(h, m);
    var ms' := MintsOf(m.account);
    forall g: nat | g < GroupCount(|ms|)
      ensures MintListBytes(Group(ms', g)) == MintListBytes(Group(ms, g))
    {
      assert InsertedAsGroup(m, g);
    }
    EqualGroups(ms', ms);
  }

  /**
   A client upload of a list, from any unlocked buffer of its writer, in any order and whatever
   bytes growth exposes behind the slots: the buffer can be locked exactly if the list has at
   most 65512 mints and every group was delivered, and then it holds exactly that list.
   */
  lemma UploadDeliversIff(h: Hash, m: Monitored, ix: seq<Instruction>, ms: seq<PendingMint>, order: seq<nat>)
    requires NeverZero(h) && Invariant(h, m) && m.account.Buffer? && m.account.header.isLocked == 0
    requires |ms| > 0 && IsUpload(ix, m.account.header.writer, ms, order)
    requires SlotsSafe(ix[1..], |ms|, ReinitLength(|ms|, |m.account.body|))
    ensures var m', all := Run(h, m, ix), |ms| <= COUNTABLE_MINTS
            && AllIn(|ms|, Delivered(|ms|, ReinitLength(|ms|, |m.account.body|), order, {}));
            && Invariant(h, m')
            && m'.account.Buffer?
            && (LockStep(m'.account, m.account.header.locker).Ok? <==> all)
            && (all ==> m'.account == Buffer(m.account.header.(count := |ms|, groups := GroupCount(|ms|),
                initialized := |ms|), Layout(h, ms)))
  {
    if |ms| > COUNTABLE_MINTS {
      UncountableUpload(h, m, ix, ms, order);
    } else {
      CountableUpload(h, m, ix, ms, order);
    }
  }

  /** With a wrong group count of zero no insert is accepted. */
  lemma {:induction false} InsertsRefused(h: Hash, m: Monitored, ix: seq<Instruction>, writer: Key,
          ms: seq<PendingMint>, order: seq<nat>)
    requires m.account.Buffer? && m.account.header.groups == 0 && InsertsOf(ix, writer, ms, order)
    ensures Run(h, m, ix) == m
    decreases |ix|
  {
    if |ix| > 0 {
      InsertsOfTail(ix, writer, ms, order);
      InsertsRefused(h, m, ix[1..], writer, ms, order[1..]);
    }
  }

  lemma UncountableUpload(h: Hash, m: Monitored, ix: seq<Instruction>, ms: seq<PendingMint>, order: seq<nat>)
    requires NeverZero(h) && Invariant(h, m) && m.account.Buffer? && m.account.header.isLocked == 0
    requires |ms| > COUNTABLE_MINTS && IsUpload(ix, m.account.header.writer, ms, order)
    ensures var m' := Run(h, m, ix);
            Invariant(h, m') && m'.account.Buffer? && LockStep(m'.account, m.account.header.locker).Err?
  {
    var m1 := Transact(h, m, ix[0]);
    WrappingGroupCountExact(ix[0].count);
    TransactKeepsInvariant(h, m, ix[0]);
    InsertsRefused(h, m1, ix[1..], m.account.header.writer, ms, order);
  }

  lemma CountableUpload(h: Hash, m: Monitored, ix: seq<Instruction>, ms: seq<PendingMint>, order: seq<nat>)
    requires NeverZero(h) && Invariant(h, m) && m.account.Buffer? && m.account.header.isLocked == 0
    requires 0 < |ms| <= COUNTABLE_MINTS && IsUpload(ix, m.account.header.writer, ms, order)
    requires SlotsSafe(ix[1..], |ms|, ReinitLength(|ms|, |m.account.body|))
    ensures var m', all := Run(h, m, ix), AllIn(|ms|, Delivered(|ms|, ReinitLength(|ms|, |m.account.body|), order, {}));
            && Invariant(h, m')
            && m'.account.Buffer?
            && (LockStep(m'.account, m.account.header.locker).Ok? <==> all)
            && (all ==> m'.account == Buffer(m.account.header.(count := |ms|, groups := GroupCount(|ms|),
                initialized := |ms|), Layout(h, ms)))
  {
    ReinitStartsUpload(h, m, ix[0], ms);
    var m1 := Transact(h, m, ix[0]);
    InsertsDeliver(h, m1, ix[1..], ms, order, {});
    var m' := Run(h, m1, ix[1..]);
    var done := Delivered(|ms|, |m1.account.body|, order, {});
    AllInIsFull(m'.inserted, ms, done);
    CounterMeansEveryGroup(h, m');
    if AllIn(|ms|, done) {
      UploadedAll(h, m', ms, done);
    }
  }

  // ---- In order ----

  function Upwards(k: nat, n: nat): (s: seq<nat>)
    requires k <= n
    ensures |s| == n - k && forall j :: 0 <= j < |s| ==> s[j] == k + j
  {
    seq(n - k, j requires 0 <= j < n - k => k + j)
  }

  lemma GroupFits(n: nat, k: nat, len: nat)
    requires 0 < n <= IN_ORDER_MINTS && k < GroupCount(n) && len >= Min(FullBody(n), MAX_INCREASE * (k + 1))
    ensures InReach(n, k, GrownTo(n, len)) && GrownTo(n, len) >= Min(FullBody(n), MAX_INCREASE * (k + 2))
  {
  }

  lemma {:induction false} InOrderDelivers(n: nat, len: nat, k: nat, done: set<nat>)
    requires 0 < n <= IN_ORDER_MINTS && k <= GroupCount(n) && len >= Min(FullBody(n), MAX_INCREASE * (k + 1))
    requires forall g: nat :: g in done <==> g < k
    ensures AllIn(n, Delivered(n, len, Upwards(k, GroupCount(n)), done))
    decreases GroupCount(n) - k
  {
    if k < GroupCount(n) {
      GroupFits(n, k, len);
      assert Upwards(k, GroupCount(n))[1..] == Upwards(k + 1, GroupCount(n));
      InOrderDelivers(n, GrownTo(n, len), k + 1, done + {k});
    }
  }

  /** Inserting the groups in order always delivers a list of up to 14640 mints. */
  lemma UploadDelivers(h: Hash, m: Monitored, ix: seq<Instruction>, ms: seq<PendingMint>)
    requires NeverZero(h) && Invariant(h, m) && m.account.Buffer? && m.account.header.isLocked == 0
    requires 0 < |ms| <= IN_ORDER_MINTS && IsUpload(ix, m.account.header.writer, ms, Upwards(0, GroupCount(|ms|)))
    requires SlotsSafe(ix[1..], |ms|, ReinitLength(|ms|, |m.account.body|))
    ensures var m' := Run(h, m, ix);
            && Invariant(h, m')
            && m'.account == Buffer(m.account.header.(count := |ms|, groups := GroupCount(|ms|),
                initialized := |ms|), Layout(h, ms))
            && LockStep(m'.account, m.account.header.locker).Ok?
  {
    InOrderDelivers(|ms|, ReinitLength(|ms|, |m.account.body|), 0, {});
    UploadDeliversIff(h, m, ix, ms, Upwards(0, GroupCount(|ms|)));
  }

  /**
   Inserted first, the last group of a list does not go in exactly if the body cannot grow to its
   full length at once.
   */
  lemma LastGroupFirstFails(n: nat, len: nat)
    requires n > 24
    ensures GroupCount(n) - 1 !in Delivered(n, len, [GroupCount(n) - 1], {}) <==> FullBody(n) > len + MAX_INCREASE
  {
    var g := GroupCount(n) - 1;
    GroupBounds(n, g);
    assert [g][1..] == [];
  }
}
