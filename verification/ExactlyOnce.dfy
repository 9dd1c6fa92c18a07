/** Which mints were made, and which are still owed: every activated list is minted exactly once. */
module ExactlyOnce {
  import opened Bytes
  import opened Hashing
  import opened Mints
  import opened MintBuffer
  import opened Tracker
  import opened Backlog
  import opened Headers
  import opened Bridge
  import opened System
  import opened Coupling
  import Txo = TxoBuffer

  // ---- Unclaimed records of a list ----

  function GroupIfUnclaimed(ms: seq<PendingMint>, claimed: set<nat>, g: nat): seq<PendingMint>
    requires g < GroupCount(|ms|)
  {
    if g in claimed then [] else Group(ms, g)
  }

  /** The records of the unclaimed groups among lo..hi. */
  function Unclaimed(ms: seq<PendingMint>, claimed: set<nat>, lo: nat, hi: nat): seq<PendingMint>
    requires lo <= hi <= GroupCount(|ms|)
    decreases hi
  {
    if lo == hi then [] else Unclaimed(ms, claimed, lo, hi - 1) + GroupIfUnclaimed(ms, claimed, hi - 1)
  }

  function Owed(ms: seq<PendingMint>, claimed: set<nat>): seq<PendingMint> {
    Unclaimed(ms, claimed, 0, GroupCount(|ms|))
  }

  lemma PrefixWithGroup(ms: seq<PendingMint>, g: nat)
    requires g < GroupCount(|ms|)
    ensures 24 * g <= |ms|
    ensures ms[..GroupEnd(|ms|, g)] == ms[..24 * g] + Group(ms, g)
  {
    GroupBounds(|ms|, g);
  }

  lemma {:induction false} NothingClaimed(ms: seq<PendingMint>, k: nat)
    requires k <= GroupCount(|ms|)
    ensures Unclaimed(ms, {}, 0, k) == ms[..Min(24 * k, |ms|)]
  {
    if k > 0 {
      NothingClaimed(ms, k - 1);
      PrefixWithGroup(ms, k - 1);
    }
  }

  /** Before the first claim the whole list is owed. */
  lemma AllOwed(ms: seq<PendingMint>)
    ensures Owed(ms, {}) == ms
  {
    NothingClaimed(ms, GroupCount(|ms|));
    assert ms[..|ms|] == ms;
  }

  lemma {:induction false} UnclaimedAround(ms: seq<PendingMint>, claimed: set<nat>, g: nat, hi: nat)
    requires g < hi <= GroupCount(|ms|)
    ensures Unclaimed(ms, claimed, 0, hi)
         == Unclaimed(ms, claimed, 0, g) + GroupIfUnclaimed(ms, claimed, g) + Unclaimed(ms, claimed, g + 1, hi)
  {
    if g + 1 < hi {
      UnclaimedAround(ms, claimed, g, hi - 1);
    }
  }

  lemma {:induction false} OtherClaimIrrelevant(ms: seq<PendingMint>, claimed: set<nat>, g: nat, lo: nat, hi: nat)
    requires lo <= hi <= GroupCount(|ms|) && (g < lo || hi <= g)
    ensures Unclaimed(ms, claimed + {g}, lo, hi) == Unclaimed(ms, claimed, lo, hi)
    decreases hi
  {
    if lo < hi {
      OtherClaimIrrelevant(ms, claimed, g, lo, hi - 1);
    }
  }

  lemma MiddleOut(a: seq<PendingMint>, b: seq<PendingMint>, c: seq<PendingMint>)
    ensures multiset(a + b + c) == multiset(a + [] + c) + multiset(b)
  {
    assert a + [] + c == a + c;
  }

  /** Claiming a group removes exactly its records from what is owed. */
  lemma OwedAfter(ms: seq<PendingMint>, claimed: set<nat>, g: nat)
    requires g < GroupCount(|ms|) && g !in claimed
    ensures multiset(Owed(ms, claimed)) == multiset(Owed(ms, claimed + {g})) + multiset(Group(ms, g))
  {
    var n := GroupCount(|ms|);
    UnclaimedAround(ms, claimed, g, n);
    UnclaimedAround(ms, claimed + {g}, g, n);
    OtherClaimIrrelevant(ms, claimed, g, 0, g);
    OtherClaimIrrelevant(ms, claimed, g, g + 1, n);
    MiddleOut(Unclaimed(ms, claimed, 0, g), Group(ms, g), Unclaimed(ms, claimed, g + 1, n));
  }

  lemma {:induction false} EverythingClaimed(ms: seq<PendingMint>, claimed: set<nat>, k: nat)
    requires k <= GroupCount(|ms|) && Below(k) <= claimed
    ensures Unclaimed(ms, claimed, 0, k) == []
  {
    if k > 0 {
      assert k - 1 in Below(k);
      EverythingClaimed(ms, claimed, k - 1);
    }
  }

  // ---- What a claim reads ----

  predicate PaysTo(ms: seq<PendingMint>, recipients: seq<Key>) {
    |ms| == |recipients| && forall i :: 0 <= i < |ms| ==> ms[i].recipient == recipients[i]
  }

  /** All records go to token accounts of the mint. */
  predicate SameMint(env: Env, mint: Key, ms: seq<PendingMint>) {
    forall i :: 0 <= i < |ms| ==> env.mintOf(ms[i].recipient) == Some(mint)
  }

  lemma SameMintIff(env: Env, mint: Key, ms: seq<PendingMint>, recipients: seq<Key>)
    requires PaysTo(ms, recipients)
    ensures SameMint(env, mint, ms) <==> AllOn(env, mint, recipients)
  {
  }

  /** Reading one record per recipient gives the records there, or fails on a wrong recipient. */
  lemma {:induction false} ReadMintsMeaning(mem: Bytes, offset: nat, ms: seq<PendingMint>, recipients: seq<Key>)
    requires |ms| == |recipients| && offset + 40 * |ms| <= |mem|
    requires mem[offset..offset + 40 * |ms|] == MintListBytes(ms)
    ensures ReadMints(mem, offset, recipients).Ok? <==> PaysTo(ms, recipients)
    ensures ReadMints(mem, offset, recipients).Ok? ==> ReadMints(mem, offset, recipients).value == ms
    decreases |ms|
  {
    if |ms| > 0 {
      var s := mem[offset..offset + 40 * |ms|];
      assert s[..40] == MintBytes(ms[0]) && s[..40] == mem[offset..offset + 40];
      assert s[40..] == MintListBytes(ms[1..]) && s[40..] == mem[offset + 40..offset + 40 + 40 * |ms[1..]|];
      ParseMintBytes(ms[0]);
      ReadMintsMeaning(mem, offset + 40, ms[1..], recipients[1..]);
      assert ms == [ms[0]] + ms[1..];
      assert PaysTo(ms, recipients) <==> ms[0].recipient == recipients[0] && PaysTo(ms[1..], recipients[1..]) by {
        if ms[0].recipient == recipients[0] && PaysTo(ms[1..], recipients[1..]) {
          forall i | 0 <= i < |ms|
            ensures ms[i].recipient == recipients[i]
          {
            if i > 0 {
              assert ms[1..][i - 1].recipient == recipients[1..][i - 1];
            }
          }
        }
      }
    }
  }

  lemma TailSlice(a: Bytes, b: Bytes, lo: nat, hi: nat)
    requires lo <= hi <= |b|
    ensures (a + b)[|a| + lo..|a| + hi] == b[lo..hi]
  {
  }

  lemma GroupInLayout(h: Hash, ms: seq<PendingMint>, g: nat)
    requires g < GroupCount(|ms|)
    ensures GroupEnd(|ms|, g) <= |ms| && 24 * g <= GroupEnd(|ms|, g)
    ensures var base := 32 * GroupCount(|ms|);
            Layout(h, ms)[base + 960 * g..base + 40 * GroupEnd(|ms|, g)] == MintListBytes(Group(ms, g))
  {
    var records := MintListBytes(ms);
    GroupBounds(|ms|, g);
    GroupBytes(ms, g);
    TailSlice(GroupHashes(h, ms, GroupCount(|ms|)), records, 960 * g, 40 * GroupEnd(|ms|, g));
  }

  /** A claim of group g of a complete buffer mints exactly that group, if the recipients are its recipients. */
  lemma {:induction false} ClaimReadsGroup(h: Hash, a: Account, g: nat, recipients: seq<Key>)
    requires Complete(h, a) && g < GroupCount(a.header.count)
    requires |recipients| == GroupEnd(a.header.count, g) - 24 * g
    ensures var r := ReadMints(Memory(a), 72 + 32 * GroupCount(a.header.count) + 960 * g, recipients);
            && (r.Ok? <==> PaysTo(Group(MintsOf(a), g), recipients))
            && (r.Ok? ==> r.value == Group(MintsOf(a), g))
  {
    var ms := MintsOf(a);
    var base: nat, end: nat := 32 * GroupCount(|ms|), GroupEnd(|ms|, g);
    GroupInLayout(h, ms, g);
    TailSlice(MintBuffer.HeaderBytes(a.header), a.body, base + 960 * g, base + 40 * end);
    ReadMintsMeaning(Memory(a), 72 + base + 960 * g, Group(ms, g), recipients);
  }

  // ---- The account of all mints ----

  function AllActivated(acts: seq<Activation>): multiset<PendingMint> {
    if |acts| == 0 then multiset{} else AllActivated(acts[..|acts| - 1]) + multiset(acts[|acts| - 1].mints)
  }

  /** What is still to be minted for the current block. */
  function StillOwed(s: System): seq<PendingMint> {
    var t := s.bridge.backlog.tracker;
    if !IsActive(s.bridge.backlog) then []
    else Owed(MintsHeld(AccountAt(s.buffers, t.account).account), Members(t.claimed))
  }

  /** The list recorded for an active block is the one its locked buffer holds. */
  predicate CurrentIsLast(s: System) {
    var m, acts := s.bridge.backlog, s.history.activated;
    IsActive(m) && m.index < m.count ==>
      |acts| > 0 && acts[|acts| - 1] == CurrentActivation(m, AccountAt(s.buffers, m.tracker.account).account)
  }

  /** Mints made and mints owed add up to the activated lists. */
  ghost predicate Accounted(s: System) {
    && CurrentIsLast(s)
    && multiset(s.history.minted) + multiset(StillOwed(s)) == AllActivated(s.history.activated)
  }

  lemma AppendActivation(acts: seq<Activation>, a: Activation)
    ensures AllActivated(acts + [a]) == AllActivated(acts) + multiset(a.mints)
  {
    assert (acts + [a])[..|acts|] == acts;
  }

  /** Activating a block adds its list to both sides. */
  lemma ActivationAccounted(env: Env, s: System, s': System)
    requires Accounted(s) && !IsActive(s.bridge.backlog)
    requires var m' := s'.bridge.backlog; IsActive(m') && m'.index < m'.count && Members(m'.tracker.claimed) == {}
    requires s'.history.minted == s.history.minted
    requires var m' := s'.bridge.backlog;
             s'.history.activated == s.history.activated
                 + [CurrentActivation(m', AccountAt(s'.buffers, m'.tracker.account).account)]
    ensures Accounted(s')
  {
    var m' := s'.bridge.backlog;
    var a := CurrentActivation(m', AccountAt(s'.buffers, m'.tracker.account).account);
    AppendActivation(s.history.activated, a);
    AllOwed(a.mints);
  }

  lemma FreshHasNoClaims(m: Manager, addr: Key, count: u16)
    requires FreshlyActive(m, addr, count)
    ensures Members(m.tracker.claimed) == {}
  {
    NoBitsMembers();
  }

  lemma BlockUpdateKeepsAccounted(env: Env, s: System, proof: Bytes, next: BridgeHeader, addr: Key, owner: Key)
    requires Sound(env) && Coupled(env, s.bridge.backlog, s.buffers) && Accounted(s)
    requires BlockUpdateStep(env, s, proof, next, addr, owner).Ok?
    ensures Accounted(BlockUpdateStep(env, s, proof, next, addr, owner).value)
  {
    DrainedIsIdle(env, s.bridge.backlog, s.buffers);
    LockMeaning(env, s.buffers, addr);
    var locked: Buffers := LockAt(env, s.buffers, addr).value;
    LockedMemory(env, locked, addr);
    SingleLoads(env, s.bridge, proof, next, addr, locked[addr].account, TxoAt(s, owner));
    var s' := BlockUpdateStep(env, s, proof, next, addr, owner).value;
    if next.finalized.nextIndex != s.bridge.header.finalized.nextIndex {
      FreshlyActiveCoupled(env, s'.bridge.backlog, locked, addr, locked[addr].account.header.count);
      FreshHasNoClaims(s'.bridge.backlog, addr, locked[addr].account.header.count);
      ActivationAccounted(env, s, s');
    }
  }

  lemma ReorgKeepsAccounted(env: Env, s: System, proof: Bytes, next: BridgeHeader, extra: seq<Info>, addr: Key,
          owner: Key)
    requires Sound(env) && Coupled(env, s.bridge.backlog, s.buffers) && Accounted(s)
    requires ReorgStep(env, s, proof, next, extra, addr, owner).Ok? && IndexMovesWithDeposits(env, s, next, extra)
    ensures Accounted(ReorgStep(env, s, proof, next, extra, addr, owner).value)
  {
    DrainedIsIdle(env, s.bridge.backlog, s.buffers);
    LockMeaning(env, s.buffers, addr);
    var locked: Buffers := LockAt(env, s.buffers, addr).value;
    LockedMemory(env, locked, addr);
    ReorgLoads(env, s.bridge, proof, next, extra, addr, locked[addr].account, TxoAt(s, owner));
    var s' := ReorgStep(env, s, proof, next, extra, addr, owner).value;
    var items := ReorgItems(extra, next.finalized);
    if NextNonEmpty(env.h, items, 0) < |items| {
      FreshlyActiveCoupled(env, s'.bridge.backlog, locked, addr, locked[addr].account.header.count);
      FreshHasNoClaims(s'.bridge.backlog, addr, locked[addr].account.header.count);
      ActivationAccounted(env, s, s');
    }
  }

  lemma AdvanceKeepsAccounted(env: Env, s: System, addr: Key, txo: Txo.Account)
    requires Sound(env) && Coupled(env, s.bridge.backlog, s.buffers) && Accounted(s) && txo.Buffer?
    requires SetupNext(env.h, env.bridge, s.bridge.backlog, addr, MemoryAt(s.buffers, addr), txo).Ok?
    requires LockAt(env, s.buffers, addr).Ok?
    ensures var m1 := SetupNext(env.h, env.bridge, s.bridge.backlog, addr, MemoryAt(s.buffers, addr), txo).value;
            m1.index < m1.count && Accounted(Advanced(env, s, m1, addr))
  {
    AdvanceKeepsCoupled(env, s, addr, txo);
    LockMeaning(env, s.buffers, addr);
    var a := s.buffers[addr].account;
    LockedMemory(env, s.buffers, addr);
    SetupNextMeaning(env, s.bridge.backlog, addr, a, txo);
    var m1 := SetupNext(env.h, env.bridge, s.bridge.backlog, addr, MemoryAt(s.buffers, addr), txo).value;
    FreshHasNoClaims(m1, addr, a.header.count);
    ActivationAccounted(env, s, Advanced(env, s, m1, addr));
  }

  /** The step from s to s' minted group g of the active block to these recipients, all of this mint. */
  ghost predicate GroupMinted(env: Env, s: System, s': System, addr: Key, g: nat, recipients: seq<Key>, mint: Key) {
    var m := s.bridge.backlog;
    && IsActive(m) && addr == m.tracker.account && addr in s.buffers
    && HoldsCurrent(env, m, s.buffers[addr].account)
    && ClaimedGroup(m, s'.bridge.backlog, g)
    && var paid := Group(MintsOf(s.buffers[addr].account), g);
       && PaysTo(paid, recipients)
       && s'.bridge == s.bridge.(backlog := s'.bridge.backlog)
       && (IsActive(s'.bridge.backlog) ==> s'.buffers == s.buffers)
       && SameMint(env, mint, paid)
       && s'.history == s.history.(minted := s.history.minted + paid,
           paidOn := s.history.paidOn + Repeated(mint, |paid|), strayed := s'.history.strayed)
  }

  lemma {:induction false} ClaimParts(env: Env, s: System, addr: Key, group: u16, unlock: bool, recipients: seq<Key>,
          token: TokenCall)
    requires ClaimStep(env, s, s.bridge.backlog, false, addr, group, unlock, recipients, token).Ok?
    ensures Precheck(s.bridge.backlog, group, addr).Ok?
    ensures var s', c := ClaimStep(env, s, s.bridge.backlog, false, addr, group, unlock, recipients, token).value,
                         Precheck(s.bridge.backlog, group, addr).value;
            && c.canUnlock == unlock && c.size == |recipients|
            && var r := ReadMints(MemoryAt(s.buffers, addr), c.offset, recipients);
               && r.Ok?
               && s'.bridge == s.bridge.(backlog := c.next)
               && (!unlock ==> s'.buffers == s.buffers)
               && AllOn(env, token.mint, recipients)
               && s'.history == s.history.(minted := s.history.minted + r.value,
                   paidOn := s.history.paidOn + Repeated(token.mint, |r.value|), strayed := s'.history.strayed)
  {
  }

  /** The records read after an accepted precheck, while a block is active. */
  lemma {:induction false} ClaimedRecords(env: Env, m: Manager, a: Account, c: Claim, group: u16, recipients: seq<Key>)
    requires Consistent(m.tracker) && HoldsCurrent(env, m, a) && Precheck(m, group, m.tracker.account) == Ok(c)
    requires c.size == |recipients| && ReadMints(Memory(a), c.offset, recipients).Ok?
    ensures ClaimedGroup(m, c.next, group) && c.canUnlock == !IsActive(c.next)
    ensures PaysTo(Group(MintsOf(a), group), recipients)
    ensures ReadMints(Memory(a), c.offset, recipients) == Ok(Group(MintsOf(a), group))
  {
    PrecheckMeaning(m, group, m.tracker.account);
    ClaimReadsGroup(env.h, a, group, recipients);
  }

  lemma ClaimMintsGroup(env: Env, s: System, addr: Key, group: u16, unlock: bool, recipients: seq<Key>,
          token: TokenCall)
    requires Coupled(env, s.bridge.backlog, s.buffers)
    requires ClaimStep(env, s, s.bridge.backlog, false, addr, group, unlock, recipients, token).Ok?
    ensures GroupMinted(env, s,
            ClaimStep(env, s, s.bridge.backlog, false, addr, group, unlock, recipients, token).value, addr, group,
            recipients, token.mint)
  {
    ClaimParts(env, s, addr, group, unlock, recipients, token);
    var m, a := s.bridge.backlog, s.buffers[addr].account;
    LockedMemory(env, s.buffers, addr);
    ClaimedRecords(env, m, a, Precheck(m, group, addr).value, group, recipients);
    SameMintIff(env, token.mint, Group(MintsOf(a), group), recipients);
  }

  lemma ClaimMovesOwed(env: Env, m: Manager, m': Manager, a: Account, g: nat)
    requires IsActive(m) && Consistent(m.tracker) && HoldsCurrent(env, m, a) && ClaimedGroup(m, m', g)
    ensures multiset(Owed(MintsOf(a), Members(m.tracker.claimed)))
         == multiset(Group(MintsOf(a), g))
             + multiset(if IsActive(m') then Owed(MintsOf(a), Members(m'.tracker.claimed)) else [])
  {
    var ms := MintsOf(a);
    OwedAfter(ms, Members(m.tracker.claimed), g);
    if !IsActive(m') {
      RemainingZeroIffAllClaimed(m'.tracker);
      TotalGroupsMeaning(m'.tracker);
      EverythingClaimed(ms, Members(m'.tracker.claimed), GroupCount(|ms|));
    }
  }

  lemma Transfer(minted: seq<PendingMint>, paid: seq<PendingMint>, owed: seq<PendingMint>, rest: seq<PendingMint>,
          total: multiset<PendingMint>)
    requires multiset(minted) + multiset(owed) == total
    requires multiset(owed) == multiset(paid) + multiset(rest)
    ensures multiset(minted + paid) + multiset(rest) == total
  {
  }

  lemma ClaimKeepsCurrent(env: Env, s: System, s': System, addr: Key, g: nat, recipients: seq<Key>, mint: Key)
    requires CurrentIsLast(s) && GroupMinted(env, s, s', addr, g, recipients, mint)
    ensures CurrentIsLast(s')
    ensures var a := s.buffers[addr].account;
            && StillOwed(s) == Owed(MintsOf(a), Members(s.bridge.backlog.tracker.claimed))
            && StillOwed(s') == if IsActive(s'.bridge.backlog)
                then Owed(MintsOf(a), Members(s'.bridge.backlog.tracker.claimed)) else []
  {
  }

  /** A claim moves exactly its group from the owed to the minted. */
  lemma ClaimKeepsAccounted(env: Env, s: System, s': System, addr: Key, g: nat, recipients: seq<Key>, mint: Key)
    requires Coupled(env, s.bridge.backlog, s.buffers) && Accounted(s)
    requires GroupMinted(env, s, s', addr, g, recipients, mint)
    ensures Accounted(s')
  {
    ClaimKeepsCurrent(env, s, s', addr, g, recipients, mint);
    var a := s.buffers[addr].account;
    ClaimMovesOwed(env, s.bridge.backlog, s'.bridge.backlog, a, g);
    Transfer(s.history.minted, Group(MintsOf(a), g), StillOwed(s), StillOwed(s'), AllActivated(s.history.activated));
  }

  // ---- The mints of the records ----

  /** Every record was minted on the mint of its recipient's token account. */
  ghost predicate PaidInKind(env: Env, y: History) {
    && |y.paidOn| == |y.minted|
    && forall i :: 0 <= i < |y.minted| ==> env.mintOf(y.minted[i].recipient) == Some(y.paidOn[i])
  }

  lemma ClaimPaysInKind(env: Env, s: System, s': System, addr: Key, g: nat, recipients: seq<Key>, mint: Key)
    requires PaidInKind(env, s.history) && GroupMinted(env, s, s', addr, g, recipients, mint)
    ensures PaidInKind(env, s'.history)
  {
  }
}
