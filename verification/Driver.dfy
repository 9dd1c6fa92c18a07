/** The two client loops that claim the remaining groups of the active block in order. */
module Driver {
  import opened Bytes
  import opened Mints
  import opened MintBuffer
  import opened MintBufferRuns
  import opened Tracker
  import opened Backlog
  import opened Bridge
  import opened BridgeErrors
  import opened System
  import opened ExactlyOnce
  import opened Runs
  import opened Drain
  import opened DrainRuns

  /** The client has the list of the active block and the address of its buffer. */
  ghost predicate Knows(s: System, mints: seq<PendingMint>, addr: Key) {
    var t := s.bridge.backlog.tracker;
    IsActive(s.bridge.backlog) ==> addr == t.account && addr in s.buffers && MintsHeld(s.buffers[addr].account) == mints
  }

  /** The last group is still to be claimed, and the bitmap covers all groups. */
  ghost predicate EndsUnclaimed(t: Tracker) {
    t.total <= DRAINABLE_MINTS && GroupCount(t.total) - 1 !in Members(t.claimed)
  }

  /** Below g every group not yet claimed goes to token accounts of the mint. */
  ghost predicate PayableBelow(env: Env, mint: Key, mints: seq<PendingMint>, done: set<nat>, g: nat) {
    forall k: nat :: k < g && k < GroupCount(|mints|) && k !in done ==> SameMint(env, mint, Group(mints, k))
  }

  /** The groups are too many, the last one is claimed already, or one goes to other accounts. */
  ghost predicate BoundToFail(env: Env, mint: Key, mints: seq<PendingMint>, done: set<nat>) {
    GroupCount(|mints|) > 256 || GroupCount(|mints|) - 1 in done
        || !PayableBelow(env, mint, mints, done, GroupCount(|mints|))
  }

  lemma PayableShrinks(env: Env, mint: Key, mints: seq<PendingMint>, done: set<nat>, g: nat, n: nat)
    requires g <= n
    ensures PayableBelow(env, mint, mints, done, n) ==> PayableBelow(env, mint, mints, done, g)
  {
  }

  /**
   Where the tracker stands before the loop looks at group g of n: exactly the groups claimed at the
   start, `done`, and those below g are claimed.
   */
  ghost predicate TrackerAt(t: Tracker, done: set<nat>, total: nat, g: nat) {
    && (t.remaining != 0 <==> !(Below(GroupCount(total)) <= done + Below(g)))
    && (t.remaining != 0 ==> t.total == total && Consistent(t) && Members(t.claimed) == done + Below(g))
  }

  lemma TrackerStart(t: Tracker)
    requires Consistent(t) && t.remaining != 0
    ensures TrackerAt(t, Members(t.claimed), t.total, 0)
  {
    TotalGroupsMeaning(t);
    RemainingZeroIffAllClaimed(t);
    var done, all := Members(t.claimed), Below(GroupCount(t.total));
    assert done + Below(0) == done && done <= all;
    if all <= done {
      assert false;
    }
  }

  lemma TrackerSkips(t: Tracker, done: set<nat>, total: nat, g: nat)
    requires TrackerAt(t, done, total, g) && g in done
    ensures TrackerAt(t, done, total, g + 1)
  {
    assert done + Below(g + 1) == done + Below(g);
  }

  /** Group g is claimable now, and it is the last one left exactly if nothing after it is unclaimed. */
  lemma TrackerTurn(t: Tracker, done: set<nat>, total: nat, g: u16)
    requires TrackerAt(t, done, total, g) && g < GroupCount(total) && g < 256 && g !in done
    ensures t.remaining != 0 && EnsureCanClaim(t, g).Ok?
    ensures t.remaining == 1 <==> Below(GroupCount(total)) <= done + Below(g + 1)
  {
    var n := GroupCount(total);
    assert g in Below(n) && g !in done + Below(g);
    TotalGroupsMeaning(t);
    ClaimableGroups(t, g);
    OneLeft(Members(t.claimed), n, g);
    assert done + Below(g + 1) == Members(t.claimed) + {g as nat};
  }

  /** With g not yet in, one element is missing exactly if g is the missing one. */
  lemma OneLeft(s: set<nat>, n: nat, g: nat)
    requires s <= Below(n) && g < n && g !in s
    ensures n - |s| == 1 <==> Below(n) <= s + {g}
  {
    assert |s + {g}| == |s| + 1;
    SubsetSize(s + {g}, Below(n));
    if Below(n) <= s + {g} {
      assert s + {g} == Below(n);
    }
  }

  lemma TrackerMoves(m: Manager, m': Manager, done: set<nat>, total: nat, g: u16)
    requires TrackerAt(m.tracker, done, total, g) && g < GroupCount(total) && g < 256 && g !in done
    requires ClaimedGroup(m, m', g)
    ensures TrackerAt(m'.tracker, done, total, g + 1)
  {
    TrackerTurn(m.tracker, done, total, g);
    assert done + Below(g + 1) == Members(m.tracker.claimed) + {g as nat};
  }

  lemma LastFlag(done: set<nat>, n: nat, g: nat)
    requires g < n && g !in done
    ensures n - 1 !in done ==> (Below(n) <= done + Below(g + 1) <==> g == n - 1)
  {
    assert n - 1 in Below(n);
  }

  // ---- One call ----

  lemma ActiveList(env: Env, s: System, mints: seq<PendingMint>, addr: Key)
    requires SystemInvariant(env, s) && Knows(s, mints, addr) && IsActive(s.bridge.backlog)
    ensures var t := s.bridge.backlog.tracker;
            && t.total == |mints| > 0 && TotalGroups(t) == GroupCount(|mints|) && Consistent(t)
            && addr in s.buffers && Complete(env.h, s.buffers[addr].account)
            && MintsOf(s.buffers[addr].account) == mints
  {
    TotalGroupsMeaning(s.bridge.backlog.tracker);
  }

  lemma CallAcceptedIff(env: Env, s: System, mints: seq<PendingMint>, addr: Key, g: u16, unlock: bool)
    requires Sound(env) && SystemInvariant(env, s) && Knows(s, mints, addr) && IsActive(s.bridge.backlog)
    requires EnsureCanClaim(s.bridge.backlog.tracker, g).Ok?
    ensures g < GroupCount(|mints|)
    ensures ClaimStep(env, s, s.bridge.backlog, false, addr, g, unlock, Recipients(Group(mints, g)), OwnToken(s)).Ok?
       <==> unlock == (s.bridge.backlog.tracker.remaining == 1) && SameMint(env, s.bridge.dogeMint, Group(mints, g))
  {
    ActiveList(env, s, mints, addr);
    ClaimSucceedsIff(env, s, g, s.bridge.dogeMint);
    if ClaimStep(env, s, s.bridge.backlog, false, addr, g, unlock, Recipients(Group(mints, g)), OwnToken(s)).Ok? {
      ClaimParts(env, s, addr, g, unlock, Recipients(Group(mints, g)), OwnToken(s));
      PrecheckMeaning(s.bridge.backlog, g, addr);
    }
  }

  lemma StillKnows(env: Env, s: System, s': System, mints: seq<PendingMint>, addr: Key, g: nat, recipients: seq<Key>,
          mint: Key)
    requires Knows(s, mints, addr) && GroupMinted(env, s, s', addr, g, recipients, mint)
    ensures Knows(s', mints, addr)
  {
  }

  /** The claim of group g of the list went through. */
  ghost predicate Claimed(s: System, s': System, mints: seq<PendingMint>, g: nat)
    requires g < GroupCount(|mints|)
  {
    && ClaimedGroup(s.bridge.backlog, s'.bridge.backlog, g) && s'.history.minted == s.history.minted + Group(mints, g)
    && s'.bridge.dogeMint == s.bridge.dogeMint
  }

  /** Send one claim of the operator, as an auto-advance or not, and wait for its result. */
  method SendClaim(env: Env, s: System, auto: bool, owner: Key, mints: seq<PendingMint>, addr: Key, g: u16,
          recipients: seq<Key>, unlock: bool)
    returns (r: Result<System, BridgeError>)
    requires Sound(env) && SystemInvariant(env, s) && Knows(s, mints, addr) && IsActive(s.bridge.backlog)
    requires EnsureCanClaim(s.bridge.backlog.tracker, g).Ok? && g < GroupCount(|mints|)
    requires recipients == Recipients(Group(mints, g))
    ensures r.Ok?
            <==> unlock == (s.bridge.backlog.tracker.remaining == 1)
                 && SameMint(env, s.bridge.dogeMint, Group(mints, g))
    ensures r.Ok? ==> SystemInvariant(env, r.value) && Knows(r.value, mints, addr) && Claimed(s, r.value, mints, g)
  {
    CallAcceptedIff(env, s, mints, addr, g, unlock);
    r := if auto then AutoAdvanceStep(env, s, addr, owner, g, unlock, recipients, OwnToken(s))
         else MintGroupStep(env, s, s.bridge.operator, addr, g, unlock, recipients, OwnToken(s));
    if r.Ok? {
      ActiveList(env, s, mints, addr);
      ClaimKeeps(env, s, addr, g, unlock, recipients, OwnToken(s));
      ClaimMintsGroup(env, s, addr, g, unlock, recipients, OwnToken(s));
      StillKnows(env, s, r.value, mints, addr, g, recipients, s.bridge.dogeMint);
    }
  }

  // ---- The loop ----

  /** The loop before group g: the groups claimed since the start are minted, `count` records in all. */
  ghost predicate LoopAt(done: set<nat>, minted0: seq<PendingMint>, cur: System, mints: seq<PendingMint>, g: nat,
          count: nat) {
    && g <= GroupCount(|mints|)
    && TrackerAt(cur.bridge.backlog.tracker, done, |mints|, g)
    && (!IsActive(cur.bridge.backlog) ==> GroupCount(|mints|) - 1 !in done)
    && cur.history.minted == minted0 + Unclaimed(mints, done, 0, g)
    && count == |Unclaimed(mints, done, 0, g)|
  }

  /** The loop before group g, on a system whose invariant holds and with a client that knows the list. */
  ghost predicate Ongoing(env: Env, mint: Key, done: set<nat>, minted0: seq<PendingMint>, cur: System,
          mints: seq<PendingMint>, addr: Key, g: nat, count: nat) {
    && SystemInvariant(env, cur) && Knows(cur, mints, addr) && LoopAt(done, minted0, cur, mints, g, count)
    && cur.bridge.dogeMint == mint && PayableBelow(env, mint, mints, done, g)
  }

  lemma LoopStarts(env: Env, s: System, mints: seq<PendingMint>, addr: Key)
    requires SystemInvariant(env, s) && Knows(s, mints, addr) && IsActive(s.bridge.backlog)
    ensures Ongoing(env, s.bridge.dogeMint, Members(s.bridge.backlog.tracker.claimed), s.history.minted, s, mints,
            addr, 0, 0)
    ensures 0 < |mints| == s.bridge.backlog.tracker.total
    ensures TotalGroups(s.bridge.backlog.tracker) == GroupCount(|mints|)
  {
    ActiveList(env, s, mints, addr);
    TrackerStart(s.bridge.backlog.tracker);
  }

  lemma UnclaimedSkips(mints: seq<PendingMint>, done: set<nat>, g: nat)
    requires g < GroupCount(|mints|) && g in done
    ensures Unclaimed(mints, done, 0, g + 1) == Unclaimed(mints, done, 0, g)
  {
    assert Unclaimed(mints, done, 0, g) + [] == Unclaimed(mints, done, 0, g);
  }

  lemma {:induction false} LoopSkips(done: set<nat>, minted0: seq<PendingMint>, cur: System, mints: seq<PendingMint>,
          g: nat, count: nat)
    requires LoopAt(done, minted0, cur, mints, g, count) && g < GroupCount(|mints|) && g in done
    ensures LoopAt(done, minted0, cur, mints, g + 1, count)
  {
    TrackerSkips(cur.bridge.backlog.tracker, done, |mints|, g);
    UnclaimedSkips(mints, done, g);
  }

  /** It is group g's turn: it is claimable, and unless the last group is claimed already the flag is right. */
  lemma LoopTurn(t: Tracker, done: set<nat>, total: nat, g: u16, isLast: bool)
    requires TrackerAt(t, done, total, g) && g < GroupCount(total) && g < 256 && g !in done
    requires isLast == (g == GroupCount(total) - 1)
    ensures t.remaining != 0 && EnsureCanClaim(t, g).Ok?
    ensures GroupCount(total) - 1 !in done ==> isLast == (t.remaining == 1)
  {
    TrackerTurn(t, done, total, g);
    LastFlag(done, GroupCount(total), g);
  }

  lemma LoopMoves(done: set<nat>, minted0: seq<PendingMint>, cur: System, next: System, mints: seq<PendingMint>,
          g: u16, count: nat)
    requires LoopAt(done, minted0, cur, mints, g, count) && g < GroupCount(|mints|) && g < 256 && g !in done
    requires Claimed(cur, next, mints, g)
    requires cur.bridge.backlog.tracker.remaining == 1 ==> g == GroupCount(|mints|) - 1
    ensures LoopAt(done, minted0, next, mints, g + 1, count + |Group(mints, g)|)
  {
    TrackerMoves(cur.bridge.backlog, next.bridge.backlog, done, |mints|, g);
    MintedMore(minted0, Unclaimed(mints, done, 0, g), Group(mints, g));
  }

  lemma MintedMore(a: seq<PendingMint>, b: seq<PendingMint>, c: seq<PendingMint>)
    ensures a + b + c == a + (b + c) && |b + c| == |b| + |c|
  {
  }

  lemma LoopEnds(env: Env, mint: Key, done: set<nat>, minted0: seq<PendingMint>, cur: System,
          mints: seq<PendingMint>, addr: Key, count: nat)
    requires Ongoing(env, mint, done, minted0, cur, mints, addr, GroupCount(|mints|), count)
    requires GroupCount(|mints|) <= 256
    ensures !IsActive(cur.bridge.backlog) && !BoundToFail(env, mint, mints, done)
    ensures cur.history.minted == minted0 + Owed(mints, done) && count == |Owed(mints, done)|
  {
  }

  /** The records of group g as the client cuts them out. */
  method GroupSlice(mints: seq<PendingMint>, g: u16) returns (groupMints: seq<PendingMint>)
    requires g < GroupCount(|mints|)
    ensures groupMints == Group(mints, g)
  {
    GroupBounds(|mints|, g);
    var groupStart := 24 * g;
    var groupEnd := Min(groupStart + 24, |mints|);
    return mints[groupStart..groupEnd];
  }

  lemma Verdict(env: Env, mint: Key, mints: seq<PendingMint>, t: Tracker)
    requires t.total == |mints|
    ensures BoundToFail(env, mint, mints, Members(t.claimed))
       <==> !(EndsUnclaimed(t) && PayableBelow(env, mint, mints, Members(t.claimed), GroupCount(|mints|)))
  {
  }

  /** One round of the loop on group g: skip it, or claim it with the unlock flag of the last group. */
  method Visit(env: Env, auto: bool, owner: Key, ghost mint: Key, cur: System, mints: seq<PendingMint>, addr: Key,
          tracker: Tracker, g: u16, minted: nat, ghost done: set<nat>, ghost minted0: seq<PendingMint>)
    returns (r: Result<(System, nat), BridgeError>)
    requires Sound(env) && done == Members(tracker.claimed) && TotalGroups(tracker) == GroupCount(|mints|)
    requires Ongoing(env, mint, done, minted0, cur, mints, addr, g, minted) && g < GroupCount(|mints|)
    ensures r.Ok? ==> g < 256 && Ongoing(env, mint, done, minted0, r.value.0, mints, addr, g + 1, r.value.1)
    ensures r.Err? ==> BoundToFail(env, mint, mints, done)
  {
    if g >= 256 {
      return Err(Panic);
    }
    if IsSet(tracker.claimed, g) {
      LoopSkips(done, minted0, cur, mints, g, minted);
      return Ok((cur, minted));
    }
    r := ClaimInTurn(env, auto, owner, mint, cur, mints, addr, g, g == TotalGroups(tracker) - 1, minted, done, minted0);
  }

  /** Claim an unclaimed group whose turn it is. */
  method ClaimInTurn(env: Env, auto: bool, owner: Key, ghost mint: Key, cur: System, mints: seq<PendingMint>,
          addr: Key, g: u16, isLast: bool, minted: nat, ghost done: set<nat>, ghost minted0: seq<PendingMint>)
    returns (r: Result<(System, nat), BridgeError>)
    requires Sound(env) && Ongoing(env, mint, done, minted0, cur, mints, addr, g, minted)
    requires g < GroupCount(|mints|) && g < 256 && g !in done && isLast == (g == GroupCount(|mints|) - 1)
    ensures r.Ok? ==> Ongoing(env, mint, done, minted0, r.value.0, mints, addr, g + 1, r.value.1)
    ensures r.Err? ==> BoundToFail(env, mint, mints, done)
  {
    var groupMints := GroupSlice(mints, g);
    LoopTurn(cur.bridge.backlog.tracker, done, |mints|, g, isLast);
    var sent := SendClaim(env, cur, auto, owner, mints, addr, g, Recipients(groupMints), isLast);
    if sent.Err? {
      PayableShrinks(env, mint, mints, done, g + 1, GroupCount(|mints|));
      return Err(sent.error);
    }
    LoopMoves(done, minted0, cur, sent.value, mints, g, minted);
    return Ok((sent.value, minted + |groupMints|));
  }

  method VisitAll(env: Env, auto: bool, owner: Key, s: System, mints: seq<PendingMint>, addr: Key, tracker: Tracker,
          ghost done: set<nat>)
    returns (cur: System, r: Result<nat, BridgeError>)
    requires Sound(env) && done == Members(tracker.claimed) && TotalGroups(tracker) == GroupCount(|mints|)
    requires Ongoing(env, s.bridge.dogeMint, done, s.history.minted, s, mints, addr, 0, 0)
    ensures SystemInvariant(env, cur)
    ensures r.Ok?
            ==> Ongoing(env, s.bridge.dogeMint, done, s.history.minted, cur, mints, addr, GroupCount(|mints|),
                r.value) && GroupCount(|mints|) <= 256
    ensures r.Err? ==> BoundToFail(env, s.bridge.dogeMint, mints, done)
  {
    cur := s;
    var totalGroups := TotalGroups(tracker);
    var minted: nat := 0;
    var g: u16 := 0;
    while g < totalGroups
      invariant g <= totalGroups && g <= 256
      invariant Ongoing(env, s.bridge.dogeMint, done, s.history.minted, cur, mints, addr, g, minted)
    {
      var visited := Visit(env, auto, owner, s.bridge.dogeMint, cur, mints, addr, tracker, g, minted, done,
          s.history.minted);
      if visited.Err? {
        return cur, Err(visited.error);
      }
      cur, minted := visited.value.0, visited.value.1;
      g := g + 1;
    }
    return cur, Ok(minted);
  }

  /** With an empty list the client sends nothing; with nothing remaining it skips every group. */
  lemma NothingToSend(env: Env, s: System, mints: seq<PendingMint>, addr: Key)
    requires SystemInvariant(env, s) && Knows(s, mints, addr)
    requires |mints| == 0 || !IsActive(s.bridge.backlog)
    ensures !IsActive(s.bridge.backlog)
    ensures var t := s.bridge.backlog.tracker;
            forall g: nat :: g < TotalGroups(t) ==> g in Members(t.claimed)
  {
    if IsActive(s.bridge.backlog) {
      ActiveList(env, s, mints, addr);
      assert false;
    }
    RemainingZeroIffAllClaimed(s.bridge.backlog.tracker);
  }

  /**
   The client loop, with plain claims or with auto-advances. It looks only at the tracker it
   read at the start, names the bridge's mint and asks for the unlock with the last group. It
   completes exactly if nothing remained, or the last group was still unclaimed in a block of
   at most 6144 mints and all unclaimed groups go to token accounts of that mint; then it has
   minted all that was owed, in order, and released the buffer.
   */
  method ClaimRemaining(env: Env, auto: bool, owner: Key, s: System, mints: seq<PendingMint>, addr: Key)
    returns (cur: System, r: Result<nat, BridgeError>)
    requires Sound(env) && SystemInvariant(env, s) && Knows(s, mints, addr)
    ensures SystemInvariant(env, cur)
    ensures r.Ok? <==>
              || !IsActive(s.bridge.backlog)
              || (&& EndsUnclaimed(s.bridge.backlog.tracker)
                  && PayableBelow(env, s.bridge.dogeMint, mints, Members(s.bridge.backlog.tracker.claimed),
                      GroupCount(|mints|)))
    ensures r.Ok? ==> !IsActive(cur.bridge.backlog)
    ensures r.Ok? && !IsActive(s.bridge.backlog) ==> cur == s && r.value == 0
    ensures r.Ok? && IsActive(s.bridge.backlog) ==>
              && cur.history.minted == s.history.minted + Owed(mints, Members(s.bridge.backlog.tracker.claimed))
              && r.value == |Owed(mints, Members(s.bridge.backlog.tracker.claimed))|
  {
    var tracker := s.bridge.backlog.tracker;
    if |mints| == 0 || tracker.remaining == 0 {
      NothingToSend(env, s, mints, addr);
      return s, Ok(0);
    }
    ghost var done := Members(tracker.claimed);
    LoopStarts(env, s, mints, addr);
    cur, r := VisitAll(env, auto, owner, s, mints, addr, tracker, done);
    Verdict(env, s.bridge.dogeMint, mints, tracker);
    if r.Ok? {
      LoopEnds(env, s.bridge.dogeMint, done, s.history.minted, cur, mints, addr, r.value);
    }
  }

  /**
   The loop with auto-advances reads the tracker before it advances. Between two blocks every
   group is marked, so it sends nothing and never sets up the next block, although a backlog that
   is not stuck can be drained.
   */
  lemma IdleLoopNeverAdvances(env: Env, s: System, mints: seq<PendingMint>, addr: Key, owner: Key)
    requires Sound(env) && SystemInvariant(env, s) && NeedsAdvance(s.bridge.backlog)
    ensures var t := s.bridge.backlog.tracker;
            forall g: nat :: g < TotalGroups(t) ==> g in Members(t.claimed)
    ensures IsBridgeBuffer(env, s, addr) && !IsStuck(env, s) ==> exists ops :: DrainedBy(env, s, ops)
  {
    NothingToSend(env, s, mints, addr);
    if IsBridgeBuffer(env, s, addr) {
      DrainableIff(env, s, addr, owner);
    }
  }
}
