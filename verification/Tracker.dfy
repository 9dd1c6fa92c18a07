/** The bitmap and counter that record which groups of the current block were claimed. */
module Tracker {
  import opened Bytes
  import opened Mints
  import opened BridgeErrors

  // ---- The bitmap ----

  type Bitmap = s: seq<bv8> | |s| == 32 witness seq(32, _ => 0)

  function ZeroBits(n: nat): (s: seq<bv8>)
    ensures |s| == n && forall i :: 0 <= i < n ==> s[i] == 0
  {
    seq(n, _ => 0)
  }

  const NO_BITS: Bitmap := ZeroBits(32)

  /** The byte with only bit k set. */
  function Mask(k: nat): bv8
    requires k < 8
  {
    if k == 0 then 1 else if k == 1 then 2 else if k == 2 then 4 else if k == 3 then 8
    else if k == 4 then 16 else if k == 5 then 32 else if k == 6 then 64 else 128
  }

  predicate BitOf(b: bv8, k: nat)
    requires k < 8
  {
    b & Mask(k) != 0
  }

  function WithBit(b: bv8, k: nat): bv8
    requires k < 8
  {
    b | Mask(k)
  }

  /** Masks and shifts select the same bit. */
  lemma MaskIsShift(b: bv8, k: nat)
    requires k < 8
    ensures Mask(k) == 1 << k && BitOf(b, k) == ((b >> k) & 1 == 1)
  {
    assert k == 0 || k == 1 || k == 2 || k == 3 || k == 4 || k == 5 || k == 6 || k == 7;
  }

  lemma WithBitReads(b: bv8, k: nat, j: nat)
    requires k < 8 && j < 8
    ensures BitOf(WithBit(b, k), j) == (j == k || BitOf(b, j))
  {
    assert (b | Mask(k)) & Mask(j) == (b & Mask(j)) | (Mask(k) & Mask(j));
  }

  predicate IsSet(s: Bitmap, g: nat)
    requires g < 256
  {
    BitOf(s[g / 8], g % 8)
  }

  function WithSet(s: Bitmap, g: nat): Bitmap
    requires g < 256
  {
    s[g / 8 := WithBit(s[g / 8], g % 8)]
  }

  function Members(s: Bitmap): (m: set<nat>)
    ensures forall g :: g in m <==> g < 256 && IsSet(s, g)
  {
    set g: nat | g < 256 && IsSet(s, g)
  }

  lemma WithSetMembers(s: Bitmap, g: nat)
    requires g < 256
    ensures Members(WithSet(s, g)) == Members(s) + {g}
  {
    forall j: nat | j < 256
      ensures IsSet(WithSet(s, g), j) == (j == g || IsSet(s, j))
    {
      WithBitReads(s[g / 8], g % 8, j % 8);
    }
  }

  lemma NoBitsMembers()
    ensures Members(NO_BITS) == {}
  {
    forall g: nat | g < 256
      ensures !IsSet(NO_BITS, g)
    {
      var k := g % 8;
      assert k == 0 || k == 1 || k == 2 || k == 3 || k == 4 || k == 5 || k == 6 || k == 7;
    }
  }

  // ---- The tracker ----

  datatype Tracker = Tracker(account: Key, claimed: Bitmap, total: u32, remaining: u32)

  const BLANK_TRACKER: Tracker := Tracker(ZERO32, NO_BITS, 0, 0)

  /** Number of groups, computed in u16 as the program does. */
  function TotalGroups(t: Tracker): u16 {
    var n := t.total % 0x1_0000;
    if n % 24 == 0 then n / 24 else n / 24 + 1
  }

  /** Reading the bitmap past bit 255 aborts. */
  function CheckUnclaimed(t: Tracker, g: u16): Result<(), BridgeError> {
    if g > 256 then Err(PendingMintsGroupIndexOutOfBounds)
    else if g == 256 then Err(Panic)
    else if IsSet(t.claimed, g) then Err(PendingMintsGroupAlreadyProcessed)
    else Ok(())
  }

  function EnsureCanClaim(t: Tracker, g: u16): Result<(), BridgeError> {
    if t.total == 0 || t.remaining == 0 then Err(NoPendingMintsToProcess)
    else if g > 256 || g >= TotalGroups(t) then Err(PendingMintsGroupIndexOutOfBounds)
    else CheckUnclaimed(t, g)
  }

  function MarkClaimed(t: Tracker, g: u16): Result<Tracker, BridgeError> {
    if t.total == 0 || t.remaining == 0 then Err(NoPendingMintsToProcess)
    else
      var _ :- CheckUnclaimed(t, g);
      Ok(t.(claimed := WithSet(t.claimed, g), remaining := t.remaining - 1))
  }

  /** The counter agrees with the bitmap, and only existing groups are marked. */
  ghost predicate Consistent(t: Tracker) {
    && t.total <= U16_MAX
    && t.remaining == TotalGroups(t) - |Members(t.claimed)|
    && forall g :: g in Members(t.claimed) ==> g < TotalGroups(t)
  }

  lemma TotalGroupsMeaning(t: Tracker)
    requires t.total <= U16_MAX
    ensures TotalGroups(t) == GroupCount(t.total)
  {
  }

  lemma FreshConsistent(account: Key, total: u16)
    ensures Consistent(Tracker(account, NO_BITS, total, GroupCount(total)))
    ensures Consistent(BLANK_TRACKER)
  {
    NoBitsMembers();
    TotalGroupsMeaning(Tracker(account, NO_BITS, total, GroupCount(total)));
  }

  /** A claim adds its group to the marked ones, lowers the counter by one and keeps them in step. */
  lemma ClaimKeepsConsistent(t: Tracker, g: u16)
    requires Consistent(t) && EnsureCanClaim(t, g).Ok?
    ensures g < 256 && g !in Members(t.claimed) && MarkClaimed(t, g).Ok?
    ensures var t' := MarkClaimed(t, g).value;
            && Consistent(t')
            && Members(t'.claimed) == Members(t.claimed) + {g as nat}
            && t'.remaining == t.remaining - 1
  {
    WithSetMembers(t.claimed, g);
  }

  function Below(n: nat): (s: set<nat>)
    ensures forall g: nat :: g in s <==> g < n
    ensures |s| == n
  {
    if n == 0 then {} else Below(n - 1) + {n - 1}
  }

  lemma SubsetSize(a: set<nat>, b: set<nat>)
    requires a <= b
    ensures |a| <= |b|
    ensures |a| == |b| ==> a == b
  {
    assert b == a + (b - a);
    assert |b| == |a| + |b - a|;
  }

  /** The counter reaches zero exactly when every group is marked. */
  lemma RemainingZeroIffAllClaimed(t: Tracker)
    requires Consistent(t)
    ensures t.remaining == 0 <==> Members(t.claimed) == Below(TotalGroups(t))
  {
    SubsetSize(Members(t.claimed), Below(TotalGroups(t)));
  }

  /**
   A group of a consistent tracker can be claimed exactly when it exists, is unmarked, and
   its index is below 256, the size of the bitmap.
   */
  lemma ClaimableGroups(t: Tracker, g: u16)
    requires Consistent(t)
    ensures EnsureCanClaim(t, g).Ok? <==> g < TotalGroups(t) && g < 256 && g !in Members(t.claimed)
  {
    if g < TotalGroups(t) && g !in Members(t.claimed) {
      UnmarkedMeansRemaining(t, g);
    }
  }

  lemma UnmarkedMeansRemaining(t: Tracker, g: nat)
    requires Consistent(t) && g < TotalGroups(t) && g !in Members(t.claimed)
    ensures t.remaining > 0 && t.total > 0
  {
    MissingElement(Members(t.claimed), TotalGroups(t), g);
  }

  lemma MissingElement(s: set<nat>, n: nat, g: nat)
    requires (forall x :: x in s ==> x < n) && g < n && g !in s
    ensures |s| < n
  {
    SubsetSize(s, Below(n));
    assert g in Below(n);
  }

  /** While anything remains, some group can be claimed, provided the block has at most 6144 mints. */
  lemma SomeGroupClaimable(t: Tracker) returns (g: u16)
    requires Consistent(t) && t.remaining > 0 && t.total <= 6144
    ensures EnsureCanClaim(t, g).Ok?
  {
    TotalGroupsMeaning(t);
    RemainingZeroIffAllClaimed(t);
    var free := Below(TotalGroups(t)) - Members(t.claimed);
    assert Below(TotalGroups(t)) == Members(t.claimed) + free;
    var k :| k in free;
    g := k;
    ClaimableGroups(t, g);
  }

  /** A block of more than 6144 mints can never be claimed completely. */
  lemma OversizedNeverDone(t: Tracker)
    requires Consistent(t) && t.total > 6144
    ensures t.remaining > 0
  {
    TotalGroupsMeaning(t);
    SubsetSize(Members(t.claimed), Below(256));
  }
}
