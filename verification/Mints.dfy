/** Pending mints, their 40-byte records and their split into groups of 24. */
module Mints {
  import opened Bytes
  import opened Hashing

  datatype PendingMint = PendingMint(recipient: Key, amount: u64)

  // ---- Records ----

  function MintBytes(m: PendingMint): (s: Bytes)
    ensures |s| == 40
  {
    m.recipient + LE64(m.amount)
  }

  function ParseMint(s: Bytes): PendingMint
    requires |s| == 40
  {
    EncodeDecodeLittleEndian(s[32..]);
    Pow256Values();
    PendingMint(s[..32], FromLittleEndian(s[32..]))
  }

  lemma ParseMintBytes(m: PendingMint)
    ensures ParseMint(MintBytes(m)) == m
  {
    LE64RoundTrip(m.amount);
    assert MintBytes(m)[..32] == m.recipient && MintBytes(m)[32..] == LE64(m.amount);
  }

  lemma MintBytesOfParse(s: Bytes)
    requires |s| == 40
    ensures MintBytes(ParseMint(s)) == s
  {
    EncodeDecodeLittleEndian(s[32..]);
  }

  // ---- Lists of records ----

  function MintListBytes(ms: seq<PendingMint>): (s: Bytes)
    ensures |s| == 40 * |ms|
  {
    if |ms| == 0 then [] else MintBytes(ms[0]) + MintListBytes(ms[1..])
  }

  function ParseMintList(s: Bytes): (ms: seq<PendingMint>)
    requires |s| % 40 == 0
    ensures |ms| == |s| / 40
  {
    if |s| == 0 then [] else [ParseMint(s[..40])] + ParseMintList(s[40..])
  }

  lemma {:induction false} ParseMintListBytes(ms: seq<PendingMint>)
    ensures ParseMintList(MintListBytes(ms)) == ms
  {
    if |ms| > 0 {
      var s := MintListBytes(ms);
      assert s[..40] == MintBytes(ms[0]) && s[40..] == MintListBytes(ms[1..]);
      ParseMintBytes(ms[0]);
      ParseMintListBytes(ms[1..]);
    }
  }

  lemma {:induction false} MintListBytesOfParse(s: Bytes)
    requires |s| % 40 == 0
    ensures MintListBytes(ParseMintList(s)) == s
  {
    if |s| > 0 {
      MintBytesOfParse(s[..40]);
      MintListBytesOfParse(s[40..]);
      assert ParseMintList(s)[1..] == ParseMintList(s[40..]);
      assert s == s[..40] + s[40..];
    }
  }

  lemma {:induction false} MintListBytesConcat(a: seq<PendingMint>, b: seq<PendingMint>)
    ensures MintListBytes(a + b) == MintListBytes(a) + MintListBytes(b)
  {
    if |a| == 0 {
      assert a + b == b;
    } else {
      assert (a + b)[1..] == a[1..] + b;
      MintListBytesConcat(a[1..], b);
    }
  }

  lemma MintListBytesMiddle(a: seq<PendingMint>, b: seq<PendingMint>, c: seq<PendingMint>)
    ensures MintListBytes(a + (b + c))[40 * |a|..40 * |a| + 40 * |b|] == MintListBytes(b)
  {
    MintListBytesConcat(a, b + c);
    MintListBytesConcat(b, c);
    MiddleSlice(MintListBytes(a), MintListBytes(b), MintListBytes(c));
  }

  /** Records i..j of a list occupy bytes 40*i..40*j. */
  lemma {:induction false} MintListBytesSlice(ms: seq<PendingMint>, i: nat, j: nat)
    requires i <= j <= |ms|
    ensures MintListBytes(ms)[40 * i..40 * j] == MintListBytes(ms[i..j])
  {
    assert ms[..i] + (ms[i..j] + ms[j..]) == ms;
    MintListBytesMiddle(ms[..i], ms[i..j], ms[j..]);
  }

  // ---- Groups ----

  function GroupCount(n: nat): nat {
    (n + 23) / 24
  }

  function GroupEnd(n: nat, g: nat): nat {
    Min(24 * (g + 1), n)
  }

  function Group(ms: seq<PendingMint>, g: nat): seq<PendingMint>
    requires g < GroupCount(|ms|)
  {
    ms[24 * g..GroupEnd(|ms|, g)]
  }

  lemma GroupBounds(n: nat, g: nat)
    requires g < GroupCount(n)
    ensures 24 * g < GroupEnd(n, g) <= n
    ensures g + 1 < GroupCount(n) ==> GroupEnd(n, g) == 24 * (g + 1)
    ensures g + 1 == GroupCount(n) ==> GroupEnd(n, g) == n
  {
  }

  lemma {:induction false} GroupBytes(ms: seq<PendingMint>, g: nat)
    requires g < GroupCount(|ms|)
    ensures MintListBytes(Group(ms, g)) == MintListBytes(ms)[960 * g..40 * GroupEnd(|ms|, g)]
  {
    MintListBytesSlice(ms, 24 * g, GroupEnd(|ms|, g));
  }

  /** Lists with equal groups are equal. */
  lemma EqualGroups(a: seq<PendingMint>, b: seq<PendingMint>)
    requires |a| == |b|
    requires forall g: nat :: g < GroupCount(|a|) ==> MintListBytes(Group(a, g)) == MintListBytes(Group(b, g))
    ensures a == b
  {
    forall i: nat | i < |a|
      ensures a[i] == b[i]
    {
      var g := i / 24;
      GroupBounds(|a|, g);
      ParseMintListBytes(Group(a, g));
      ParseMintListBytes(Group(b, g));
      assert Group(a, g)[i - 24 * g] == Group(b, g)[i - 24 * g];
    }
  }

  // ---- The area of group hashes ----

  function GroupHashes(h: Hash, ms: seq<PendingMint>, k: nat): (s: Bytes)
    requires k <= GroupCount(|ms|)
    ensures |s| == 32 * k
  {
    if k == 0 then [] else GroupHashes(h, ms, k - 1) + h(MintListBytes(Group(ms, k - 1)))
  }

  lemma {:induction false} GroupHashesSlot(h: Hash, ms: seq<PendingMint>, k: nat, g: nat)
    requires g < k <= GroupCount(|ms|)
    ensures GroupHashes(h, ms, k)[32 * g..32 * g + 32] == h(MintListBytes(Group(ms, g)))
  {
    if g < k - 1 {
      GroupHashesSlot(h, ms, k - 1, g);
      assert GroupHashes(h, ms, k)[..32 * (k - 1)] == GroupHashes(h, ms, k - 1);
      assert GroupHashes(h, ms, k)[32 * g..32 * g + 32] == GroupHashes(h, ms, k - 1)[32 * g..32 * g + 32];
    }
  }

  /** A string whose every 32-byte slot holds the hash of its group is the area of group hashes. */
  lemma {:induction false} SlotsDetermineGroupHashes(h: Hash, ms: seq<PendingMint>, k: nat, s: Bytes)
    requires k <= GroupCount(|ms|) && |s| == 32 * k
    requires forall g :: 0 <= g < k ==> s[32 * g..32 * g + 32] == h(MintListBytes(Group(ms, g)))
    ensures s == GroupHashes(h, ms, k)
  {
    if k > 0 {
      var t := s[..32 * (k - 1)];
      forall g | 0 <= g < k - 1
        ensures t[32 * g..32 * g + 32] == h(MintListBytes(Group(ms, g)))
      {
        assert t[32 * g..32 * g + 32] == s[32 * g..32 * g + 32];
      }
      SlotsDetermineGroupHashes(h, ms, k - 1, t);
      assert s == t + s[32 * (k - 1)..32 * (k - 1) + 32];
    }
  }

  /** What a complete buffer holds after its header: all group hashes, then all records. */
  function Layout(h: Hash, ms: seq<PendingMint>): (s: Bytes)
    ensures |s| == 32 * GroupCount(|ms|) + 40 * |ms|
  {
    GroupHashes(h, ms, GroupCount(|ms|)) + MintListBytes(ms)
  }

  lemma LayoutParts(h: Hash, ms: seq<PendingMint>)
    ensures Layout(h, ms)[..32 * GroupCount(|ms|)] == GroupHashes(h, ms, GroupCount(|ms|))
    ensures Layout(h, ms)[32 * GroupCount(|ms|)..] == MintListBytes(ms)
  {
  }
}
