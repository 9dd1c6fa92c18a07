/** Machine integers, byte strings and little-endian encodings shared by all programs. */
module Bytes {

  type byte = x: int | 0 <= x < 0x100
  type u16 = x: int | 0 <= x < 0x1_0000
  type u32 = x: int | 0 <= x < 0x1_0000_0000
  type u64 = x: int | 0 <= x < 0x1_0000_0000_0000_0000

  const U16_MAX: int := 0xFFFF
  const U32_MAX: int := 0xFFFF_FFFF
  const U64_MODULUS: int := 0x1_0000_0000_0000_0000

  type Bytes = seq<byte>

  /** A 32-byte string: a digest, a tree root or an account address. */
  type Bytes32 = b: Bytes | |b| == 32 witness seq(32, _ => 0)
  type Digest = Bytes32
  type Key = Bytes32

  datatype Result<+T, +E> = Ok(value: T) | Err(error: E)
  {
    predicate IsFailure() { Err? }

    function PropagateFailure<U>(): Result<U, E>
      requires Err?
    {
      Err(error)
    }

    function Extract(): T
      requires Ok?
    {
      value
    }
  }

  datatype Option<+T> = None | Some(value: T)

  function Min(a: int, b: int): int {
    if a <= b then a else b
  }

  function Repeated<T>(x: T, n: nat): (s: seq<T>)
    ensures |s| == n && forall i :: 0 <= i < n ==> s[i] == x
  {
    seq(n, _ => x)
  }

  function Zeros(n: nat): (z: Bytes)
    ensures |z| == n
  {
    seq(n, _ => 0)
  }

  const ZERO32: Bytes32 := Zeros(32)

  // ---- Little-endian integers ----

  function Pow256(n: nat): (p: int)
    ensures p >= 1
  {
    if n == 0 then 1 else 256 * Pow256(n - 1)
  }

  function LittleEndian(x: nat, n: nat): (s: Bytes)
    ensures |s| == n
  {
    if n == 0 then [] else [x % 256] + LittleEndian(x / 256, n - 1)
  }

  function FromLittleEndian(s: Bytes): (x: nat)
  {
    if |s| == 0 then 0 else s[0] + 256 * FromLittleEndian(s[1..])
  }

  lemma {:induction false} DecodeEncodeLittleEndian(x: nat, n: nat)
    requires x < Pow256(n)
    ensures FromLittleEndian(LittleEndian(x, n)) == x
  {
    if n > 0 {
      DecodeEncodeLittleEndian(x / 256, n - 1);
      assert LittleEndian(x, n)[1..] == LittleEndian(x / 256, n - 1);
    }
  }

  lemma DigitAndRest(d: byte, x: nat)
    ensures (d + 256 * x) % 256 == d && (d + 256 * x) / 256 == x
  {
  }

  lemma {:induction false} EncodeDecodeLittleEndian(s: Bytes)
    ensures FromLittleEndian(s) < Pow256(|s|)
    ensures LittleEndian(FromLittleEndian(s), |s|) == s
  {
    if |s| > 0 {
      EncodeDecodeLittleEndian(s[1..]);
      DigitAndRest(s[0], FromLittleEndian(s[1..]));
      assert s == [s[0]] + s[1..];
    }
  }

  lemma Pow256Values()
    ensures Pow256(2) == 0x1_0000
    ensures Pow256(4) == 0x1_0000_0000
    ensures Pow256(8) == 0x1_0000_0000_0000_0000
  {
    assert Pow256(2) == 256 * Pow256(1);
    assert Pow256(4) == 256 * Pow256(3) && Pow256(3) == 256 * Pow256(2);
    assert Pow256(6) == 256 * Pow256(5) && Pow256(5) == 256 * Pow256(4);
    assert Pow256(8) == 256 * Pow256(7) && Pow256(7) == 256 * Pow256(6);
  }

  function LE16(x: u16): Bytes { LittleEndian(x, 2) }
  function LE32(x: u32): Bytes { LittleEndian(x, 4) }
  function LE64(x: u64): Bytes { LittleEndian(x, 8) }

  lemma TwoBytes(x: nat)
    ensures LittleEndian(x, 2) == [x % 256, x / 256 % 256]
  {
    assert LittleEndian(x / 256, 1) == [x / 256 % 256] + LittleEndian(x / 256 / 256, 0);
  }

  /** The least significant byte comes first. */
  lemma LeastSignificantFirst(a: u16, b: u32)
    ensures LE16(a) == [a % 256, a / 0x100]
    ensures LE32(b) == [b % 256, b / 0x100 % 256, b / 0x1_0000 % 256, b / 0x100_0000]
  {
    TwoBytes(a);
    TwoBytes(b / 256 / 256);
    assert LittleEndian(b / 256, 3) == [b / 256 % 256] + LittleEndian(b / 256 / 256, 2);
  }

  lemma LE16RoundTrip(x: u16)
    ensures FromLittleEndian(LE16(x)) == x
  {
    Pow256Values();
    DecodeEncodeLittleEndian(x, 2);
  }

  lemma LE32RoundTrip(x: u32)
    ensures FromLittleEndian(LE32(x)) == x
  {
    Pow256Values();
    DecodeEncodeLittleEndian(x, 4);
  }

  lemma LE64RoundTrip(x: u64)
    ensures FromLittleEndian(LE64(x)) == x
  {
    Pow256Values();
    DecodeEncodeLittleEndian(x, 8);
  }

  // ---- Writing a range of a byte string in place ----

  function Overwrite(s: Bytes, at: nat, d: Bytes): (r: Bytes)
    requires at + |d| <= |s|
    ensures |r| == |s|
    ensures r[at..at + |d|] == d
  {
    s[..at] + d + s[at + |d|..]
  }

  /** A read that does not touch the written range sees the old bytes. */
  lemma OverwriteElsewhere(s: Bytes, at: nat, d: Bytes, lo: nat, hi: nat)
    requires at + |d| <= |s| && lo <= hi <= |s|
    requires hi <= at || at + |d| <= lo
    ensures Overwrite(s, at, d)[lo..hi] == s[lo..hi]
  {
    assert forall i :: lo <= i < hi ==> Overwrite(s, at, d)[i] == s[i];
  }

  /** By how much one instruction may grow an account. */
  const MAX_INCREASE: int := 10_240

  /** Reallocation without zeroing: new bytes are whatever the runtime exposes. */
  function Reallocate(body: Bytes, len: nat, exposed: Bytes): (r: Bytes)
    ensures |r| == len
    ensures len >= |body| ==> r[..|body|] == body
    ensures len < |body| ==> r == body[..len]
  {
    if len <= |body| then body[..len]
    else if len - |body| <= |exposed| then body + exposed[..len - |body|]
    else body + exposed + Zeros(len - |body| - |exposed|)
  }

  lemma MiddleSlice(a: Bytes, b: Bytes, c: Bytes)
    ensures (a + (b + c))[|a|..|a| + |b|] == b
  {
  }

  /** Concatenations with heads of one length split uniquely. */
  lemma SplitUniquely(a: Bytes, b: Bytes, c: Bytes, d: Bytes)
    requires a + b == c + d && |a| == |c|
    ensures a == c && b == d
  {
    assert a == (a + b)[..|a|] && c == (c + d)[..|a|];
    assert b == (a + b)[|a|..] && d == (c + d)[|a|..];
  }

  /** A slice that starts in the head and ends in the tail of a concatenation. */
  lemma StraddlingSlice(a: Bytes, b: Bytes, lo: nat, k: nat)
    requires lo <= |a| && k <= |b|
    ensures (a + b)[lo..|a| + k] == a[lo..] + b[..k]
  {
  }

  lemma SliceOfSlice(s: Bytes, a: nat, b: nat, lo: nat, hi: nat)
    requires a <= b <= |s| && lo <= hi <= b - a
    ensures s[a..b][lo..hi] == s[a + lo..a + hi]
  {
    var t := s[a..b][lo..hi];
    assert |t| == hi - lo;
    assert forall i :: 0 <= i < |t| ==> t[i] == s[a + lo + i];
  }
}

/** SHA-256 as an arbitrary function of byte strings into 32-byte strings. */
module Hashing {
  import opened Bytes

  type Hash = Bytes -> Digest

  function TwoToOne(h: Hash, left: Digest, right: Digest): Digest {
    h(left + right)
  }

  /** No two different messages of `s` share a digest. */
  ghost predicate CollisionFree(h: Hash, s: set<Bytes>) {
    forall a, b :: a in s && b in s && h(a) == h(b) ==> a == b
  }

  /** No message hashes to the all-zero string. */
  ghost predicate NeverZero(h: Hash) {
    forall m :: h(m) != ZERO32
  }
}
