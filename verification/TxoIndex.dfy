/**
 Output positions packed into 53 bits: 28 for the block, 13 for the transaction, 12 for the
 output. Shifts and masks are written as multiplication, division and remainder by powers of
 two; on valid positions the fields do not overlap, so joining them is a sum.
 */
module TxoIndex {
  import opened Bytes

  const COMBINED_LIMIT: int := 0x20_0000_0000_0000

  predicate IsValidPosition(blockNum: nat, txNum: nat, output: nat) {
    blockNum < 0x1000_0000 && txNum < 0x2000 && output < 0x1000
  }

  function Combine(blockNum: nat, txNum: nat, output: nat): nat
    requires IsValidPosition(blockNum, txNum, output)
  {
    blockNum * 0x200_0000 + txNum * 0x1000 + output
  }

  function BlockOf(index: u64): nat { index / 0x200_0000 % 0x1000_0000 }
  function TxOf(index: u64): nat { index / 0x1000 % 0x2000 }
  function OutputOf(index: u64): nat { index % 0x1000 }

  /** Every valid position is recovered from its 53-bit number. */
  lemma SeparateCombined(b: nat, t: nat, o: nat)
    requires IsValidPosition(b, t, o)
    ensures Combine(b, t, o) < COMBINED_LIMIT
    ensures BlockOf(Combine(b, t, o)) == b && TxOf(Combine(b, t, o)) == t && OutputOf(Combine(b, t, o)) == o
  {
    var low := t * 0x1000 + o;
    assert Combine(b, t, o) / 0x1000 == b * 0x2000 + t;
    assert Combine(b, t, o) / 0x200_0000 == b;
  }

  /** Every number below 2^53 is the number of exactly one valid position. */
  lemma CombineSeparated(index: u64)
    requires index < COMBINED_LIMIT
    ensures IsValidPosition(BlockOf(index), TxOf(index), OutputOf(index))
    ensures Combine(BlockOf(index), TxOf(index), OutputOf(index)) == index
  {
    var q := index / 0x1000;
    assert q / 0x2000 == index / 0x200_0000;
    assert index == q * 0x1000 + index % 0x1000;
    assert q == q / 0x2000 * 0x2000 + q % 0x2000;
  }

  lemma QuotientOfSum(q: nat, low: nat)
    ensures (q * COMBINED_LIMIT + low) / 0x1000 == q * 0x200_0000_0000 + low / 0x1000
    ensures (q * COMBINED_LIMIT + low) / 0x200_0000 == q * 0x1000_0000 + low / 0x200_0000
  {
  }

  /** Bits above the 53rd are not looked at. */
  lemma HighBitsIgnored(q: nat, low: nat)
    requires low < COMBINED_LIMIT && q * COMBINED_LIMIT + low < U64_MODULUS
    ensures BlockOf(q * COMBINED_LIMIT + low) == BlockOf(low)
    ensures TxOf(q * COMBINED_LIMIT + low) == TxOf(low) && OutputOf(q * COMBINED_LIMIT + low) == OutputOf(low)
  {
    QuotientOfSum(q, low);
  }

  /** Lexicographic order of positions. */
  predicate Precedes(b: nat, t: nat, o: nat, b': nat, t': nat, o': nat) {
    b < b' || (b == b' && (t < t' || (t == t' && o < o')))
  }

  /** Packing keeps the lexicographic order, in both directions. */
  lemma CombineKeepsOrder(b: nat, t: nat, o: nat, b': nat, t': nat, o': nat)
    requires IsValidPosition(b, t, o) && IsValidPosition(b', t', o')
    ensures Precedes(b, t, o, b', t', o') <==> Combine(b, t, o) < Combine(b', t', o')
  {
  }

  /** Leaf of the TXO tree and bit within that leaf. */
  function LeafOf(index: u64): nat { index / 0x100 }
  function BitOf(index: u64): nat { index % 0x100 }

  /** A 53-bit number splits uniquely into a 45-bit leaf index and an 8-bit position. */
  lemma LeafAndBitSplit(index: u64, leaf: nat, bit: nat)
    requires index < COMBINED_LIMIT && leaf < 0x2000_0000_0000 && bit < 0x100
    ensures LeafOf(index) < 0x2000_0000_0000
    ensures LeafOf(index) == leaf && BitOf(index) == bit <==> index == leaf * 0x100 + bit
  {
  }
}
