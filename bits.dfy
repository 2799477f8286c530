/** Bit-level view of the 8-bit port registers: the input register whose
    bit i is the raw touch sample of channel i, and the output mask whose
    bit i lights channel i's indicator. */
module Bits {

  /** 2 to the power n, the value of `1 << n`. */
  function Pow2(n: nat): (r: nat)
    ensures r >= 1
  {
    if n == 0 then 1 else 2 * Pow2(n - 1)
  }

  /** Bit i of v is set: `(v & (1 << i)) != 0`. */
  predicate Bit(v: nat, i: nat)
  {
    if i == 0 then v % 2 == 1 else Bit(v / 2, i - 1)
  }

  /** The mask whose bit j is set exactly when flags[j] holds:
      `1 << j` or-ed in for every set flag. */
  function MaskOf(flags: seq<bool>): (r: nat)
    ensures r < Pow2(|flags|)
  {
    if flags == [] then 0
    else (if flags[0] then 1 else 0) + 2 * MaskOf(flags[1..])
  }

  /** Bitwise or, `a | b`, built from the least significant bit up. */
  function Or(a: nat, b: nat): (r: nat)
    ensures a <= r <= a + b
    decreases a + b
  {
    if a == 0 && b == 0 then 0
    else (if a % 2 == 1 || b % 2 == 1 then 1 else 0) + 2 * Or(a / 2, b / 2)
  }

  /** Bit j of `a | b` is set exactly when it is set in a or in b. */
  lemma {:induction false} OrBit(a: nat, b: nat, j: nat)
    ensures Bit(Or(a, b), j) <==> Bit(a, j) || Bit(b, j)
    decreases a + b
  {
    if a == 0 && b == 0 {
      BitOfZero(j);
    } else {
      var low := if a % 2 == 1 || b % 2 == 1 then 1 else 0;
      var high := Or(a / 2, b / 2);
      assert Or(a, b) == low + 2 * high;
      assert (low + 2 * high) % 2 == low && (low + 2 * high) / 2 == high;
      if j > 0 {
        OrBit(a / 2, b / 2, j - 1);
      }
    }
  }

  /** Or-ing `1 << i` into a value below `1 << i`, whose bit i is therefore
      clear, adds it. */
  lemma {:induction false} OrClearBit(v: nat, i: nat)
    requires v < Pow2(i)
    ensures Or(v, Pow2(i)) == v + Pow2(i)
    decreases i
  {
    if i > 0 {
      OrClearBit(v / 2, i - 1);
    }
  }

  /** Adding bit n to the mask of the first n flags appends one flag: with
      OrClearBit, this is how a loop that or-s `1 << n` into the mask
      builds it bit by bit. */
  lemma {:induction false} MaskOfSnoc(flags: seq<bool>, b: bool)
    ensures MaskOf(flags + [b]) == MaskOf(flags) + (if b then Pow2(|flags|) else 0)
  {
    if flags == [] {
      assert flags + [b] == [b];
      assert [b][1..] == [];
    } else {
      assert (flags + [b])[1..] == flags[1..] + [b];
      MaskOfSnoc(flags[1..], b);
    }
  }

  /** Bit j of the mask is set exactly when flag j holds, and no bit
      beyond the flags is set. */
  lemma {:induction false} MaskOfBit(flags: seq<bool>, j: nat)
    ensures Bit(MaskOf(flags), j) <==> (j < |flags| && flags[j])
  {
    if flags == [] {
      BitOfZero(j);
    } else if j > 0 {
      MaskOfBit(flags[1..], j - 1);
      var m := MaskOf(flags);
      assert m / 2 == MaskOf(flags[1..]);
    }
  }

  lemma {:induction false} BitOfZero(j: nat)
    ensures !Bit(0, j)
  {
    if j > 0 {
      BitOfZero(j - 1);
    }
  }
}
