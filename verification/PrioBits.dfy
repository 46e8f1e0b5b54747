// Bits of a 32-bit word, numbered from the most significant one as os_prio.c does.

module PrioBits {

  type Bit = b: bv32 | b < 32

  const ALL: bv32 := 0xFFFF_FFFF

  // bit_nbr = prio & 31
  function BitOf(n: nat): Bit
    requires n < 32
  {
    (n as bv5) as bv32
  }

  function Mask(k: Bit): bv32 {
    (1 as bv32) << (31 - k)
  }

  predicate IsSet(w: bv32, k: Bit) {
    w & Mask(k) != 0
  }

  function SetBit(w: bv32, k: Bit): bv32 {
    w | Mask(k)
  }

  function ClearBit(w: bv32, k: Bit): bv32 {
    w & !Mask(k)
  }

  lemma Distribute(w: bv32, m: bv32, n: bv32)
    ensures (w | m) & n == (w & n) | (m & n)
  {
  }

  lemma OrZero(a: bv32, b: bv32)
    ensures a | b != 0 <==> a != 0 || b != 0
  {
  }

  lemma MasksDisjoint(k: Bit, j: Bit)
    ensures Mask(k) & Mask(j) != 0 <==> j == k
  {
  }

  lemma SetOne(w: bv32, k: Bit, j: Bit)
    ensures IsSet(SetBit(w, k), j) <==> j == k || IsSet(w, j)
  {
    Distribute(w, Mask(k), Mask(j));
    OrZero(w & Mask(j), Mask(k) & Mask(j));
    MasksDisjoint(k, j);
  }

  lemma ClearOne(w: bv32, k: Bit, j: Bit)
    ensures IsSet(ClearBit(w, k), j) <==> j != k && IsSet(w, j)
  {
    Clearing(w, k, j);
    hide IsSet, Mask;
  }

  lemma Clearing(w: bv32, k: Bit, j: Bit)
    ensures IsSet(w & !Mask(k), j) <==> j != k && IsSet(w, j)
  {
  }

  lemma NoneInZero(k: Bit)
    ensures !IsSet(0, k)
  {
  }

  // With the bits up to k clear, the word is below the next power of two.
  lemma Below(w: bv32, k: Bit)
    requires w <= ALL >> k && !IsSet(w, k)
    ensures w <= ALL >> (k + 1)
  {
  }

  lemma LastBit(w: bv32)
    requires w != 0 && w <= ALL >> 31
    ensures IsSet(w, 31)
  {
  }

  lemma BitsDiffer(a: nat, b: nat)
    requires a < 32 && b < 32
    ensures BitOf(a) == BitOf(b) <==> a == b
  {
    if BitOf(a) == BitOf(b) {
      Widened(a as bv5, b as bv5);
      Narrow(a, b);
    }
  }

  lemma Widened(a: bv5, b: bv5)
    requires (a as bv32) == (b as bv32)
    ensures a == b
  {
  }

  lemma Narrow(a: nat, b: nat)
    requires a < 32 && b < 32 && (a as bv5) == (b as bv5)
    ensures a == b
  {
  }

  lemma NextBit(n: nat)
    requires n < 31
    ensures BitOf(n + 1) == BitOf(n) + 1
  {
    Increment(n);
    Carry(n as bv5);
  }

  lemma Increment(n: nat)
    requires n < 31
    ensures ((n + 1) as bv5) == (n as bv5) + 1
    ensures (n as bv5) != 31
  {
    if (n as bv5) == 31 {
      Narrow(n, 31);
    }
  }

  lemma Carry(b: bv5)
    requires b != 31
    ensures ((b + 1) as bv32) == (b as bv32) + 1
  {
  }

  lemma TopBit()
    ensures BitOf(0) == 0 && BitOf(31) == 31
  {
  }

  // The CLZ instruction: the number of the first bit that is set, 32 if there is none.
  function CntLeadZeros(w: bv32): (n: nat)
    ensures n <= 32
    ensures forall q :: 0 <= q < n ==> !IsSet(w, BitOf(q))
    ensures n < 32 ==> IsSet(w, BitOf(n))
  {
    LeadZerosFrom(w, 0)
  }

  function LeadZerosFrom(w: bv32, k: nat): (n: nat)
    requires k <= 32
    ensures k <= n <= 32
    ensures forall q :: k <= q < n ==> !IsSet(w, BitOf(q))
    ensures n < 32 ==> IsSet(w, BitOf(n))
    decreases 32 - k
  {
    if k == 32 || IsSet(w, BitOf(k)) then k else LeadZerosFrom(w, k + 1)
  }

  // A word is zero exactly when it has 32 leading zeros.
  lemma ZeroWord(w: bv32)
    ensures w == 0 <==> CntLeadZeros(w) == 32
  {
    if CntLeadZeros(w) == 32 {
      AllClear(w, 31);
      TopBit();
      if w != 0 { LastBit(w); }
    } else {
      NoneInZero(BitOf(CntLeadZeros(w)));
    }
  }

  lemma {:induction false} AllClear(w: bv32, n: nat)
    requires n < 32 && forall q :: 0 <= q < n ==> !IsSet(w, BitOf(q))
    ensures w <= ALL >> BitOf(n)
  {
    if n == 0 {
      TopBit();
    } else {
      AllClear(w, n - 1);
      NextBit(n - 1);
      Below(w, BitOf(n - 1));
    }
  }
}
