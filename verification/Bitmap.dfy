/** One word of the allocator's bitmap: the arithmetic that finds the bit to try. */
module Bitmap {
  import opened Allocator

  type Word = bv64

  const BITS: nat := 64
  const ALL: Word := 0xFFFF_FFFF_FFFF_FFFF

  /** The word with only bit j set; beyond the last bit it is 0. */
  function Bit(j: nat): Word {
    if j == 0 then 1 else Bit(j - 1) + Bit(j - 1)
  }

  /** grid_get_alignment */
  function Alignment(a: Word): Word {
    a & (!a + 1)
  }

  predicate Has(mask: Word, j: nat) {
    mask & Bit(j) != 0
  }

  /** The word holds the bits from `from` on. */
  ghost predicate Shows(bits: set<nat>, from: nat, mask: Word) {
    forall j: nat | j < BITS :: from + j in bits <==> Has(mask, j)
  }

  lemma Low(mask: Word, b: Word)
    requires mask & (b - 1) == b - 1 && b & (b - 1) == 0 && mask & b != 0
    ensures mask & (b + b - 1) == b + b - 1
  {
  }

  lemma Double(b: Word)
    requires b & (b - 1) == 0
    ensures (b + b) & (b + b - 1) == 0
  {
  }

  lemma {:induction false} BitAlone(j: nat)
    ensures Bit(j) & (Bit(j) - 1) == 0
  {
    if j > 0 {
      BitAlone(j - 1);
      Double(Bit(j - 1));
    }
  }

  /** All bits below j are set. */
  predicate Ones(mask: Word, j: nat) {
    mask & (Bit(j) - 1) == Bit(j) - 1
  }

  lemma LowNone(mask: Word)
    ensures Ones(mask, 0)
  {
  }

  lemma LowNext(mask: Word, j: nat)
    requires Ones(mask, j) && Has(mask, j)
    ensures Ones(mask, j + 1)
  {
    BitAlone(j);
    Low(mask, Bit(j));
  }

  lemma {:induction false} LowSet(mask: Word, j: nat)
    requires forall i: nat | i < j :: Has(mask, i)
    ensures Ones(mask, j)
  {
    hide Bit, Has, Ones;
    if j == 0 {
      LowNone(mask);
    } else {
      LowSet(mask, j - 1);
      LowNext(mask, j - 1);
    }
  }

  lemma Isolates(mask: Word, b: Word)
    requires b & (b - 1) == 0 && mask & (b - 1) == b - 1 && mask & b == 0
    ensures Alignment(mask + 1) == b
  {
  }

  lemma FourMore(j: nat)
    ensures Bit(j + 4) == Bit(j) << 4
  {
    assert Bit(j + 2) == Bit(j) << 2;
  }

  lemma SixteenMore(j: nat)
    ensures Bit(j + 16) == Bit(j) << 16
  {
    hide Bit;
    FourMore(j);
    FourMore(j + 4);
    FourMore(j + 8);
    FourMore(j + 12);
  }

  lemma LastBit()
    ensures Bit(BITS - 1) == 0x8000_0000_0000_0000 && Bit(BITS) == 0
  {
    assert Bit(15) == 0x8000 by {
      FourMore(3);
      FourMore(7);
      FourMore(11);
      assert Bit(3) == 8;
    }
    SixteenMore(15);
    SixteenMore(31);
    SixteenMore(47);
  }

  lemma {:induction false} NotZero(j: nat)
    requires j < BITS
    ensures Bit(j) != 0
    decreases BITS - j
  {
    if j == BITS - 1 {
      LastBit();
    } else {
      NotZero(j + 1);
    }
  }

  /** Adding one to the word and keeping only the lowest one of the sum finds the lowest clear bit of
      the word, unless all are set. */
  lemma FindsFirstFree(bits: set<nat>, n: nat, mask: Word)
    requires Shows(bits, BITS * n, mask)
    ensures var r := FirstFree(bits, BITS * n, BITS * n + BITS);
            && (r == BITS * n + BITS <==> mask == ALL)
            && (r < BITS * n + BITS ==> Alignment(mask + 1) == Bit(r - BITS * n))
  {
    hide Bit, Has, Ones, Alignment;
    var r := FirstFree(bits, BITS * n, BITS * n + BITS);
    var j := r - BITS * n;
    forall i: nat | i < j ensures Has(mask, i) {
      assert BITS * n + i in bits;
    }
    LowSet(mask, j);
    if j < BITS {
      assert !Has(mask, j);
      IsolatesBit(mask, j);
      NotAll(mask, j);
    } else {
      AllOnes(mask);
    }
  }

  lemma IsolatesBit(mask: Word, j: nat)
    requires Ones(mask, j) && !Has(mask, j)
    ensures Alignment(mask + 1) == Bit(j)
  {
    BitAlone(j);
    Isolates(mask, Bit(j));
  }

  lemma NotAll(mask: Word, j: nat)
    requires j < BITS && !Has(mask, j)
    ensures mask != ALL
  {
    NotZero(j);
  }

  lemma AllOnes(mask: Word)
    requires Ones(mask, BITS)
    ensures mask == ALL
  {
    LastBit();
  }
}
