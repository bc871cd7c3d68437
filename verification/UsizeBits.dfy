/** 64-bit masks: a `usize` is a number below 2^64, and `mask |= 1 << index` sets one bit of it. */
module UsizeBits {
  const USIZE_BITS: nat := 64

  predicate HasBit(mask: nat, index: nat)
    decreases index
  {
    if index == 0 then mask % 2 == 1 else HasBit(mask / 2, index - 1)
  }

  function SetBit(mask: nat, index: nat): nat
    decreases index
  {
    if index == 0 then 2 * (mask / 2) + 1 else 2 * SetBit(mask / 2, index - 1) + mask % 2
  }

  function Pow2(n: nat): (p: nat)
    ensures p > 0
  {
    if n == 0 then 1 else 2 * Pow2(n - 1)
  }

  ghost function Bits(mask: nat): set<nat> {
    set index | 0 <= index < USIZE_BITS && HasBit(mask, index)
  }

  lemma {:induction false} SetBitBits(mask: nat, index: nat, other: nat)
    ensures HasBit(SetBit(mask, index), other) <==> other == index || HasBit(mask, other)
    ensures SetBit(mask, index) > 0
    decreases index
  {
    var set' := SetBit(mask, index);
    if index == 0 {
      assert set' / 2 == mask / 2;
    } else {
      assert set' / 2 == SetBit(mask / 2, index - 1);
      SetBitBits(mask / 2, index - 1, if other > 0 then other - 1 else 0);
    }
  }

  /** In numbers: setting bit `index` adds 2^index, unless it was set. */
  lemma {:induction false} SetBitAdds(mask: nat, index: nat)
    ensures SetBit(mask, index) == if HasBit(mask, index) then mask else mask + Pow2(index)
    decreases index
  {
    if index == 0 {
    } else {
      SetBitAdds(mask / 2, index - 1);
    }
  }

  lemma {:induction false} SetBitFits(mask: nat, index: nat, width: nat)
    requires mask < Pow2(width) && index < width
    ensures SetBit(mask, index) < Pow2(width)
    decreases index
  {
    if index == 0 {
    } else {
      SetBitFits(mask / 2, index - 1, width - 1);
    }
  }

  lemma {:induction false} BitsDetermine(a: nat, b: nat, width: nat)
    requires a < Pow2(width) && b < Pow2(width)
    requires forall index :: 0 <= index < width ==> (HasBit(a, index) <==> HasBit(b, index))
    ensures a == b
    decreases width
  {
    if width == 0 {
    } else {
      assert HasBit(a, 0) <==> HasBit(b, 0);
      forall index | 0 <= index < width - 1 ensures HasBit(a / 2, index) <==> HasBit(b / 2, index) {
        assert HasBit(a, index + 1) <==> HasBit(b, index + 1);
      }
      BitsDetermine(a / 2, b / 2, width - 1);
    }
  }

  /** A mask is determined by its set of bits. */
  lemma SameBitsSameMask(a: nat, b: nat)
    requires a < Pow2(USIZE_BITS) && b < Pow2(USIZE_BITS) && Bits(a) == Bits(b)
    ensures a == b
  {
    forall index | 0 <= index < USIZE_BITS ensures HasBit(a, index) <==> HasBit(b, index) {
      assert index in Bits(a) <==> index in Bits(b);
    }
    BitsDetermine(a, b, USIZE_BITS);
  }

  lemma {:induction false} ZeroHasNoBit(index: nat)
    ensures !HasBit(0, index)
  {
    if index == 0 {
    } else {
      ZeroHasNoBit(index - 1);
    }
  }
}
