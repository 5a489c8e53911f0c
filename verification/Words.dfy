/** A bit position as the byte by which words are shifted, built digit by binary digit. */
module BitPosition {
  function Append(b: bv8, odd: bool): bv8 {
    (b << 1) + if odd then 1 else 0
  }

  function Position(p: nat): bv8 {
    if p == 0 then 0 else Append(Position(p / 2), p % 2 == 1)
  }

  lemma AppendValue(b: bv8, odd: bool)
    requires b < 128
    ensures Append(b, odd) as nat == 2 * (b as nat) + if odd then 1 else 0
  {
  }

  lemma BelowHalf(b: bv8)
    ensures b as nat < 128 <==> b < 128
  {
  }

  /** The byte has the value of the position: no shift amount is truncated. */
  lemma {:induction false} PositionValue(p: nat)
    requires p < 256
    ensures Position(p) as nat == p
    ensures p < 128 <==> Position(p) < 128
  {
    if p > 0 {
      PositionValue(p / 2);
      AppendValue(Position(p / 2), p % 2 == 1);
    }
    BelowHalf(Position(p));
  }

  lemma PositionInjective(p: nat, q: nat)
    requires p < 256 && q < 256
    ensures Position(p) == Position(q) <==> p == q
  {
    PositionValue(p);
    PositionValue(q);
  }

  lemma SubtractValue(b: bv8)
    requires b >= 128
    ensures (b - 128) as nat == b as nat - 128
  {
  }

  lemma ValueInjective(a: bv8, b: bv8)
    requires a as nat == b as nat
    ensures a == b
  {
  }

  /** The position within the upper half of a wide word. */
  lemma PositionInUpperHalf(p: nat)
    requires 128 <= p < 256
    ensures Position(p) >= 128 && Position(p) - 128 == Position(p - 128)
  {
    PositionValue(p);
    PositionValue(p - 128);
    SubtractValue(Position(p));
    hide Position;
    ValueInjective(Position(p) - 128, Position(p - 128));
  }

  /** A position within a narrow word. */
  function Pos(p: nat): (b: bv8)
    requires p < 128
    ensures b < 128
  {
    PositionValue(p);
    Position(p)
  }
}

/** One 128-bit word of flags. */
module Word128 {
  function With(w: bv128, p: bv8): bv128
    requires p < 128
  {
    w | (1 as bv128 << p)
  }

  predicate Bit(w: bv128, p: bv8)
    requires p < 128
  {
    w & (1 as bv128 << p) != 0
  }
}

/** One 256-bit word of flags. */
module Word256 {
  function With(w: bv256, p: bv8): bv256 {
    w | (1 as bv256 << p)
  }

  predicate Bit(w: bv256, p: bv8) {
    w & (1 as bv256 << p) != 0
  }
}

/** Setting one bit of a 128-bit word sets that bit and no other. */
module Word128Bits {
  import opened Word128

  lemma SameBit(w: bv128, p: bv8)
    requires p < 128
    ensures Bit(With(w, p), p)
  {
  }

  lemma OldBitStays(w: bv128, p: bv8, q: bv8)
    requires p < 128 && q < 128
    ensures Bit(w, q) && p != q ==> Bit(With(w, p), q)
  {
  }

  lemma NoOtherBit(w: bv128, p: bv8, q: bv8)
    requires p < 128 && q < 128
    ensures !Bit(w, q) && p != q ==> !Bit(With(w, p), q)
  {
  }

  lemma WithAddsBit(w: bv128, p: bv8, q: bv8)
    requires p < 128 && q < 128
    ensures Bit(With(w, p), q) <==> p == q || Bit(w, q)
  {
    hide Bit, With;
    SameBit(w, p);
    OldBitStays(w, p, q);
    NoOtherBit(w, p, q);
  }
}

/** Setting one bit of a 256-bit word sets that bit and no other. */
module Word256Bits {
  import opened Word256

  lemma SameBit(w: bv256, p: bv8)
    ensures Bit(With(w, p), p)
  {
  }

  lemma OldBitStays(w: bv256, p: bv8, q: bv8)
    ensures Bit(w, q) && p != q ==> Bit(With(w, p), q)
  {
  }

  lemma NoOtherBit(w: bv256, p: bv8, q: bv8)
    ensures !Bit(w, q) && p != q ==> !Bit(With(w, p), q)
  {
  }

  lemma WithAddsBit(w: bv256, p: bv8, q: bv8)
    ensures Bit(With(w, p), q) <==> p == q || Bit(w, q)
  {
    hide Bit, With;
    SameBit(w, p);
    OldBitStays(w, p, q);
    NoOtherBit(w, p, q);
  }
}

/** A wide word as two narrow ones. */
module Halves {
  import N = Word128
  import W = Word256

  /** The wide word is the two narrow ones side by side. */
  predicate Joined(w: bv256, low: bv128, high: bv128) {
    w == (high as bv256 << 128) | low as bv256
  }

  lemma OrInLowerHalf(low: bv128, high: bv128, p: bv8, w: bv256, w': bv256, low': bv128)
    requires p < 128 && Joined(w, low, high)
    requires w' == w | (1 as bv256 << p) && low' == low | (1 as bv128 << p)
    ensures Joined(w', low', high)
  {
  }

  lemma OrInUpperHalf(low: bv128, high: bv128, p: bv8, w: bv256, w': bv256, high': bv128)
    requires p >= 128 && Joined(w, low, high)
    requires w' == w | (1 as bv256 << p) && high' == high | (1 as bv128 << (p - 128))
    ensures Joined(w', low, high')
  {
  }

  lemma WideWithIs(w: bv256, p: bv8, w': bv256)
    requires w' == W.With(w, p)
    ensures w' == w | (1 as bv256 << p)
  {
  }

  lemma NarrowWithIs(w: bv128, p: bv8, w': bv128)
    requires p < 128 && w' == N.With(w, p)
    ensures w' == w | (1 as bv128 << p)
  {
  }

  /** Setting a bit of the wide word sets the same bit of one half. */
  lemma SetInLowerHalf(low: bv128, high: bv128, p: bv8, w: bv256, w': bv256, low': bv128)
    requires p < 128 && Joined(w, low, high) && w' == W.With(w, p) && low' == N.With(low, p)
    ensures Joined(w', low', high)
  {
    WideWithIs(w, p, w');
    NarrowWithIs(low, p, low');
    hide W.With, N.With, Joined;
    OrInLowerHalf(low, high, p, w, w', low');
  }

  lemma SetInUpperHalf(low: bv128, high: bv128, p: bv8, w: bv256, w': bv256, high': bv128)
    requires p >= 128 && Joined(w, low, high) && w' == W.With(w, p) && high' == N.With(high, p - 128)
    ensures Joined(w', low, high')
  {
    WideWithIs(w, p, w');
    NarrowWithIs(high, p - 128, high');
    hide W.With, N.With, Joined;
    OrInUpperHalf(low, high, p, w, w', high');
  }

  lemma ZerosJoined()
    ensures Joined(0, 0, 0)
  {
  }
}
