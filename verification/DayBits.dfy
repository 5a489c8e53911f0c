/**
 Day flags packed into words: 128 days a word in the CosmWasm contract, 256 in
 the Solidity contract. Both are proved to store the same sets of days.
 */
module DayBits {
  import opened Types
  import opened Volunteer
  import opened BitPosition
  import W = Word128
  import V = Word256
  import F = Word128Bits
  import G = Word256Bits
  import Halves

  type Words128 = map<(Addr, nat), bv128>
  type Words256 = map<(Addr, nat), bv256>

  function WordAt128(words: Words128, who: Addr, k: nat): bv128 {
    if (who, k) in words then words[(who, k)] else 0
  }

  function WordAt256(words: Words256, who: Addr, k: nat): bv256 {
    if (who, k) in words then words[(who, k)] else 0
  }

  function Set128(words: Words128, who: Addr, day: nat): Words128 {
    words[(who, day / 128) := W.With(WordAt128(words, who, day / 128), Pos(day % 128))]
  }

  predicate Get128(words: Words128, who: Addr, day: nat) {
    W.Bit(WordAt128(words, who, day / 128), Pos(day % 128))
  }

  function Set256(words: Words256, who: Addr, day: nat): Words256 {
    words[(who, day / 256) := V.With(WordAt256(words, who, day / 256), Position(day % 256))]
  }

  predicate Get256(words: Words256, who: Addr, day: nat) {
    V.Bit(WordAt256(words, who, day / 256), Position(day % 256))
  }

  // ---------- both packings store the same set ----------

  lemma Set128Adds(words: Words128, who: Addr, day: nat, who': Addr, day': nat)
    ensures Get128(Set128(words, who, day), who', day') <==> (who, day) == (who', day') || Get128(words, who', day')
  {
    hide W.Bit, W.With, Position;
    PositionInjective(day % 128, day' % 128);
    F.WithAddsBit(WordAt128(words, who, day / 128), Pos(day % 128), Pos(day' % 128));
  }

  lemma Set256Adds(words: Words256, who: Addr, day: nat, who': Addr, day': nat)
    ensures Get256(Set256(words, who, day), who', day') <==> (who, day) == (who', day') || Get256(words, who', day')
  {
    hide V.Bit, V.With, Position;
    PositionInjective(day % 256, day' % 256);
    G.WithAddsBit(WordAt256(words, who, day / 256), Position(day % 256), Position(day' % 256));
  }

  predicate JoinedAt(narrow: Words128, wide: Words256, who: Addr, k: nat) {
    Halves.Joined(WordAt256(wide, who, k), WordAt128(narrow, who, 2 * k), WordAt128(narrow, who, 2 * k + 1))
  }

  /** Every wide word is two narrow words side by side. */
  ghost predicate Joined(narrow: Words128, wide: Words256) {
    forall who, k: nat :: JoinedAt(narrow, wide, who, k)
  }

  /** Where day d of 256-day words falls in 128-day words. */
  lemma HalfOf(day: nat)
    ensures day % 256 < 128 ==> day / 128 == 2 * (day / 256) && day % 128 == day % 256
    ensures day % 256 >= 128 ==> day / 128 == 2 * (day / 256) + 1 && day % 128 + 128 == day % 256
  {
  }

  lemma SetKeepsJoinedAt(narrow: Words128, wide: Words256, who: Addr, day: nat, a: Addr, k: nat)
    requires JoinedAt(narrow, wide, a, k)
    ensures JoinedAt(Set128(narrow, who, day), Set256(wide, who, day), a, k)
  {
    hide W.With, V.With, Halves.Joined, Position;
    HalfOf(day);
    if a == who && day / 256 == k {
      SetKeepsJoinedHere(narrow, wide, who, day);
    } else {
      assert a == who ==> day / 128 != 2 * k && day / 128 != 2 * k + 1;
    }
  }

  lemma SetKeepsJoinedHere(narrow: Words128, wide: Words256, who: Addr, day: nat)
    requires JoinedAt(narrow, wide, who, day / 256)
    ensures JoinedAt(Set128(narrow, who, day), Set256(wide, who, day), who, day / 256)
  {
    hide W.With, V.With, Halves.Joined, Position;
    HalfOf(day);
    var k, p := day / 256, Position(day % 256);
    var low, high, w := WordAt128(narrow, who, 2 * k), WordAt128(narrow, who, 2 * k + 1), WordAt256(wide, who, k);
    PositionValue(day % 256);
    if day % 256 < 128 {
      Halves.SetInLowerHalf(low, high, p, w, V.With(w, p), W.With(low, p));
    } else {
      PositionInUpperHalf(day % 256);
      Halves.SetInUpperHalf(low, high, p, w, V.With(w, p), W.With(high, p - 128));
    }
  }

  lemma NoFlagsInEmpty(who: Addr, day: nat)
    ensures !Get128(map[], who, day) && !Get256(map[], who, day)
    ensures JoinedAt(map[], map[], who, day)
  {
    hide Position, Halves.Joined;
    Halves.ZerosJoined();
  }

  function Marks128(marks: seq<(Addr, nat)>): Words128 {
    if marks == [] then map[]
    else
      var m := marks[|marks| - 1];
      Set128(Marks128(marks[..|marks| - 1]), m.0, m.1)
  }

  function Marks256(marks: seq<(Addr, nat)>): Words256 {
    if marks == [] then map[]
    else
      var m := marks[|marks| - 1];
      Set256(Marks256(marks[..|marks| - 1]), m.0, m.1)
  }

  /**
   After any sequence of attested days both packings hold exactly those days,
   and each Solidity word is two CosmWasm words side by side.
   */
  lemma {:induction false} PackingsAgree(marks: seq<(Addr, nat)>)
    ensures Joined(Marks128(marks), Marks256(marks))
    ensures forall who, day: nat :: Get128(Marks128(marks), who, day) <==> (who, day) in marks
    ensures forall who, day: nat :: Get256(Marks256(marks), who, day) <==> (who, day) in marks
  {
    hide Get128, Get256, Set128, Set256;
    forall who, day: nat {
      NoFlagsInEmpty(who, day);
    }
    if marks != [] {
      var before, m := marks[..|marks| - 1], marks[|marks| - 1];
      assert marks == before + [m];
      PackingsAgree(before);
      forall who, k: nat
        ensures JoinedAt(Marks128(marks), Marks256(marks), who, k)
      {
        SetKeepsJoinedAt(Marks128(before), Marks256(before), m.0, m.1, who, k);
      }
      forall who, day: nat
        ensures Get128(Marks128(marks), who, day) <==> (who, day) in marks
        ensures Get256(Marks256(marks), who, day) <==> (who, day) in marks
      {
        Set128Adds(Marks128(before), m.0, m.1, who, day);
        Set256Adds(Marks256(before), m.0, m.1, who, day);
      }
    }
  }

  // ---------- the stored maps ----------

  /** The day flags of the CosmWasm contract. */
  class Bits128 {
    var words: Words128
    ghost var days: DayFlags

    ghost predicate Valid()
      reads this
    {
      forall who, day: nat :: Get128(words, who, day) <==> day in DaysOf(days, who)
    }

    constructor ()
      ensures Valid() && words == map[] && days == map[]
    {
      words, days := map[], map[];
      hide Get128, Get256;
      forall who, day: nat {
        NoFlagsInEmpty(who, day);
      }
    }

    method SetBit(who: Addr, day: nat)
      requires Valid()
      modifies this
      ensures Valid()
      ensures words == Set128(old(words), who, day)
      ensures days == Marked(old(days), who, day)
    {
      hide W.With, W.Bit, Position;
      var wordIdx := day / 128;
      var bitPos := day % 128;
      var current := if (who, wordIdx) in words then words[(who, wordIdx)] else 0;
      words := words[(who, wordIdx) := W.With(current, Pos(bitPos))];
      days := Marked(days, who, day);
      forall who', day': nat
        ensures Get128(words, who', day') <==> day' in DaysOf(days, who')
      {
        Set128Adds(old(words), who, day, who', day');
      }
    }

    predicate GetBit(who: Addr, day: nat)
      requires Valid()
      reads this
      ensures GetBit(who, day) <==> day in DaysOf(days, who)
    {
      var current := if (who, day / 128) in words then words[(who, day / 128)] else 0;
      W.Bit(current, Pos(day % 128))
    }

    /** Whether some day of the week is flagged. */
    method WeekQualifies(who: Addr, w: nat) returns (qualified: bool)
      requires Valid()
      ensures qualified <==> Qualified(DaysOf(days, who), w)
    {
      var weekStart := w * 7;
      for i := 0 to 7
        invariant forall d | d in DaysOf(days, who) :: d / 7 != w || d >= weekStart + i
      {
        if GetBit(who, weekStart + i) {
          assert (weekStart + i) / 7 == w;
          return true;
        }
      }
      return false;
    }
  }

  /** The day flags of the Solidity contract. */
  class Bits256 {
    var words: Words256
    ghost var days: DayFlags

    ghost predicate Valid()
      reads this
    {
      forall who, day: nat :: Get256(words, who, day) <==> day in DaysOf(days, who)
    }

    constructor ()
      ensures Valid() && words == map[] && days == map[]
    {
      words, days := map[], map[];
      hide Get128, Get256;
      forall who, day: nat {
        NoFlagsInEmpty(who, day);
      }
    }

    method SetBit(who: Addr, day: nat)
      requires Valid()
      modifies this
      ensures Valid()
      ensures words == Set256(old(words), who, day)
      ensures days == Marked(old(days), who, day)
    {
      hide V.With, V.Bit, Position;
      var wordIdx := day / 256;
      var bitPos := day % 256;
      var current := if (who, wordIdx) in words then words[(who, wordIdx)] else 0;
      words := words[(who, wordIdx) := V.With(current, Position(bitPos))];
      days := Marked(days, who, day);
      forall who', day': nat
        ensures Get256(words, who', day') <==> day' in DaysOf(days, who')
      {
        Set256Adds(old(words), who, day, who', day');
      }
    }

    predicate GetBit(who: Addr, day: nat)
      requires Valid()
      reads this
      ensures GetBit(who, day) <==> day in DaysOf(days, who)
    {
      var current := if (who, day / 256) in words then words[(who, day / 256)] else 0;
      V.Bit(current, Position(day % 256))
    }

    /** Whether some day of the week is flagged. */
    method WeekQualifies(who: Addr, w: nat) returns (qualified: bool)
      requires Valid()
      ensures qualified <==> Qualified(DaysOf(days, who), w)
    {
      var weekStart := w * 7;
      for i := 0 to 7
        invariant forall d | d in DaysOf(days, who) :: d / 7 != w || d >= weekStart + i
      {
        if GetBit(who, weekStart + i) {
          assert (weekStart + i) / 7 == w;
          return true;
        }
      }
      return false;
    }
  }
}
