/** The integer arithmetic of one synthesized harmonic: its pitch offset in semitones
    (the `ratioToSemitones` helper of processBlock) and its clamped velocity. */
module Harmonics {

  function Pow(b: nat, e: nat): nat
  {
    if e == 0 then 1 else b * Pow(b, e - 1)
  }

  lemma {:induction false} PowPositive(b: nat, e: nat)
    requires b >= 1
    ensures Pow(b, e) >= 1
  {
    if e > 0 { PowPositive(b, e - 1); }
  }

  lemma {:induction false} Pow2Monotone(x: nat, y: nat)
    requires x <= y
    ensures Pow(2, x) <= Pow(2, y)
    decreases y
  {
    if x < y { Pow2Monotone(x, y - 1); PowPositive(2, y - 1); }
  }

  /** The `L` with 2^L <= n < 2^(L+1) (see Log2FloorBounds). */
  function Log2Floor(n: nat): nat
    requires n >= 1
  {
    if n < 2 then 0 else 1 + Log2Floor(n / 2)
  }

  lemma {:induction false} Log2FloorBounds(n: nat)
    requires n >= 1
    ensures Pow(2, Log2Floor(n)) <= n < Pow(2, Log2Floor(n) + 1)
  {
    if n >= 2 { Log2FloorBounds(n / 2); }
  }

  /** ratioToSemitones: round(12 * log2(ratio)), computed without floating point
      (see SemitonesRounds). */
  function Semitones(ratio: nat): nat
    requires ratio >= 1
  {
    PowPositive(ratio, 24);
    (Log2Floor(Pow(ratio, 24)) + 1) / 2
  }

  /** s = Semitones(ratio) is the nearest integer to 12 * log2(ratio):
      s - 1/2 <= 12 * log2(ratio) < s + 1/2, that is 2^(2s) <= 2 * ratio^24 < 2^(2s+2).
      Halves round upwards, as std::round does for positive arguments. */
  lemma SemitonesRounds(ratio: nat)
    requires ratio >= 1
    ensures var s := Semitones(ratio);
      Pow(2, 2 * s) <= 2 * Pow(ratio, 24) < Pow(2, 2 * s + 2)
  {
    PowPositive(ratio, 24);
    var l := Log2Floor(Pow(ratio, 24));
    Log2FloorBounds(Pow(ratio, 24));
    var s := (l + 1) / 2;
    Pow2Monotone(2 * s, l + 1);
    Pow2Monotone(l + 1, 2 * s + 1);
  }

  /** Only one integer is within half a semitone of 12 * log2(ratio). */
  lemma SemitonesUnique(ratio: nat, s: nat)
    requires ratio >= 1
    requires Pow(2, 2 * s) <= 2 * Pow(ratio, 24) < Pow(2, 2 * s + 2)
    ensures Semitones(ratio) == s
  {
    var t := Semitones(ratio);
    SemitonesRounds(ratio);
    if t < s {
      Pow2Monotone(2 * t + 2, 2 * s);
    } else if s < t {
      Pow2Monotone(2 * s + 2, 2 * t);
    }
  }

  /** Pow by repeated squaring; it lets concrete powers be evaluated in few steps. */
  ghost function FastPow(b: nat, e: nat): nat
    decreases e
  {
    if e == 0 then 1
    else
      var h := FastPow(b, e / 2);
      if e % 2 == 0 then h * h else b * (h * h)
  }

  lemma {:induction false} PowAdd(b: nat, x: nat, y: nat)
    ensures Pow(b, x + y) == Pow(b, x) * Pow(b, y)
    decreases y
  {
    if y > 0 {
      PowAdd(b, x, y - 1);
      calc {
        Pow(b, x + y);
        b * Pow(b, x + y - 1);
        b * (Pow(b, x) * Pow(b, y - 1));
        Pow(b, x) * (b * Pow(b, y - 1));
      }
    }
  }

  lemma {:induction false} FastPowIsPow(b: nat, e: nat)
    ensures FastPow(b, e) == Pow(b, e)
    decreases e
  {
    if e > 0 {
      FastPowIsPow(b, e / 2);
      PowAdd(b, e / 2, e / 2);
      if e % 2 == 1 {
        assert Pow(b, e) == b * Pow(b, e / 2 + e / 2);
      }
    }
  }

  /** Only one integer is within half a semitone of 12 * log2(ratio), checked on
      powers computed by squaring. */
  lemma SemitonesAt(ratio: nat, s: nat)
    requires ratio >= 1
    requires FastPow(2, 2 * s) <= 2 * FastPow(ratio, 24) < FastPow(2, 2 * s + 2)
    ensures Semitones(ratio) == s
  {
    FastPowIsPow(2, 2 * s);
    FastPowIsPow(ratio, 24);
    FastPowIsPow(2, 2 * s + 2);
    SemitonesUnique(ratio, s);
  }

  // The rounding windows of the harmonics 2 to 9: 2^(2s) <= 2 * ratio^24 < 2^(2s+2) for the
  // table offset s.

  lemma RoundingWindowOfRatio2(i: nat)
    requires i == 0
    ensures FastPow(2, 24) <= 2 * FastPow(i + 2, 24) < FastPow(2, 26)
  {
    assert FastPow(i + 2, 24) == FastPow(2, 24) == 16777216;
    assert FastPow(2, 26) == 67108864;
  }

  lemma RoundingWindowOfRatio3(i: nat)
    requires i == 1
    ensures FastPow(2, 38) <= 2 * FastPow(i + 2, 24) < FastPow(2, 40)
  {
    assert FastPow(i + 2, 24) == FastPow(3, 24) == 282429536481;
    assert FastPow(2, 38) == 274877906944;
    assert FastPow(2, 40) == 1099511627776;
  }

  lemma RoundingWindowOfRatio4(i: nat)
    requires i == 2
    ensures FastPow(2, 48) <= 2 * FastPow(i + 2, 24) < FastPow(2, 50)
  {
    assert FastPow(i + 2, 24) == FastPow(4, 24) == 281474976710656;
    assert FastPow(2, 48) == 281474976710656;
    assert FastPow(2, 50) == 1125899906842624;
  }

  lemma RoundingWindowOfRatio5(i: nat)
    requires i == 3
    ensures FastPow(2, 56) <= 2 * FastPow(i + 2, 24) < FastPow(2, 58)
  {
    assert FastPow(i + 2, 24) == FastPow(5, 24) == 59604644775390625;
    assert FastPow(2, 56) == 72057594037927936;
    assert FastPow(2, 58) == 288230376151711744;
  }

  lemma RoundingWindowOfRatio6(i: nat)
    requires i == 4
    ensures FastPow(2, 62) <= 2 * FastPow(i + 2, 24) < FastPow(2, 64)
  {
    assert FastPow(i + 2, 24) == FastPow(6, 24) == 4738381338321616896;
    assert FastPow(2, 62) == 4611686018427387904;
    assert FastPow(2, 64) == 18446744073709551616;
  }

  lemma RoundingWindowOfRatio7(i: nat)
    requires i == 5
    ensures FastPow(2, 68) <= 2 * FastPow(i + 2, 24) < FastPow(2, 70)
  {
    assert FastPow(i + 2, 24) == FastPow(7, 24) == 191581231380566414401;
    assert FastPow(2, 68) == 295147905179352825856;
    assert FastPow(2, 70) == 1180591620717411303424;
  }

  lemma RoundingWindowOfRatio8(i: nat)
    requires i == 6
    ensures FastPow(2, 72) <= 2 * FastPow(i + 2, 24) < FastPow(2, 74)
  {
    assert FastPow(i + 2, 24) == FastPow(8, 24) == 4722366482869645213696;
    assert FastPow(2, 72) == 4722366482869645213696;
    assert FastPow(2, 74) == 18889465931478580854784;
  }

  lemma RoundingWindowOfRatio9(i: nat)
    requires i == 7
    ensures FastPow(2, 76) <= 2 * FastPow(i + 2, 24) < FastPow(2, 78)
  {
    assert FastPow(i + 2, 24) == FastPow(9, 24) == 79766443076872509863361;
    assert FastPow(2, 76) == 75557863725914323419136;
    assert FastPow(2, 78) == 302231454903657293676544;
  }

  /** The number of harmonic indices the processor's arrays hold and note-offs cover. */
  const NumHarmonics: nat := 8

  /** The offsets of harmonics 2 to 9 above the base note. */
  const SemitoneTable: seq<nat> := [12, 19, 24, 28, 31, 34, 36, 38]

  /** For the eight harmonic indices the plugin stores, ratioToSemitones(i + 2) is the
      constant table. */
  lemma SemitoneTableCorrect()
    ensures forall i :: 0 <= i < 8 ==> Semitones(i + 2) == SemitoneTable[i]
  {
    forall i | 0 <= i < 8 ensures Semitones(i + 2) == SemitoneTable[i] {
      SemitoneTableAt(i);
    }
  }

  /** One entry of the table. The ratio is kept symbolic (i + 2) so that the verifier
      does not try to evaluate Semitones on a constant. */
  lemma SemitoneTableAt(i: nat)
    requires i < 8
    ensures Semitones(i + 2) == SemitoneTable[i]
  {
    if i == 0 {
      RoundingWindowOfRatio2(i);
    } else if i == 1 {
      RoundingWindowOfRatio3(i);
    } else if i == 2 {
      RoundingWindowOfRatio4(i);
    } else if i == 3 {
      RoundingWindowOfRatio5(i);
    } else if i == 4 {
      RoundingWindowOfRatio6(i);
    } else if i == 5 {
      RoundingWindowOfRatio7(i);
    } else if i == 6 {
      RoundingWindowOfRatio8(i);
    } else {
      RoundingWindowOfRatio9(i);
    }
    SemitonesAt(i + 2, SemitoneTable[i]);
  }

  /** The offset of harmonic index `i` (ratio i + 2) above the base note, read from the
      table for the eight indices it covers. */
  function HarmonicOffset(i: nat): nat
  {
    if i < NumHarmonics then SemitoneTable[i] else Semitones(i + 2)
  }

  /** The offset of every harmonic index is ratioToSemitones(i + 2). */
  lemma HarmonicOffsetRounds(i: nat)
    ensures HarmonicOffset(i) == Semitones(i + 2)
  {
    if i < NumHarmonics { SemitoneTableAt(i); }
  }

  /** static_cast<int> of a floating-point value: truncation towards zero. */
  function Trunc(x: real): int
  {
    if x >= 0.0 then x.Floor else -((-x).Floor)
  }

  /** The truncated value is the integer next to `x` on the side of zero. */
  lemma TruncTowardsZero(x: real)
    ensures 0.0 <= x ==> 0 <= Trunc(x) && Trunc(x) as real <= x < Trunc(x) as real + 1.0
    ensures x < 0.0 ==> Trunc(x) <= 0 && Trunc(x) as real - 1.0 < x <= Trunc(x) as real
  {
  }

  /** juce::jlimit(lo, hi, v). */
  function Clamp(lo: int, hi: int, v: int): (r: int)
    requires lo <= hi
    ensures lo <= r <= hi
    ensures lo <= v <= hi ==> r == v
    ensures v < lo ==> r == lo
    ensures hi < v ==> r == hi
  {
    if v < lo then lo else if hi < v then hi else v
  }

  /** The velocity of a synthesized note-on: the base velocity scaled by the strength,
      truncated, then limited to the audible MIDI range. */
  function HarmonicVelocity(velocity: int, strength: real): (r: int)
    ensures 1 <= r <= 127
  {
    Clamp(1, 127, Trunc(velocity as real * strength))
  }
}
