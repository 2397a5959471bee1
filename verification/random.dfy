/**
 * The hash-based random number generator: a 32-bit state advanced by a
 * linear congruential step, whose new value is scrambled into a float in
 * [0, 1]. The state is an `unsigned int`: the step's wrap-around is written
 * out as `% 2^32`, and the scrambling, which is all shifts and exclusive-ors,
 * is done on `bv32`. The float results are modelled as reals.
 */
module Random {

  const WordCount: int := 0x1_0000_0000

  /** An `unsigned int`. */
  newtype Word = x: int | 0 <= x < 0x1_0000_0000

  const Multiplier: int := 747796405
  const Increment: int := 2891336453
  /** The multiplicative inverse of `Multiplier` modulo 2^32 (the multiplier is odd). */
  const InverseMultiplier: int := 3425435293
  /** 2^32 - 1, the largest `unsigned int` and the divisor that maps a hash into [0, 1]. */
  const MaxWord: Word := 0xFFFF_FFFF

  /** The state update `state * 747796405u + 2891336453u`, wrapping modulo 2^32. */
  function Step(state: Word): Word {
    ((state as int * Multiplier + Increment) % WordCount) as Word
  }

  /** The update run backwards. */
  function Unstep(state: Word): Word {
    (((state as int - Increment) * InverseMultiplier) % WordCount) as Word
  }

  /** `Multiplier * InverseMultiplier` is one more than a multiple of 2^32. */
  lemma InverseMultiplierIsInverse()
    ensures Multiplier * InverseMultiplier == 1 + 596402259 * WordCount
  {
  }

  lemma ModShift(s: int, c: int)
    requires 0 <= s < WordCount
    ensures (s + WordCount * c) % WordCount == s
  {
  }

  /**
   * The state update is a bijection on 32-bit words: `Unstep` undoes it and
   * it undoes `Unstep`, so no two states share a successor.
   */
  lemma StepBijective(state: Word)
    ensures Unstep(Step(state)) == state
    ensures Step(Unstep(state)) == state
  {
    InverseMultiplierIsInverse();
    var s := state as int;
    var a := s * Multiplier + Increment;
    var q := a / WordCount;
    assert (a - WordCount * q - Increment) * InverseMultiplier
        == s + WordCount * (s * 596402259 - q * InverseMultiplier);
    ModShift(s, s * 596402259 - q * InverseMultiplier);
    var b := (s - Increment) * InverseMultiplier;
    var p := b / WordCount;
    assert (b - WordCount * p) * Multiplier + Increment
        == s + WordCount * ((s - Increment) * 596402259 - p * Multiplier);
    ModShift(s, (s - Increment) * 596402259 - p * Multiplier);
  }

  lemma StepInjective(s: Word, t: Word)
    ensures Step(s) == Step(t) <==> s == t
  {
    StepBijective(s);
    StepBijective(t);
  }

  /** The data-dependent shift `(state >> 28u) + 4u`: between 4 and 19, so the shift it drives is defined. */
  function Shift(state: bv32): (n: bv32)
    ensures 4 <= n <= 19
  {
    (state >> 28) + 4
  }

  /** The output permutation applied to an updated state, on the state's bits. */
  function HashBits(state: bv32): bv32 {
    var result := ((state >> Shift(state)) ^ state) * 277803737;
    (result >> 22) ^ result
  }

  function Hash(state: Word): Word {
    HashBits(state as bv32) as int as Word
  }

  /** One draw: the value returned together with the state left behind. */
  datatype Draw = Draw(value: real, state: Word)

  /** The hash as a fraction of 2^32 - 1: `result / 4294967295.0`. */
  function Fraction(h: Word): (u: real)
    ensures 0.0 <= u <= 1.0
    ensures u == 1.0 <==> h == MaxWord
    ensures u == 0.0 <==> h == 0
  {
    (h as int) as real / (MaxWord as int) as real
  }

  /**
   * `random(state)`: advances the state and returns the hash of the new
   * state scaled into [0, 1]; 1.0 is reached exactly when the hash is 2^32 - 1.
   */
  function NextRandom(state: Word): (d: Draw)
    ensures d.state == Step(state)
    ensures 0.0 <= d.value <= 1.0
    ensures d.value == 1.0 <==> Hash(Step(state)) == MaxWord
  {
    var next := Step(state);
    Draw(Fraction(Hash(next)), next)
  }

  /** Two states that leave the same state behind were the same state, and drew the same value. */
  lemma NextRandomDeterministic(s: Word, t: Word)
    requires NextRandom(s).state == NextRandom(t).state
    ensures s == t && NextRandom(s) == NextRandom(t)
  {
    StepInjective(s, t);
  }

  /** `randomFloat(min, max, state)`: `min + (max - min) * random(state)`. */
  function RandomFloat(min: real, max: real, state: Word): (d: Draw)
    ensures d.state == Step(state)
    ensures min <= max ==> min <= d.value <= max
    ensures d.value == max <==> min == max || Hash(Step(state)) == MaxWord
  {
    var r := NextRandom(state);
    Draw(Scaled(min, max, r.value), r.state)
  }

  /** `min + (max - min) * u` for `u` in [0, 1]: inside the range, and at its top only for `u == 1` or an empty range. */
  function Scaled(min: real, max: real, u: real): (v: real)
    requires 0.0 <= u <= 1.0
    ensures min <= max ==> min <= v <= max
    ensures v == max <==> min == max || u == 1.0
  {
    var v := min + (max - min) * u;
    ScaleWithin(min, max, u, v);
    v
  }

  lemma ScaleWithin(min: real, max: real, u: real, v: real)
    requires 0.0 <= u <= 1.0
    requires v == min + (max - min) * u
    ensures min <= max ==> min <= v <= max
    ensures v == max <==> min == max || u == 1.0
  {
    var d := max - min;
    assert d * u + d * (1.0 - u) == d;
    if d != 0.0 && u != 1.0 {
      assert d * (1.0 - u) != 0.0;
      assert v != max;
    }
    if d == 0.0 {
      assert d * u == 0.0;
    }
    if d >= 0.0 {
      assert d * u >= 0.0 && d * (1.0 - u) >= 0.0;
    }
  }

  /** A drawn integer with the state left behind. */
  datatype IntDraw = IntDraw(value: int, state: Word)

  /**
   * `random_int(min, max, state)`: the floor of `randomFloat` over the
   * same bounds. Both ends are inclusive: `max` comes out exactly when the
   * hash is 2^32 - 1 (or the range is a single value).
   */
  function RandomInt(min: int, max: int, state: Word): (d: IntDraw)
    ensures d.state == Step(state)
    ensures min <= max ==> min <= d.value <= max
    ensures min < max ==> (d.value == max <==> Hash(Step(state)) == MaxWord)
  {
    var f := RandomFloat(min as real, max as real, state);
    FloorWithin(min, max, f.value);
    IntDraw(f.value.Floor, f.state)
  }

  lemma FloorWithin(min: int, max: int, v: real)
    requires min <= max ==> min as real <= v <= max as real
    ensures min <= max ==> min <= v.Floor <= max
    ensures min <= max ==> (v.Floor == max <==> v == max as real)
  {
  }

  /**
   * The upper bound is reachable: some state draws exactly 1.0, so
   * `random_int` can return `max` itself.
   */
  lemma TopReachable(min: int, max: int)
    requires min < max
    ensures exists s: Word :: RandomInt(min, max, s).value == max
  {
    var s := Unstep(MaxHashState);
    StepBijective(MaxHashState);
    MaxHashStateHashesToMax();
    assert RandomInt(min, max, s).value == max;
  }

  /** A state whose hash is 2^32 - 1. */
  const MaxHashState: Word := 0x1EBF_A108

  lemma MaxHashStateHashesToMax()
    ensures Hash(MaxHashState) == MaxWord
  {
    assert MaxHashState == 0x1EBF_A108 as Word;
    HashBitsTop();
    BitsOfMaxHashState();
    MaxWordBits();
  }

  lemma HashBitsTop()
    ensures HashBits(0x1EBF_A108) == 0xFFFF_FFFF
  {
  }

  lemma BitsOfMaxHashState()
    ensures (0x1EBF_A108 as Word) as bv32 == 0x1EBF_A108
  {
  }

  lemma MaxWordBits()
    ensures (0xFFFF_FFFF as bv32) as int == 0xFFFF_FFFF
  {
  }
}
