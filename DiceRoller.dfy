/**
 * The d6 source.  Seeded, it is a linear congruential generator over one
 * `state` field; unseeded, every roll comes from the platform's random
 * number generator, which the model treats as an arbitrary die face.
 */
module Dice {
  import opened Wrappers
  import opened JsArith

  const Multiplier: int := 1103515245
  const Increment: int := 12345
  /** 2^31, the generator's modulus. */
  const Modulus: int := 0x8000_0000
  /** An unseeded roller starts from `Math.floor(Math.random() * 2147483647)`. */
  const UnseededStateBound: int := 2147483647

  /**
   * `state * 1103515245 + 12345` as JavaScript evaluates it on doubles: the
   * product is rounded to the nearest double, then the sum is.  Rounding
   * can change the value only once the product reaches 2^53, that is for a
   * state above 8162278; from seed 42 that first happens at the second step.
   */
  function StepSum(s: int): (r: int)
    ensures s >= 0 ==> r >= 0
    ensures Abs(s * Multiplier) < TwoTo53 && Abs(s * Multiplier + Increment) < TwoTo53 ==> r == s * Multiplier + Increment
  {
    RoundToDouble(RoundToDouble(s * Multiplier) + Increment)
  }

  /**
   * The generator step as the source writes it: the rounded sum, then
   * JavaScript's truncated `%`, so a negative state stays negative.
   */
  function NextStateAsWritten(s: int): (r: int)
    ensures s >= 0 ==> r == NextState(s)
  {
    JsRem(StepSum(s), Modulus)
  }

  /** The generator step on a non-negative state: the rounded sum reduced mod 2^31, a state in [0, 2^31). */
  function NextState(s: int): (r: int)
    ensures 0 <= r < Modulus
  {
    StepSum(s) % Modulus
  }

  /** The die face of a state: `floor(state / 2^31 * 6) + 1`, which a double computes exactly for an integer state. */
  function Face(s: int): (r: int)
    ensures 0 <= s < Modulus ==> 1 <= r <= 6
  {
    s * 6 / Modulus + 1
  }

  /** With the source's `%`, a seed of -1 makes the first roll -3, outside 1..6. */
  lemma NegativeSeedRollsOutOfRange()
    ensures NextStateAsWritten(-1) == -1103502900
    ensures Face(NextStateAsWritten(-1)) == -3
  {
    assert -1 * Multiplier + Increment == -1103502900;
    assert StepSum(-1) == -1103502900;
    assert JsRem(-1103502900, Modulus) == -1103502900;
  }

  /** From a state of at most 8162278 the step involves no rounding at all. */
  lemma SmallStateStepsExactly(s: int)
    requires 0 <= s <= 8162278
    ensures StepSum(s) == s * Multiplier + Increment
    ensures NextState(s) == (s * Multiplier + Increment) % Modulus
  {
    assert s * Multiplier <= 8162278 * Multiplier;
  }

  /** Seed 42 rolls 4, 4, 6. */
  lemma Seed42Rolls()
    ensures LcgRolls(42, 3) == [4, 4, 6]
  {
    Seed42States();
    LcgRollsAt(42, 3, 0);
    LcgRollsAt(42, 3, 1);
    LcgRollsAt(42, 3, 2);
    assert Face(1250496027) == 4 && Face(1116302080) == 4 && Face(1964818176) == 6;
  }

  /**
   * The rounding matters: from seed 42 the second product is rounded from
   * 1379941429606431615 to 1379941429606431488, so the second state is
   * 1116302080 where exact integer arithmetic would give 1116302264, and
   * the third face is 6 where exact integers would give 3.
   */
  lemma ExactIntegersWouldDiffer()
    ensures var exact := (1250496027 * Multiplier + Increment) % Modulus;
      exact == 1116302264 != LcgAfter(42, 2)
    ensures Face((1116302264 * Multiplier + Increment) % Modulus) == 3 != LcgRolls(42, 3)[2]
  {
    assert 1250496027 * Multiplier + Increment == 1379941429606443960;
    assert 1379941429606443960 % Modulus == 1116302264;
    assert 1116302264 * Multiplier + Increment == 1231856566352027025;
    assert 1231856566352027025 % Modulus == 1000676753;
    assert Face(1000676753) == 3;
    Seed42States();
    Seed42Rolls();
  }

  /** The first three states from seed 42. */
  lemma Seed42States()
    ensures LcgAfter(42, 1) == 1250496027
    ensures LcgAfter(42, 2) == 1116302080
    ensures LcgAfter(42, 3) == 1964818176
  {
    assert StepSum(42) == 46347652635;
    assert LcgAfter(42, 1) == NextState(42) == 1250496027;
    SecondStepSum();
    assert LcgAfter(42, 2) == NextState(1250496027) == 1116302080;
    ThirdStepSum();
    assert LcgAfter(42, 3) == NextState(1116302080);
  }

  /** The rounded sum behind the second state from seed 42, shift by shift. */
  lemma SecondStepSum()
    ensures StepSum(1250496027) == 1379941429606443776
  {
    assert 1250496027 * Multiplier == 1379941429606431615;
    assert RoundShifted(5390396209400123, false, true) == 5390396209400123;
    assert RoundShifted(10780792418800246, true, true) == 10780792418800246;
    assert RoundShifted(21561584837600493, true, true) == 21561584837600492;
    assert RoundShifted(43123169675200987, true, true) == 43123169675200984;
    assert RoundShifted(86246339350401975, true, true) == 86246339350401968;
    assert RoundShifted(172492678700803951, true, true) == 172492678700803936;
    assert RoundShifted(344985357401607903, true, true) == 344985357401607872;
    assert RoundShifted(689970714803215807, true, false) == 689970714803215744;
    assert RoundShifted(1379941429606431615, false, false) == 1379941429606431488;
    assert RoundToDouble(1250496027 * Multiplier) + Increment == 1379941429606443833;
    assert RoundShifted(5390396209400171, false, true) == 5390396209400171;
    assert RoundShifted(10780792418800342, false, true) == 10780792418800342;
    assert RoundShifted(21561584837600684, true, true) == 21561584837600684;
    assert RoundShifted(43123169675201369, true, true) == 43123169675201368;
    assert RoundShifted(86246339350402739, true, true) == 86246339350402736;
    assert RoundShifted(172492678700805479, false, true) == 172492678700805472;
    assert RoundShifted(344985357401610958, false, true) == 344985357401610944;
    assert RoundShifted(689970714803221916, true, false) == 689970714803221888;
    assert RoundShifted(1379941429606443833, false, false) == 1379941429606443776;
  }

  /** The rounded sum behind the third state from seed 42, shift by shift. */
  lemma ThirdStepSum()
    ensures StepSum(1116302080) == 1231856363305221888
  {
    assert 1116302080 * Multiplier == 1231856363305209600;
    assert RoundShifted(4811938919160975, false, false) == 4811938919160975;
    assert RoundShifted(9623877838321950, false, false) == 9623877838321950;
    assert RoundShifted(19247755676643900, false, false) == 19247755676643900;
    assert RoundShifted(38495511353287800, false, false) == 38495511353287800;
    assert RoundShifted(76991022706575600, false, false) == 76991022706575600;
    assert RoundShifted(153982045413151200, false, false) == 153982045413151200;
    assert RoundShifted(307964090826302400, false, false) == 307964090826302400;
    assert RoundShifted(615928181652604800, false, false) == 615928181652604800;
    assert RoundShifted(1231856363305209600, false, false) == 1231856363305209600;
    assert RoundToDouble(1116302080 * Multiplier) + Increment == 1231856363305221945;
    assert RoundShifted(4811938919161023, false, true) == 4811938919161023;
    assert RoundShifted(9623877838322046, false, true) == 9623877838322046;
    assert RoundShifted(19247755676644092, true, true) == 19247755676644092;
    assert RoundShifted(38495511353288185, true, true) == 38495511353288184;
    assert RoundShifted(76991022706576371, true, true) == 76991022706576368;
    assert RoundShifted(153982045413152743, false, true) == 153982045413152736;
    assert RoundShifted(307964090826305486, false, true) == 307964090826305472;
    assert RoundShifted(615928181652610972, true, false) == 615928181652610944;
    assert RoundShifted(1231856363305221945, false, false) == 1231856363305221888;
  }

  /** The state after `n` steps from `s`. */
  function LcgAfter(s: int, n: nat): (r: int)
    ensures n > 0 ==> 0 <= r < Modulus
    ensures n == 0 ==> r == s
  {
    if n == 0 then s else NextState(LcgAfter(s, n - 1))
  }

  /** The faces of the first `n` rolls drawn from state `s`, in draw order. */
  function LcgRolls(s: int, n: nat): (rolls: seq<int>)
    ensures |rolls| == n
    ensures forall i :: 0 <= i < n ==> 1 <= rolls[i] <= 6
  {
    if n == 0 then [] else LcgRolls(s, n - 1) + [Face(LcgAfter(s, n))]
  }

  /** Stepping `a + b` times is stepping `a` times, then `b` times. */
  lemma {:induction false} LcgAfterSplit(s: int, a: nat, b: nat)
    ensures LcgAfter(s, a + b) == LcgAfter(LcgAfter(s, a), b)
  {
    if b > 0 {
      LcgAfterSplit(s, a, b - 1);
    }
  }

  /** Drawing `a + b` dice yields the first `a` dice followed by the `b` dice drawn from where they left off. */
  lemma {:induction false} LcgRollsSplit(s: int, a: nat, b: nat)
    ensures LcgRolls(s, a + b) == LcgRolls(s, a) + LcgRolls(LcgAfter(s, a), b)
  {
    if b > 0 {
      LcgRollsSplit(s, a, b - 1);
      LcgAfterSplit(s, a, b);
    }
  }

  /** The `i`-th of the first `n` rolls is the face of the state after `i + 1` steps. */
  lemma {:induction false} LcgRollsAt(s: int, n: nat, i: nat)
    requires i < n
    ensures LcgRolls(s, n)[i] == Face(LcgAfter(s, i + 1))
  {
    if i < n - 1 {
      LcgRollsAt(s, n - 1, i);
    }
  }

  /** How many dice `rollMultiple(count)` draws: `Array.from({ length: count })` makes no element for a negative count. */
  function DiceCount(count: int): (n: nat)
    ensures count >= 0 ==> n == count
    ensures count < 0 ==> n == 0
  {
    if count < 0 then 0 else count
  }

  /**
   * `rolls` are `n` die faces drawn by a roller with `seed` that went from
   * state `s0` to `s1`: the next `n` generator outputs when seeded; when
   * unseeded, any faces, and the state is left alone.
   */
  predicate Drawn(seed: Option<int>, s0: int, n: nat, rolls: seq<int>, s1: int)
  {
    && |rolls| == n
    && (forall i :: 0 <= i < n ==> 1 <= rolls[i] <= 6)
    && (seed.Some? ==> rolls == LcgRolls(s0, n) && s1 == LcgAfter(s0, n))
    && (seed.None? ==> s1 == s0)
  }

  /** Drawing no dice yields nothing and leaves the state as it was. */
  lemma DrawingNothing(seed: Option<int>, s0: int, rolls: seq<int>, s1: int)
    requires Drawn(seed, s0, 0, rolls, s1)
    ensures rolls == [] && s1 == s0
  {
  }

  /** Drawing `n` dice and then one more is drawing `n + 1` dice. */
  lemma DrawingOneMore(seed: Option<int>, s0: int, n: nat, rolls: seq<int>, s1: int, r: int, s2: int)
    requires Drawn(seed, s0, n, rolls, s1)
    requires Drawn(seed, s1, 1, [r], s2)
    ensures Drawn(seed, s0, n + 1, rolls + [r], s2)
  {
    if seed.Some? {
      LcgRollsSplit(s0, n, 1);
      LcgAfterSplit(s0, n, 1);
    }
  }

  class DiceRoller {
    const seed: Option<int>
    var state: int

    constructor (seed: Option<int>)
      ensures this.seed == seed
      ensures seed.Some? ==> state == seed.value
      ensures seed.None? ==> 0 <= state < UnseededStateBound
    {
      this.seed := seed;
      if seed.Some? {
        state := seed.value;
      } else {
        var s :| 0 <= s < UnseededStateBound;
        state := s;
      }
    }

    /** One d6. */
    method Roll() returns (r: int)
      modifies this
      ensures 1 <= r <= 6
      ensures Drawn(seed, old(state), 1, [r], state)
    {
      if seed.Some? {
        state := NextState(state);
        r := Face(state);
      } else {
        r :| 1 <= r <= 6;
      }
    }

    /** `count` d6, in draw order. */
    method RollMultiple(count: int) returns (rolls: seq<int>)
      modifies this
      ensures Drawn(seed, old(state), DiceCount(count), rolls, state)
    {
      rolls := [];
      for i := 0 to DiceCount(count)
        invariant Drawn(seed, old(state), i, rolls, state)
      {
        ghost var before := state;
        var r := Roll();
        DrawingOneMore(seed, old(state), i, rolls, before, r, state);
        rolls := rolls + [r];
      }
    }
  }

  /** Two rollers built with the same seed roll the same dice. */
  method SameSeedSameRolls(seed: int, count: int) returns (xs: seq<int>, ys: seq<int>)
    ensures xs == ys
    ensures |xs| == DiceCount(count)
  {
    var first := new DiceRoller(Some(seed));
    var second := new DiceRoller(Some(seed));
    xs := first.RollMultiple(count);
    ys := second.RollMultiple(count);
  }

  /** Drawing `a` dice and then `b` dice from one roller yields what drawing `a + b` dice at once would. */
  method ConsecutiveDraws(roller: DiceRoller, a: nat, b: nat) returns (xs: seq<int>, ys: seq<int>)
    requires roller.seed.Some?
    modifies roller
    ensures xs + ys == LcgRolls(old(roller.state), a + b)
    ensures roller.state == LcgAfter(old(roller.state), a + b)
  {
    xs := roller.RollMultiple(a);
    ys := roller.RollMultiple(b);
    LcgRollsSplit(old(roller.state), a, b);
    LcgAfterSplit(old(roller.state), a, b);
  }
}
