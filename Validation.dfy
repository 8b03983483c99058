/**
 * Input validation for unit stats and the iteration count, and `clamp`.
 * A JavaScript number is NaN, an infinity or a finite value; finite values
 * are modelled as exact reals.
 */
module Validation {
  import opened Wrappers

  datatype JsNumber = NaN | NegInfinity | PosInfinity | Finite(value: real)

  /** `value < bound` as JavaScript compares: false for NaN. */
  predicate Below(value: JsNumber, bound: int)
  {
    match value
    case NaN => false
    case NegInfinity => true
    case PosInfinity => false
    case Finite(x) => x < bound as real
  }

  /** `value > bound` as JavaScript compares: false for NaN. */
  predicate Above(value: JsNumber, bound: int)
  {
    match value
    case NaN => false
    case NegInfinity => false
    case PosInfinity => true
    case Finite(x) => x > bound as real
  }

  /** `Number.isInteger(value)`: finite and without fractional part. */
  predicate IsInteger(value: JsNumber)
  {
    value.Finite? && value.value.Floor as real == value.value
  }

  /** The stats that have constraints. */
  datatype StatName =
    | Attacks | Stands | Clash | Cleave | ExtraAttacks
    | Defense | Evasion | Health | Morale | Hardened

  datatype Constraint = Constraint(min: nat, max: nat, default: nat)

  /** The allowed range and the default of each stat. */
  function Constraints(stat: StatName): (c: Constraint)
    ensures c.min <= c.default <= c.max
  {
    match stat
    case Attacks => Constraint(1, 10, 3)
    case Stands => Constraint(1, 10, 3)
    case Clash => Constraint(1, 6, 4)
    case Cleave => Constraint(0, 6, 0)
    case ExtraAttacks => Constraint(0, 20, 0)
    case Defense => Constraint(1, 6, 4)
    case Evasion => Constraint(1, 6, 5)
    case Health => Constraint(1, 10, 3)
    case Morale => Constraint(1, 6, 4)
    case Hardened => Constraint(0, 6, 0)
  }

  /** The stat's name as it appears in messages. */
  function Name(stat: StatName): string
  {
    match stat
    case Attacks => "attacks"
    case Stands => "stands"
    case Clash => "clash"
    case Cleave => "cleave"
    case ExtraAttacks => "extraAttacks"
    case Defense => "defense"
    case Evasion => "evasion"
    case Health => "health"
    case Morale => "morale"
    case Hardened => "hardened"
  }

  const IterationsMin: nat := 1000
  const IterationsMax: nat := 100000

  /** The decimal digits of `n`. */
  function DecimalString(n: nat): (s: string)
    ensures |s| >= 1
    ensures forall i :: 0 <= i < |s| ==> '0' <= s[i] <= '9'
  {
    var digit := ['0' + (n % 10) as char];
    if n < 10 then digit else DecimalString(n / 10) + digit
  }

  /** A check's outcome: valid, or invalid with a message. */
  datatype Verdict = Verdict(valid: bool, error: Option<string>)

  const Accepted := Verdict(true, None)

  function Rejected(message: string): Verdict
  {
    Verdict(false, Some(message))
  }

  /**
   * The checks of a value against a range in their order: not a number,
   * below the minimum, above the maximum, not a whole number.
   */
  function CheckRange(value: JsNumber, min: nat, max: nat, notANumber: string, belowMin: string,
                      aboveMax: string, notWhole: string): (r: Verdict)
    ensures r.valid <==> r.error.None?
    ensures r.valid <==> value.Finite? && min as real <= value.value <= max as real && IsInteger(value)
  {
    if value.NaN? then Rejected(notANumber)
    else if Below(value, min) then Rejected(belowMin)
    else if Above(value, max) then Rejected(aboveMax)
    else if !IsInteger(value) then Rejected(notWhole)
    else Accepted
  }

  /** A unit stat must be a whole number within its stat's range. */
  function ValidateStat(value: JsNumber, stat: StatName): (r: Verdict)
    ensures r.valid <==> r.error.None?
    ensures r.valid <==>
              value.Finite? && IsInteger(value)
              && Constraints(stat).min as real <= value.value <= Constraints(stat).max as real
  {
    var c := Constraints(stat);
    var name := Name(stat);
    CheckRange(value, c.min, c.max,
               name + " must be a number",
               name + " must be at least " + DecimalString(c.min),
               name + " cannot exceed " + DecimalString(c.max),
               name + " must be a whole number")
  }

  /** The iteration count must be a whole number from 1000 to 100000. */
  function ValidateIterations(value: JsNumber): (r: Verdict)
    ensures r.valid <==> r.error.None?
    ensures r.valid <==> value.Finite? && IsInteger(value) && 1000.0 <= value.value <= 100000.0
  {
    CheckRange(value, IterationsMin, IterationsMax,
               "Iterations must be a number",
               "Iterations must be at least " + DecimalString(IterationsMin),
               "Iterations cannot exceed " + DecimalString(IterationsMax),
               "Iterations must be a whole number")
  }

  /**
   * A value that is both out of range and fractional is reported as out of
   * range: the range checks come before the whole-number check.
   */
  lemma RangeErrorTakesPrecedence(value: JsNumber, stat: StatName)
    requires value.Finite? && !IsInteger(value)
    requires value.value < Constraints(stat).min as real || value.value > Constraints(stat).max as real
    ensures ValidateStat(value, stat).error != Some(Name(stat) + " must be a whole number")
    ensures value.value < Constraints(stat).min as real ==>
      ValidateStat(value, stat).error == Some(Name(stat) + " must be at least " + DecimalString(Constraints(stat).min))
    ensures value.value >= Constraints(stat).min as real ==>
      ValidateStat(value, stat).error == Some(Name(stat) + " cannot exceed " + DecimalString(Constraints(stat).max))
  {
    var c := Constraints(stat);
    var r := ValidateStat(value, stat);
    var name := Name(stat);
    assert r.error.Some?;
    var msg := r.error.value;
    var tail := " must be a whole number";
    if value.value < c.min as real {
      assert msg == name + " must be at least " + DecimalString(c.min);
      assert msg[|name| + 10] == 't';
      assert (name + tail)[|name| + 10] == ' ';
    } else {
      assert msg == name + " cannot exceed " + DecimalString(c.max);
      assert msg[|name| + 1] == 'c';
      assert (name + tail)[|name| + 1] == 'm';
    }
  }

  /** Every stat's default passes that stat's validation. */
  lemma DefaultsAreValid(stat: StatName)
    ensures ValidateStat(Finite(Constraints(stat).default as real), stat).valid
  {
    var d := Constraints(stat).default as real;
    assert d.Floor == Constraints(stat).default;
  }

  /**
   * A health value that passes validation is a whole number of at least 1,
   * so the damage phase's division by health is defined.
   */
  lemma ValidHealthIsPositive(value: JsNumber)
    requires ValidateStat(value, Health).valid
    ensures value.Finite? && value.value.Floor >= 1 && value.value.Floor as real == value.value
  {
  }

  /** A validated iteration count is a whole number of at least one iteration. */
  lemma ValidIterationsRunAtLeastOnce(value: JsNumber)
    requires ValidateIterations(value).valid
    ensures value.Finite? && value.value.Floor >= 1 && value.value.Floor as real == value.value
  {
  }

  /** Where a non-NaN number sits in the order -Infinity < finite < +Infinity. */
  function Rank(x: JsNumber): int
  {
    match x
    case NegInfinity => 0
    case PosInfinity => 2
    case _ => 1
  }

  /** `a < b` as JavaScript compares two numbers: false when either is NaN. */
  predicate Less(a: JsNumber, b: JsNumber)
  {
    !a.NaN? && !b.NaN? &&
    if a.Finite? && b.Finite? then a.value < b.value else Rank(a) < Rank(b)
  }

  /** `Math.max(a, b)`: NaN when either is NaN, otherwise the larger. */
  function JsMax(a: JsNumber, b: JsNumber): (r: JsNumber)
    ensures r.NaN? <==> a.NaN? || b.NaN?
    ensures !r.NaN? ==> (r == a || r == b) && !Less(r, a) && !Less(r, b)
  {
    if a.NaN? || b.NaN? then NaN else if Less(a, b) then b else a
  }

  /** `Math.min(a, b)`: NaN when either is NaN, otherwise the smaller. */
  function JsMin(a: JsNumber, b: JsNumber): (r: JsNumber)
    ensures r.NaN? <==> a.NaN? || b.NaN?
    ensures !r.NaN? ==> (r == a || r == b) && !Less(a, r) && !Less(b, r)
  {
    if a.NaN? || b.NaN? then NaN else if Less(b, a) then b else a
  }

  /** `Math.min(Math.max(value, min), max)`. */
  function Clamp(value: JsNumber, min: JsNumber, max: JsNumber): (r: JsNumber)
    ensures r.NaN? <==> value.NaN? || min.NaN? || max.NaN?
    ensures !r.NaN? && !Less(max, min) ==> !Less(r, min) && !Less(max, r)
    ensures !r.NaN? && !Less(value, min) && !Less(max, value) ==> r == value
    ensures !r.NaN? && Less(max, min) ==> r == max
    ensures r.NaN? || r == value || r == min || r == max
  {
    JsMin(JsMax(value, min), max)
  }

  /** Clamping twice to the same range changes nothing more. */
  lemma ClampIdempotent(value: JsNumber, min: JsNumber, max: JsNumber)
    ensures Clamp(Clamp(value, min, max), min, max) == Clamp(value, min, max)
  {
  }
}
