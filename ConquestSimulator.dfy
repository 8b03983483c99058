/**
 * The Monte Carlo orchestrator: resolve `iterations` combats one after the
 * other on one shared roller, extract each combat's scalars, and aggregate
 * them into distributions and statistical summaries.
 */
module Simulator {
  import opened Wrappers
  import opened Tally
  import opened UnitTypes
  import opened CombatTypes
  import opened RuleRegistry
  import opened Dice
  import opened CombatPhases
  import opened SimulationTypes
  import opened Statistics

  // ------------------------------------------------------- one combat, pure

  /** The dice one combat draws, phase by phase. */
  datatype TrialDice = TrialDice(attack: seq<int>, defense: seq<int>, morale: seq<int>)

  /**
   * The combat resolved from the given dice: each phase's output feeds the
   * next (the attack's hits, then the unblocked hits, then the damage).
   */
  function CombatOf(a: Attacker, d: Defender, reg: Registry, dice: TrialDice): CombatResolution
    requires d.health >= 1
  {
    var attack := AttackPhaseOf(a, dice.attack, reg);
    var defense := DefensePhaseOf(a, d, attack.hits, dice.defense, reg);
    var damage := DamagePhaseOf(d, defense.hitsRemaining, reg);
    var morale := MoralePhaseOf(d, damage.damage, dice.morale, reg);
    CombatResolution(attack, defense, damage, morale)
  }

  /** Every roll is a die face. */
  predicate AllFaces(rolls: seq<int>)
  {
    forall i :: 0 <= i < |rolls| ==> 1 <= rolls[i] <= 6
  }

  /** `dice` are die faces, as many per phase as that phase of the combat draws. */
  predicate DiceFit(a: Attacker, d: Defender, reg: Registry, dice: TrialDice)
    requires d.health >= 1
  {
    var res := CombatOf(a, d, reg, dice);
    && |dice.attack| == DiceCount(TotalDice(a))
    && |dice.defense| == DiceCount(res.attackPhase.hits)
    && |dice.morale| == MoraleDice(res.damagePhase.damage)
    && AllFaces(dice.attack) && AllFaces(dice.defense) && AllFaces(dice.morale)
  }

  /** The dice a seeded roller in state `s` draws for one combat, and its state afterwards. */
  function SeededTrial(a: Attacker, d: Defender, reg: Registry, s: int): (TrialDice, int)
    requires d.health >= 1
  {
    var nAttack := DiceCount(TotalDice(a));
    var attackRolls := LcgRolls(s, nAttack);
    var s1 := LcgAfter(s, nAttack);
    var attack := AttackPhaseOf(a, attackRolls, reg);
    var nDefense := DiceCount(attack.hits);
    var defenseRolls := LcgRolls(s1, nDefense);
    var s2 := LcgAfter(s1, nDefense);
    var damage := DamagePhaseOf(d, DefensePhaseOf(a, d, attack.hits, defenseRolls, reg).hitsRemaining, reg);
    var nMorale := MoraleDice(damage.damage);
    (TrialDice(attackRolls, defenseRolls, LcgRolls(s2, nMorale)), LcgAfter(s2, nMorale))
  }

  /** The dice of `n` consecutive combats drawn by a seeded roller from state `s`, and its state afterwards. */
  function SeededRun(a: Attacker, d: Defender, reg: Registry, s: int, n: nat): (seq<TrialDice>, int)
    requires d.health >= 1
  {
    if n == 0 then ([], s)
    else
      var (trials, s1) := SeededRun(a, d, reg, s, n - 1);
      var (dice, s2) := SeededTrial(a, d, reg, s1);
      (trials + [dice], s2)
  }

  /** A combat's scalars; the reported stands killed count the morale wounds too. */
  function ExtractSingleResult(resolution: CombatResolution, defender: Defender): (r: SingleSimulationResult)
    requires defender.health >= 1
    ensures r.attackPhaseHits == resolution.attackPhase.hits
    ensures r.defensePhaseHitsRemaining == resolution.defensePhase.hitsRemaining
    ensures r.damageDealt == resolution.damagePhase.damage
    ensures r.moraleWounds == resolution.moralePhase.moraleWounds
    ensures r.standsKilled * defender.health <= r.damageDealt + r.moraleWounds
              < (r.standsKilled + 1) * defender.health
    ensures r.totalCasualties == r.standsKilled
  {
    var clashDamage := resolution.damagePhase.damage;
    var moraleWounds := resolution.moralePhase.moraleWounds;
    var totalDamage := clashDamage + moraleWounds;
    var standsKilled := totalDamage / defender.health;
    SingleSimulationResult(resolution.attackPhase.hits, resolution.defensePhase.hitsRemaining,
                           clashDamage, standsKilled, moraleWounds, standsKilled)
  }

  /** At least `q` whole multiples of `h` fit in any `x >= q * h`. */
  lemma FloorAtLeast(x: int, q: int, h: int)
    requires h >= 1 && x >= q * h
    ensures x / h >= q
  {
    var f := x / h;
    assert x == f * h + x % h && x % h < h;
    assert (q - (f + 1)) * h == q * h - (f + 1) * h < 0;
    NonNegativeProduct(q - (f + 1), h);
  }

  lemma NonNegativeProduct(a: int, h: int)
    requires h >= 0
    ensures a >= 0 ==> a * h >= 0
  {
  }

  /**
   * Resolving a combat with the default (empty) registry from fitting dice:
   * the damage dealt is the unblocked hits, which are at most the attack's
   * hits; morale wounds are at most the damage; and the reported stands
   * killed are never fewer than the damage phase's own.
   */
  lemma TrialFacts(a: Attacker, d: Defender, reg: Registry, dice: TrialDice)
    requires d.health >= 1 && IsEmpty(reg) && DiceFit(a, d, reg, dice)
    ensures var res := CombatOf(a, d, reg, dice);
            var r := ExtractSingleResult(res, d);
            && r.damageDealt == res.defensePhase.hitsRemaining
            && 0 <= r.damageDealt <= r.attackPhaseHits
            && 0 <= r.moraleWounds <= r.damageDealt
            && r.standsKilled >= res.damagePhase.standsKilled
  {
    var res := CombatOf(a, d, reg, dice);
    var attack := AttackOf(a, dice.attack);
    var defense := DefenseOf(a, d, attack.hits, dice.defense);
    var damage := DamageOf(d, defense.hitsRemaining);
    EmptyRegistryPhases(a, d, reg, attack.hits, defense.hitsRemaining, dice.attack, dice.defense, dice.morale);
    EmptyRegistryPhases(a, d, reg, defense.hitsRemaining, defense.hitsRemaining, dice.attack, dice.defense, dice.morale);
    assert res.attackPhase == attack && res.defensePhase == defense && res.damagePhase == damage;
    assert 0 <= defense.hitsRemaining <= attack.hits;
    var remaining := defense.hitsRemaining;
    if remaining != 0 {
      assert res.moralePhase == MoraleOf(d, remaining, dice.morale);
      assert |dice.morale| == remaining;
    }
    assert 0 <= res.moralePhase.moraleWounds <= remaining;
    FloorAtLeast(remaining + res.moralePhase.moraleWounds, damage.standsKilled, d.health);
  }

  // --------------------------------------------- the defense call as written

  /**
   * A JavaScript number as the hit count flows through one combat: NaN, or
   * an integer.  `resolveOneCombat` hands the defense phase the whole attack
   * result where a hit count is expected, and that object converts to NaN.
   */
  datatype JsCount = NaN | Count(n: int)

  /** `Array.from({ length: x })` makes no element for NaN or a negative length. */
  function JsDiceCount(x: JsCount): nat
  {
    match x
    case NaN => 0
    case Count(n) => DiceCount(n)
  }

  function JsMinus(x: JsCount, y: int): JsCount
  {
    match x
    case NaN => NaN
    case Count(n) => Count(n - y)
  }

  function JsPlus(x: JsCount, y: int): JsCount
  {
    match x
    case NaN => NaN
    case Count(n) => Count(n + y)
  }

  /** `Math.floor(x / h)`. */
  function JsFloorDiv(x: JsCount, h: int): JsCount
    requires h >= 1
  {
    match x
    case NaN => NaN
    case Count(n) => Count(n / h)
  }

  /** The scalars a combat reports, each a JavaScript number. */
  datatype ScalarsAsWritten = ScalarsAsWritten(damageDealt: JsCount, moraleWounds: int, standsKilled: JsCount)

  /**
   * The defense, damage and morale phases and the scalar extraction, with the
   * default (empty) registry, when the defense phase receives `incomingHits`;
   * the defense phase draws `JsDiceCount(incomingHits)` dice and the morale
   * phase one per point of damage (none for a damage of exactly 0).
   */
  function ScalarsFrom(a: Attacker, d: Defender, incomingHits: JsCount,
                       defenseRolls: seq<int>, moraleRolls: seq<int>): (r: ScalarsAsWritten)
    requires d.health >= 1
    ensures incomingHits.NaN? ==> r.damageDealt.NaN? && r.standsKilled.NaN?
  {
    var blocked := Blocked(defenseRolls, EffectiveDefense(a, d), d.evasion);
    var damage := JsMinus(incomingHits, blocked);
    var moraleWounds := if damage == Count(0) then 0 else CountAbove(moraleRolls, d.morale);
    ScalarsAsWritten(damage, moraleWounds, JsFloorDiv(JsPlus(damage, moraleWounds), d.health))
  }

  /**
   * As written, the defense phase receives the attack result object: it
   * draws no dice, and every combat reports NaN damage and NaN stands killed
   * with no morale wounds, whatever the units and dice.
   */
  lemma AttackResultAsHitCount(a: Attacker, d: Defender, defenseRolls: seq<int>, moraleRolls: seq<int>)
    requires d.health >= 1
    requires |defenseRolls| == JsDiceCount(NaN) && |moraleRolls| == JsDiceCount(NaN)
    ensures defenseRolls == [] && moraleRolls == []
    ensures ScalarsFrom(a, d, NaN, defenseRolls, moraleRolls) == ScalarsAsWritten(NaN, 0, NaN)
  {
  }

  /**
   * Handing the defense phase the attack's hit count, as the model does,
   * reports exactly the scalars of `CombatOf` and `ExtractSingleResult`.
   */
  lemma HitCountGivesModelledScalars(a: Attacker, d: Defender, reg: Registry, dice: TrialDice)
    requires d.health >= 1 && IsEmpty(reg) && DiceFit(a, d, reg, dice)
    ensures var res := CombatOf(a, d, reg, dice);
            var r := ExtractSingleResult(res, d);
            && |dice.defense| == JsDiceCount(Count(res.attackPhase.hits))
            && ScalarsFrom(a, d, Count(res.attackPhase.hits), dice.defense, dice.morale)
               == ScalarsAsWritten(Count(r.damageDealt), r.moraleWounds, Count(r.standsKilled))
  {
    var attack := AttackOf(a, dice.attack);
    var defense := DefenseOf(a, d, attack.hits, dice.defense);
    EmptyRegistryPhases(a, d, reg, attack.hits, defense.hitsRemaining, dice.attack, dice.defense, dice.morale);
    EmptyRegistryPhases(a, d, reg, defense.hitsRemaining, defense.hitsRemaining, dice.attack, dice.defense, dice.morale);
    BlockedIsAtMostEither(dice.defense, EffectiveDefense(a, d), d.evasion);
  }

  // ------------------------------------------------------------ aggregation

  /** The per-combat scalars of the trials `trials`, in order. */
  function Samples(a: Attacker, d: Defender, reg: Registry, trials: seq<TrialDice>): (rs: seq<SingleSimulationResult>)
    requires d.health >= 1
    ensures |rs| == |trials|
  {
    if |trials| == 0 then []
    else
      Samples(a, d, reg, trials[..|trials| - 1])
        + [ExtractSingleResult(CombatOf(a, d, reg, trials[|trials| - 1]), d)]
  }

  /** Appending one trial's dice appends its scalars. */
  lemma TrialAppended(a: Attacker, d: Defender, reg: Registry, trials: seq<TrialDice>, dice: TrialDice)
    requires d.health >= 1
    ensures Samples(a, d, reg, trials + [dice]) == Samples(a, d, reg, trials) + [ExtractSingleResult(CombatOf(a, d, reg, dice), d)]
  {
    assert (trials + [dice])[..|trials|] == trials;
  }

  datatype Metric = DamageDealt | StandsKilled | MoraleWounds | TotalCasualties

  function MetricOf(r: SingleSimulationResult, m: Metric): int
  {
    match m
    case DamageDealt => r.damageDealt
    case StandsKilled => r.standsKilled
    case MoraleWounds => r.moraleWounds
    case TotalCasualties => r.totalCasualties
  }

  /** One metric's sample sequence. */
  function MetricSamples(rs: seq<SingleSimulationResult>, m: Metric): (xs: seq<int>)
    ensures |xs| == |rs|
  {
    if |rs| == 0 then [] else MetricSamples(rs[..|rs| - 1], m) + [MetricOf(rs[|rs| - 1], m)]
  }

  /** Every combat reports as many casualties as stands killed, so the two sample sequences are equal. */
  lemma {:induction false} CasualtiesAreStandsKilled(a: Attacker, d: Defender, reg: Registry, trials: seq<TrialDice>)
    requires d.health >= 1
    ensures MetricSamples(Samples(a, d, reg, trials), TotalCasualties)
         == MetricSamples(Samples(a, d, reg, trials), StandsKilled)
  {
    if |trials| > 0 {
      var p := trials[..|trials| - 1];
      var rs := Samples(a, d, reg, trials);
      assert rs[..|rs| - 1] == Samples(a, d, reg, p);
      CasualtiesAreStandsKilled(a, d, reg, p);
    }
  }

  /** The three distribution tables of the samples `rs`. */
  function DistributionsOf(rs: seq<SingleSimulationResult>): Distributions
  {
    Distributions(DistributionOf(MetricSamples(rs, DamageDealt)),
                  DistributionOf(MetricSamples(rs, StandsKilled)),
                  DistributionOf(MetricSamples(rs, TotalCasualties)))
  }

  /** `stats` summarises each of the four metrics of the samples `rs`. */
  ghost predicate IsStatisticsOf(rs: seq<SingleSimulationResult>, stats: MetricStatistics)
  {
    && IsSummaryOf(MetricSamples(rs, DamageDealt), stats.damage)
    && IsSummaryOf(MetricSamples(rs, StandsKilled), stats.standsKilled)
    && IsSummaryOf(MetricSamples(rs, MoraleWounds), stats.moraleWounds)
    && IsSummaryOf(MetricSamples(rs, TotalCasualties), stats.totalCasualties)
  }

  /** `results` is the outcome of a run over the samples `rs`. */
  ghost predicate IsResultsOf(config: SimulationConfig, a: Attacker, d: Defender,
                              rs: seq<SingleSimulationResult>, results: SimulationResults)
  {
    && results.config == config
    && results.attacker == a
    && results.defender == d
    && results.distributions == DistributionsOf(rs)
    && IsStatisticsOf(rs, results.statistics)
  }

  lemma ResultsAssembled(config: SimulationConfig, a: Attacker, d: Defender, rs: seq<SingleSimulationResult>,
                         statistics: MetricStatistics, distributions: Distributions)
    requires distributions == DistributionsOf(rs) && IsStatisticsOf(rs, statistics)
    ensures IsResultsOf(config, a, d, rs, SimulationResults(config, a, d, statistics, distributions))
  {
  }

  /** When casualties equal stands killed in every sample, their distributions and statistics coincide. */
  lemma CasualtyFiguresCoincide(config: SimulationConfig, a: Attacker, d: Defender,
                                rs: seq<SingleSimulationResult>, results: SimulationResults)
    requires IsResultsOf(config, a, d, rs, results)
    requires MetricSamples(rs, TotalCasualties) == MetricSamples(rs, StandsKilled)
    ensures results.distributions.totalCasualties == results.distributions.standsKilled
    ensures results.statistics.totalCasualties == results.statistics.standsKilled
  {
    SummaryUnique(MetricSamples(rs, StandsKilled), results.statistics.standsKilled, results.statistics.totalCasualties);
  }

  /** The samples of a run determine its results. */
  lemma ResultsUnique(config: SimulationConfig, a: Attacker, d: Defender, rs: seq<SingleSimulationResult>,
                      r1: SimulationResults, r2: SimulationResults)
    requires IsResultsOf(config, a, d, rs, r1) && IsResultsOf(config, a, d, rs, r2)
    ensures r1 == r2
  {
    SummaryUnique(MetricSamples(rs, DamageDealt), r1.statistics.damage, r2.statistics.damage);
    SummaryUnique(MetricSamples(rs, StandsKilled), r1.statistics.standsKilled, r2.statistics.standsKilled);
    SummaryUnique(MetricSamples(rs, MoraleWounds), r1.statistics.moraleWounds, r2.statistics.moraleWounds);
    SummaryUnique(MetricSamples(rs, TotalCasualties), r1.statistics.totalCasualties, r2.statistics.totalCasualties);
  }

  // ------------------------------------------------------------ simulator

  class ConquestSimulator {
    const diceRoller: DiceRoller
    const specialRuleRegistry: Registry

    /** A simulator owns a fresh roller with the given seed and the default rule registry. */
    constructor (randomSeed: Option<int>)
      ensures fresh(diceRoller)
      ensures diceRoller.seed == randomSeed
      ensures randomSeed.Some? ==> diceRoller.state == randomSeed.value
      ensures specialRuleRegistry == DefaultRegistry()
    {
      diceRoller := new DiceRoller(randomSeed);
      specialRuleRegistry := DefaultRegistry();
    }

    /** One combat: the four phases in order, all drawing from the shared roller. */
    method ResolveOneCombat(attacker: Attacker, defender: Defender)
      returns (resolution: CombatResolution, ghost dice: TrialDice)
      requires defender.health >= 1
      modifies diceRoller
      ensures DiceFit(attacker, defender, specialRuleRegistry, dice)
      ensures resolution == CombatOf(attacker, defender, specialRuleRegistry, dice)
      ensures diceRoller.seed.Some? ==>
                (dice, diceRoller.state) == SeededTrial(attacker, defender, specialRuleRegistry, old(diceRoller.state))
      ensures diceRoller.seed.None? ==> diceRoller.state == old(diceRoller.state)
    {
      var attackResult, attackRolls := AttackPhase(attacker, diceRoller, specialRuleRegistry);
      var defenseResult, defenseRolls := DefensePhase(attacker, defender, attackResult.hits, diceRoller, specialRuleRegistry);
      var damageResult := DamagePhase(defender, defenseResult.hitsRemaining, specialRuleRegistry);
      var moraleResult, moraleRolls := MoralePhase(defender, damageResult.damage, diceRoller, specialRuleRegistry);
      resolution := CombatResolution(attackResult, defenseResult, damageResult, moraleResult);
      dice := TrialDice(attackRolls, defenseRolls, moraleRolls);
    }

    /** The three distribution tables of a run's samples. */
    method BuildDistributions(results: seq<SingleSimulationResult>) returns (distributions: Distributions)
      ensures distributions == DistributionsOf(results)
    {
      var damage := BuildDistribution(MetricSamples(results, DamageDealt));
      var standsKilled := BuildDistribution(MetricSamples(results, StandsKilled));
      var totalCasualties := BuildDistribution(MetricSamples(results, TotalCasualties));
      distributions := Distributions(damage, standsKilled, totalCasualties);
    }

    /** The four statistical summaries of a non-empty run's samples. */
    method CalculateAllStatistics(results: seq<SingleSimulationResult>) returns (statistics: MetricStatistics)
      requires |results| >= 1
      ensures IsStatisticsOf(results, statistics)
    {
      var damage := CalculateStatistics(MetricSamples(results, DamageDealt));
      var standsKilled := CalculateStatistics(MetricSamples(results, StandsKilled));
      var moraleWounds := CalculateStatistics(MetricSamples(results, MoraleWounds));
      var totalCasualties := CalculateStatistics(MetricSamples(results, TotalCasualties));
      statistics := MetricStatistics(damage, standsKilled, moraleWounds, totalCasualties);
    }

    /** Phase 1 of a run: `iterations` combats on the shared roller, one sample each. */
    method RunTrials(attacker: Attacker, defender: Defender, iterations: nat)
      returns (samples: seq<SingleSimulationResult>, ghost trials: seq<TrialDice>)
      requires defender.health >= 1
      modifies diceRoller
      ensures |trials| == iterations
      ensures samples == Samples(attacker, defender, specialRuleRegistry, trials)
      ensures forall i :: 0 <= i < |trials| ==> DiceFit(attacker, defender, specialRuleRegistry, trials[i])
      ensures diceRoller.seed.Some? ==>
                (trials, diceRoller.state)
                == SeededRun(attacker, defender, specialRuleRegistry, old(diceRoller.state), iterations)
      ensures diceRoller.seed.None? ==> diceRoller.state == old(diceRoller.state)
    {
      samples := [];
      trials := [];
      for i := 0 to iterations
        invariant |trials| == i
        invariant samples == Samples(attacker, defender, specialRuleRegistry, trials)
        invariant forall k :: 0 <= k < i ==> DiceFit(attacker, defender, specialRuleRegistry, trials[k])
        invariant diceRoller.seed.Some? ==>
                    (trials, diceRoller.state)
                    == SeededRun(attacker, defender, specialRuleRegistry, old(diceRoller.state), i)
        invariant diceRoller.seed.None? ==> diceRoller.state == old(diceRoller.state)
      {
        var combatResolution, dice := ResolveOneCombat(attacker, defender);
        samples := samples + [ExtractSingleResult(combatResolution, defender)];
        TrialAppended(attacker, defender, specialRuleRegistry, trials, dice);
        trials := trials + [dice];
      }
    }

    /**
     * `config.iterations` combats on the shared roller, then their
     * aggregation.  The roller is not reset: a second run on the same
     * simulator continues where the first left off.
     */
    method RunSimulation(attacker: Attacker, defender: Defender, config: SimulationConfig)
      returns (results: SimulationResults, ghost trials: seq<TrialDice>)
      requires defender.health >= 1 && config.iterations >= 1
      modifies diceRoller
      ensures |trials| == config.iterations
      ensures forall i :: 0 <= i < |trials| ==> DiceFit(attacker, defender, specialRuleRegistry, trials[i])
      ensures IsResultsOf(config, attacker, defender, Samples(attacker, defender, specialRuleRegistry, trials), results)
      ensures results.distributions.totalCasualties == results.distributions.standsKilled
      ensures results.statistics.totalCasualties == results.statistics.standsKilled
      ensures diceRoller.seed.Some? ==>
                (trials, diceRoller.state)
                == SeededRun(attacker, defender, specialRuleRegistry, old(diceRoller.state), config.iterations)
      ensures diceRoller.seed.None? ==> diceRoller.state == old(diceRoller.state)
    {
      var samples;
      samples, trials := RunTrials(attacker, defender, config.iterations);
      var distributions := BuildDistributions(samples);
      var statistics := CalculateAllStatistics(samples);
      results := SimulationResults(config, attacker, defender, statistics, distributions);
      ResultsAssembled(config, attacker, defender, samples, statistics, distributions);
      CasualtiesAreStandsKilled(attacker, defender, specialRuleRegistry, trials);
      CasualtyFiguresCoincide(config, attacker, defender, samples, results);
    }
  }

  /**
   * Two freshly built simulators with the same seed produce the same results
   * for the same inputs; `config.randomSeed` plays no part.
   */
  method SameSeedSameResults(seed: int, attacker: Attacker, defender: Defender,
                             config1: SimulationConfig, config2: SimulationConfig)
    returns (r1: SimulationResults, r2: SimulationResults)
    requires defender.health >= 1 && config1.iterations >= 1
    requires config2 == config1.(randomSeed := config2.randomSeed)
    ensures r1 == r2.(config := config1)
  {
    ghost var reg := DefaultRegistry();
    ghost var run := SeededRun(attacker, defender, reg, seed, config1.iterations);
    ghost var trials1, trials2;
    var first := new ConquestSimulator(Some(seed));
    r1, trials1 := first.RunSimulation(attacker, defender, config1);
    assert trials1 == run.0;
    var second := new ConquestSimulator(Some(seed));
    r2, trials2 := second.RunSimulation(attacker, defender, config2);
    assert trials2 == run.0;
    ghost var rs := Samples(attacker, defender, reg, run.0);
    assert IsResultsOf(config1, attacker, defender, rs, r1);
    assert IsResultsOf(config2, attacker, defender, rs, r2);
    ResultsUnique(config1, attacker, defender, rs, r1, r2.(config := config1));
  }
}
