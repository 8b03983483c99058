/** Simulation configuration, one trial's scalar outcomes, and the aggregated results. */
module SimulationTypes {
  import opened Wrappers
  import opened UnitTypes

  datatype SimulationConfig = SimulationConfig(
    iterations: int,
    randomSeed: Option<int>,          // never read by the simulator
    recordPhaseDetails: Option<bool>  // never read by the simulator
  )

  /** The scalars extracted from one trial. */
  datatype SingleSimulationResult = SingleSimulationResult(
    attackPhaseHits: int,
    defensePhaseHitsRemaining: int,
    damageDealt: int,
    standsKilled: int,
    moraleWounds: int,
    totalCasualties: int
  )

  datatype Percentiles = Percentiles(p25: real, p50: real, p75: real, p90: real, p95: real)

  /** Summary of one metric's samples (the standard deviation is not part of the model). */
  datatype StatisticalSummary = StatisticalSummary(
    mean: real,
    median: real,
    mode: int,
    variance: real,
    min: int,
    max: int,
    percentiles: Percentiles
  )

  datatype MetricStatistics = MetricStatistics(
    damage: StatisticalSummary,
    standsKilled: StatisticalSummary,
    moraleWounds: StatisticalSummary,
    totalCasualties: StatisticalSummary
  )

  /** Value-to-probability tables for three metrics. */
  datatype Distributions = Distributions(
    damage: map<int, real>,
    standsKilled: map<int, real>,
    totalCasualties: map<int, real>
  )

  /** A run's results: the inputs echoed back, statistics and distributions (timing is not modelled). */
  datatype SimulationResults = SimulationResults(
    config: SimulationConfig,
    attacker: Attacker,
    defender: Defender,
    statistics: MetricStatistics,
    distributions: Distributions
  )
}
