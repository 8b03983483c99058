/** What each of the four combat phases reports, and one trial's four reports together. */
module CombatTypes {

  datatype AttackPhaseResult = AttackPhaseResult(
    totalDiceRolled: int,
    hits: int,
    diceRolls: seq<int>
  )

  datatype DefensePhaseResult = DefensePhaseResult(
    incomingHits: int,
    totalDefenseRolls: int,
    hitsBlocked: int,
    hitsRemaining: int,
    defenseRolls: seq<int>
  )

  datatype DamagePhaseResult = DamagePhaseResult(
    damage: int,
    standsKilled: int,
    fractionalStands: int  // damage left over on a stand that survives
  )

  datatype MoralePhaseResult = MoralePhaseResult(
    moraleRollsNeeded: int,
    moraleWounds: int,
    moraleRolls: seq<int>
  )

  datatype CombatResolution = CombatResolution(
    attackPhase: AttackPhaseResult,
    defensePhase: DefensePhaseResult,
    damagePhase: DamagePhaseResult,
    moralePhase: MoralePhaseResult
  )
}
