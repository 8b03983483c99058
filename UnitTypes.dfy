/**
 * The two units of a combat and the special-rule descriptors attached to
 * them.  Stats are JavaScript numbers; the engine only ever sees validated
 * whole numbers, so they are integers here.
 */
module UnitTypes {

  /** The phase a special rule belongs to. */
  datatype CombatPhase = Attack | Defense | Damage | Morale

  /** A special rule attached to a unit; only `id` is consulted by the engine. */
  datatype SpecialRule = SpecialRule(id: string, name: string, description: string, phase: CombatPhase)

  /** The attacking unit. */
  datatype Attacker = Attacker(
    stands: int,
    specialRules: seq<SpecialRule>,
    attacks: int,          // attacks per stand
    clash: int,            // a die hits when it rolls at most this
    cleave: int,           // lowers the defender's defense
    extraAttacks: int,     // dice added to the attack pool
    relentlessBlows: bool  // a hit rolled as 1 counts twice
  )

  /** The defending unit. */
  datatype Defender = Defender(
    stands: int,
    specialRules: seq<SpecialRule>,
    defense: int,          // a defense die blocks when it rolls at most this
    evasion: int,          // ... or at most this, whatever the cleave
    health: int,           // wounds per stand
    currentStands: int,    // carried along, never read by the engine
    morale: int,           // a morale die fails when it rolls above this
    hardened: int          // lowers the attacker's cleave
  )
}
