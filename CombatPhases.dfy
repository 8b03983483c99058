/**
 * The four phases of one combat.  Each phase computes a base result from
 * the unit stats and the dice it draws, then runs the registry hooks of the
 * unit's special rules over it.  The counting and clamping rules are pure
 * functions on the rolls; the phases themselves are methods that draw from
 * the shared roller.
 */
module CombatPhases {
  import opened Wrappers
  import opened JsArith
  import opened Tally
  import opened UnitTypes
  import opened CombatTypes
  import opened RuleRegistry
  import opened Dice

  // ---------------------------------------------------------------- attack

  /** `attacks * stands + extraAttacks`: the size of the attack pool. */
  function TotalDice(a: Attacker): int
  {
    a.attacks * a.stands + a.extraAttacks
  }

  /** Hits scored by one attack die. */
  function HitsFor(roll: int, clash: int, relentlessBlows: bool): nat
  {
    if roll <= clash then (if relentlessBlows && roll == 1 then 2 else 1) else 0
  }

  /** The hit total the attack loop accumulates over `rolls`. */
  function AttackHits(rolls: seq<int>, clash: int, relentlessBlows: bool): (hits: nat)
    ensures hits <= (if relentlessBlows then 2 else 1) * |rolls|
  {
    if |rolls| == 0 then 0
    else AttackHits(rolls[..|rolls| - 1], clash, relentlessBlows) + HitsFor(rolls[|rolls| - 1], clash, relentlessBlows)
  }

  /**
   * The hits are the dice at most `clash`, plus, with relentless blows, once
   * more every die showing 1 (which is at most `clash` whenever `clash >= 1`).
   */
  lemma {:induction false} AttackHitsCounts(rolls: seq<int>, clash: int, relentlessBlows: bool)
    ensures AttackHits(rolls, clash, relentlessBlows)
         == CountAtMost(rolls, clash) + (if relentlessBlows && clash >= 1 then Occurrences(rolls, 1) else 0)
  {
    if |rolls| > 0 {
      var p := rolls[..|rolls| - 1];
      assert rolls == p + [rolls[|rolls| - 1]];
      assert multiset(rolls) == multiset(p) + multiset{rolls[|rolls| - 1]};
      AttackHitsCounts(p, clash, relentlessBlows);
    }
  }

  /** The attack phase's base result for the dice it rolled. */
  function AttackOf(a: Attacker, rolls: seq<int>): (r: AttackPhaseResult)
    ensures r.totalDiceRolled == TotalDice(a) && r.diceRolls == rolls
    ensures 0 <= r.hits <= (if a.relentlessBlows then 2 else 1) * |rolls|
    ensures |rolls| == 0 ==> r.hits == 0
  {
    AttackPhaseResult(TotalDice(a), AttackHits(rolls, a.clash, a.relentlessBlows), rolls)
  }

  /** The attack phase's result: the base result rewritten by the attacker's rule hooks. */
  function AttackPhaseOf(a: Attacker, rolls: seq<int>, reg: Registry): AttackPhaseResult
  {
    ApplyHooks(AttackOf(a, rolls), a.specialRules, reg.attackPhaseRules, Some(a), None)
  }

  /** Phase 1: roll the attack pool and count hits. */
  method AttackPhase(attacker: Attacker, diceRoller: DiceRoller, ruleRegistry: Registry)
    returns (result: AttackPhaseResult, ghost rolls: seq<int>)
    modifies diceRoller
    ensures Drawn(diceRoller.seed, old(diceRoller.state), DiceCount(TotalDice(attacker)), rolls, diceRoller.state)
    ensures result == AttackPhaseOf(attacker, rolls, ruleRegistry)
  {
    var totalDice := TotalDice(attacker);
    var drawn := diceRoller.RollMultiple(totalDice);
    rolls := drawn;
    var hits := 0;
    for i := 0 to |drawn|
      invariant hits == AttackHits(drawn[..i], attacker.clash, attacker.relentlessBlows)
    {
      assert drawn[..i + 1][..i] == drawn[..i];
      var roll := drawn[i];
      if roll <= attacker.clash {
        if attacker.relentlessBlows && roll == 1 {
          hits := hits + 2;
        } else {
          hits := hits + 1;
        }
      }
    }
    assert drawn[..|drawn|] == drawn;
    var base := AttackPhaseResult(totalDice, hits, drawn);
    result := RunHooks(base, attacker.specialRules, ruleRegistry.attackPhaseRules, Some(attacker), None);
  }

  // --------------------------------------------------------------- defense

  /** Hardened lowers the attacker's cleave, never below 0. */
  function EffectiveCleave(a: Attacker, d: Defender): (c: int)
    ensures c >= 0
    ensures d.hardened >= 0 ==> c <= Max(0, a.cleave)
  {
    Max(0, a.cleave - d.hardened)
  }

  /** Cleave lowers the defense, never below 1. */
  function EffectiveDefense(a: Attacker, d: Defender): (e: int)
    ensures e >= 1
    ensures e <= Max(1, d.defense)
  {
    Max(1, d.defense - EffectiveCleave(a, d))
  }

  /** More hardened never leaves the defender with a lower effective defense. */
  lemma HardenedNeverLowersDefense(a: Attacker, d: Defender, hardened: int)
    requires hardened >= d.hardened
    ensures EffectiveDefense(a, d.(hardened := hardened)) >= EffectiveDefense(a, d)
  {
    assert EffectiveCleave(a, d.(hardened := hardened)) <= EffectiveCleave(a, d);
  }

  /** A defense die blocks when it rolls at most the effective defense or at most the evasion. */
  predicate IsBlocked(roll: int, effectiveDefense: int, evasion: int)
  {
    roll <= effectiveDefense || roll <= evasion
  }

  /** `rolls.filter(roll => roll <= effectiveDefense || roll <= evasion).length`. */
  function Blocked(rolls: seq<int>, effectiveDefense: int, evasion: int): (b: nat)
    ensures b <= |rolls|
  {
    if |rolls| == 0 then 0
    else
      var p := rolls[..|rolls| - 1];
      Blocked(p, effectiveDefense, evasion) + (if IsBlocked(rolls[|rolls| - 1], effectiveDefense, evasion) then 1 else 0)
  }

  /** A roll of 1 is always blocked, since the effective defense is at least 1. */
  lemma {:induction false} OnesAlwaysBlocked(rolls: seq<int>, effectiveDefense: int, evasion: int)
    requires effectiveDefense >= 1
    ensures Blocked(rolls, effectiveDefense, evasion) >= Occurrences(rolls, 1)
  {
    if |rolls| > 0 {
      var p := rolls[..|rolls| - 1];
      assert rolls == p + [rolls[|rolls| - 1]];
      assert multiset(rolls) == multiset(p) + multiset{rolls[|rolls| - 1]};
      OnesAlwaysBlocked(p, effectiveDefense, evasion);
    }
  }

  /** Blocking on either threshold is blocking on the larger of the two. */
  lemma {:induction false} BlockedIsAtMostEither(rolls: seq<int>, effectiveDefense: int, evasion: int)
    ensures Blocked(rolls, effectiveDefense, evasion) == CountAtMost(rolls, Max(effectiveDefense, evasion))
  {
    if |rolls| > 0 {
      BlockedIsAtMostEither(rolls[..|rolls| - 1], effectiveDefense, evasion);
    }
  }

  /** The defense phase's base result for `incomingHits` and the dice it rolled. */
  function DefenseOf(a: Attacker, d: Defender, incomingHits: int, rolls: seq<int>): (r: DefensePhaseResult)
    ensures r.incomingHits == r.totalDefenseRolls == incomingHits
    ensures r.hitsBlocked + r.hitsRemaining == incomingHits
    ensures |rolls| == incomingHits ==>
              && 0 <= r.hitsRemaining <= incomingHits
              && r.hitsRemaining == CountAbove(rolls, Max(EffectiveDefense(a, d), d.evasion))
  {
    var blocked := Blocked(rolls, EffectiveDefense(a, d), d.evasion);
    BlockedIsAtMostEither(rolls, EffectiveDefense(a, d), d.evasion);
    AtMostPlusAbove(rolls, Max(EffectiveDefense(a, d), d.evasion));
    DefensePhaseResult(incomingHits, incomingHits, blocked, incomingHits - blocked, rolls)
  }

  /** The defense phase's result: the base result rewritten by the defender's rule hooks. */
  function DefensePhaseOf(a: Attacker, d: Defender, incomingHits: int, rolls: seq<int>, reg: Registry): DefensePhaseResult
  {
    ApplyHooks(DefenseOf(a, d, incomingHits, rolls), d.specialRules, reg.defensePhaseRules, Some(a), Some(d))
  }

  /** Phase 2: one defense die per incoming hit. */
  method DefensePhase(attacker: Attacker, defender: Defender, incomingHits: int,
                      diceRoller: DiceRoller, ruleRegistry: Registry)
    returns (result: DefensePhaseResult, ghost rolls: seq<int>)
    modifies diceRoller
    ensures Drawn(diceRoller.seed, old(diceRoller.state), DiceCount(incomingHits), rolls, diceRoller.state)
    ensures result == DefensePhaseOf(attacker, defender, incomingHits, rolls, ruleRegistry)
  {
    var drawn := diceRoller.RollMultiple(incomingHits);
    rolls := drawn;
    var hitsBlocked := Blocked(drawn, EffectiveDefense(attacker, defender), defender.evasion);
    var base := DefensePhaseResult(incomingHits, incomingHits, hitsBlocked, incomingHits - hitsBlocked, drawn);
    result := RunHooks(base, defender.specialRules, ruleRegistry.defensePhaseRules, Some(attacker), Some(defender));
  }

  // ---------------------------------------------------------------- damage

  /** The damage phase's base result: whole stands killed and the wounds left on the next stand. */
  function DamageOf(d: Defender, hitsRemaining: int): (r: DamagePhaseResult)
    requires d.health >= 1
    ensures r.damage == hitsRemaining
    ensures hitsRemaining >= 0 ==>
              && r.standsKilled * d.health + r.fractionalStands == hitsRemaining
              && 0 <= r.fractionalStands < d.health
              && 0 <= r.standsKilled <= hitsRemaining
  {
    DivModFacts(hitsRemaining, d.health);
    DamagePhaseResult(hitsRemaining, hitsRemaining / d.health, JsRem(hitsRemaining, d.health))
  }

  lemma DivModFacts(n: int, h: int)
    requires h >= 1
    ensures n >= 0 ==> (n / h) * h + n % h == n && 0 <= n / h <= n
  {
    if n >= 0 {
      var q := n / h;
      assert q * h + n % h == n;
      assert q >= 0;
      assert q <= q * h by {
        assert q * h - q == q * (h - 1);
        assert q * (h - 1) >= 0;
      }
    }
  }

  /** The damage phase's result: the base result rewritten by the defender's rule hooks. */
  function DamagePhaseOf(d: Defender, hitsRemaining: int, reg: Registry): DamagePhaseResult
    requires d.health >= 1
  {
    ApplyHooks(DamageOf(d, hitsRemaining), d.specialRules, reg.damagePhaseRules, None, Some(d))
  }

  /** Phase 3: convert the unblocked hits into stands; draws no dice. */
  method DamagePhase(defender: Defender, hitsRemaining: int, ruleRegistry: Registry)
    returns (result: DamagePhaseResult)
    requires defender.health >= 1
    ensures result == DamagePhaseOf(defender, hitsRemaining, ruleRegistry)
  {
    var damage := hitsRemaining;
    var standsKilled := damage / defender.health;
    var fractionalStands := JsRem(damage, defender.health);
    var base := DamagePhaseResult(damage, standsKilled, fractionalStands);
    result := RunHooks(base, defender.specialRules, ruleRegistry.damagePhaseRules, None, Some(defender));
  }

  // ---------------------------------------------------------------- morale

  /** The morale phase's result when no damage was dealt. */
  const NoMoraleTest := MoralePhaseResult(0, 0, [])

  /** How many morale dice a damage value calls for: none at all for zero damage. */
  function MoraleDice(damage: int): nat
  {
    if damage == 0 then 0 else DiceCount(damage)
  }

  /** The morale phase's base result: every morale die above the morale stat is one more wound. */
  function MoraleOf(d: Defender, damage: int, rolls: seq<int>): (r: MoralePhaseResult)
    ensures r.moraleRollsNeeded == damage && r.moraleRolls == rolls
    ensures |rolls| == damage ==> 0 <= r.moraleWounds <= damage
    ensures r.moraleWounds == 0 <==> forall i :: 0 <= i < |rolls| ==> rolls[i] <= d.morale
  {
    MoralePhaseResult(damage, CountAbove(rolls, d.morale), rolls)
  }

  /** The morale phase's result: nothing for zero damage, else the base result rewritten by the defender's hooks. */
  function MoralePhaseOf(d: Defender, damage: int, rolls: seq<int>, reg: Registry): (r: MoralePhaseResult)
    ensures damage == 0 ==> r == NoMoraleTest
  {
    if damage == 0 then NoMoraleTest
    else ApplyHooks(MoraleOf(d, damage, rolls), d.specialRules, reg.moralePhaseRules, None, Some(d))
  }

  /** Phase 4: one morale die per point of damage; zero damage draws nothing. */
  method MoralePhase(defender: Defender, damage: int, diceRoller: DiceRoller, ruleRegistry: Registry)
    returns (result: MoralePhaseResult, ghost rolls: seq<int>)
    modifies diceRoller
    ensures Drawn(diceRoller.seed, old(diceRoller.state), MoraleDice(damage), rolls, diceRoller.state)
    ensures result == MoralePhaseOf(defender, damage, rolls, ruleRegistry)
    ensures damage == 0 ==> diceRoller.state == old(diceRoller.state) && result == NoMoraleTest
  {
    if damage == 0 {
      return MoralePhaseResult(0, 0, []), [];
    }
    var drawn := diceRoller.RollMultiple(damage);
    rolls := drawn;
    var moraleWounds := CountAbove(drawn, defender.morale);
    var base := MoralePhaseResult(damage, moraleWounds, drawn);
    result := RunHooks(base, defender.specialRules, ruleRegistry.moralePhaseRules, None, Some(defender));
  }

  // ------------------------------------------------------ default registry

  /** With an empty registry every phase returns its base result unchanged. */
  lemma EmptyRegistryPhases(a: Attacker, d: Defender, reg: Registry, incomingHits: int, damage: int,
                            attackRolls: seq<int>, defenseRolls: seq<int>, moraleRolls: seq<int>)
    requires IsEmpty(reg) && d.health >= 1
    ensures AttackPhaseOf(a, attackRolls, reg) == AttackOf(a, attackRolls)
    ensures DefensePhaseOf(a, d, incomingHits, defenseRolls, reg) == DefenseOf(a, d, incomingHits, defenseRolls)
    ensures DamagePhaseOf(d, incomingHits, reg) == DamageOf(d, incomingHits)
    ensures damage != 0 ==> MoralePhaseOf(d, damage, moraleRolls, reg) == MoraleOf(d, damage, moraleRolls)
  {
    EmptyHooksLeaveResult(AttackOf(a, attackRolls), a.specialRules, reg.attackPhaseRules, Some(a), None);
    EmptyHooksLeaveResult(DefenseOf(a, d, incomingHits, defenseRolls), d.specialRules, reg.defensePhaseRules, Some(a), Some(d));
    EmptyHooksLeaveResult(DamageOf(d, incomingHits), d.specialRules, reg.damagePhaseRules, None, Some(d));
    EmptyHooksLeaveResult(MoraleOf(d, damage, moraleRolls), d.specialRules, reg.moralePhaseRules, None, Some(d));
  }
}
