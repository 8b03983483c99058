/**
 * The special-rule registry: per phase, a table from rule id to a hook that
 * rewrites the phase's result.  Each phase folds the hooks of its unit's
 * rules, in the order the rules are attached, over the phase's base result.
 */
module RuleRegistry {
  import opened Wrappers
  import opened UnitTypes
  import opened CombatTypes

  /**
   * A hook: the phase result so far, the attacker and the defender to the
   * rewritten result.  A phase that hands a hook an empty placeholder object
   * instead of a unit passes None.
   */
  type Hook<!T> = (T, Option<Attacker>, Option<Defender>) -> T

  datatype Registry = Registry(
    attackPhaseRules: map<string, Hook<AttackPhaseResult>>,
    defensePhaseRules: map<string, Hook<DefensePhaseResult>>,
    damagePhaseRules: map<string, Hook<DamagePhaseResult>>,
    moralePhaseRules: map<string, Hook<MoralePhaseResult>>
  )

  /** No phase has any hook registered. */
  predicate IsEmpty(reg: Registry)
  {
    |reg.attackPhaseRules| == 0 && |reg.defensePhaseRules| == 0 &&
    |reg.damagePhaseRules| == 0 && |reg.moralePhaseRules| == 0
  }

  /** The registry every simulator is built with. */
  function DefaultRegistry(): (reg: Registry)
    ensures IsEmpty(reg)
  {
    Registry(map[], map[], map[], map[])
  }

  /**
   * The result of running, in list order, the hook registered for each
   * rule's id over `base`; a rule whose id has no hook is skipped.
   */
  function ApplyHooks<T>(base: T, rules: seq<SpecialRule>, hooks: map<string, Hook<T>>,
                         a: Option<Attacker>, d: Option<Defender>): T
  {
    if |rules| == 0 then base
    else
      var r := ApplyHooks(base, rules[..|rules| - 1], hooks, a, d);
      var id := rules[|rules| - 1].id;
      if id in hooks then hooks[id](r, a, d) else r
  }

  /** The hook loop each phase ends with. */
  method RunHooks<T>(base: T, rules: seq<SpecialRule>, hooks: map<string, Hook<T>>,
                     a: Option<Attacker>, d: Option<Defender>) returns (result: T)
    ensures result == ApplyHooks(base, rules, hooks, a, d)
  {
    result := base;
    for i := 0 to |rules|
      invariant result == ApplyHooks(base, rules[..i], hooks, a, d)
    {
      assert rules[..i + 1][..i] == rules[..i];
      var id := rules[i].id;
      if id in hooks {
        result := hooks[id](result, a, d);
      }
    }
    assert rules[..|rules|] == rules;
  }

  /** Rules are applied in attachment order: the hooks of `xs + ys` are those of `xs`, then those of `ys`. */
  lemma {:induction false} ApplyHooksAppend<T>(base: T, xs: seq<SpecialRule>, ys: seq<SpecialRule>,
                                                hooks: map<string, Hook<T>>, a: Option<Attacker>, d: Option<Defender>)
    ensures ApplyHooks(base, xs + ys, hooks, a, d) == ApplyHooks(ApplyHooks(base, xs, hooks, a, d), ys, hooks, a, d)
  {
    if |ys| == 0 {
      assert xs + ys == xs;
    } else {
      var n := |ys|;
      assert (xs + ys)[..|xs + ys| - 1] == xs + ys[..n - 1];
      ApplyHooksAppend(base, xs, ys[..n - 1], hooks, a, d);
    }
  }

  /** Rules without a registered hook leave the result unchanged. */
  lemma {:induction false} ApplyHooksSkipsUnregistered<T>(base: T, rules: seq<SpecialRule>, hooks: map<string, Hook<T>>,
                                                          a: Option<Attacker>, d: Option<Defender>)
    requires forall i :: 0 <= i < |rules| ==> rules[i].id !in hooks
    ensures ApplyHooks(base, rules, hooks, a, d) == base
  {
    if |rules| > 0 {
      ApplyHooksSkipsUnregistered(base, rules[..|rules| - 1], hooks, a, d);
    }
  }

  /** An empty hook table returns the base result whatever rules the unit carries. */
  lemma EmptyHooksLeaveResult<T>(base: T, rules: seq<SpecialRule>, hooks: map<string, Hook<T>>,
                                 a: Option<Attacker>, d: Option<Defender>)
    requires |hooks| == 0
    ensures ApplyHooks(base, rules, hooks, a, d) == base
  {
    assert forall i :: 0 <= i < |rules| ==> rules[i].id !in hooks;
    ApplyHooksSkipsUnregistered(base, rules, hooks, a, d);
  }
}
