/**
 When a cloud resource is lost, and that a lost resource stays lost: neither the recorded state
 nor a state in memory ever names it again.
 */
module SlotLosses {
  import opened GoStrings
  import opened Slot
  import opened SlotInvariant

  // ---------------------------------------------------------------- the steps that lose a resource

  /**
   The provider makes the resource and then reports an error; or the controller stops, or the
   patch that saves the state is not applied, while only the new state names it.
   */
  predicate Loses(env: Env, s: Slot, a: Action, r: Resource) {
    s.proc.Some? &&
    var p := s.proc.value;
    || (a.Apply? && a.effect.Halfway? && a.effect.makes && r == Resource(p.copy.serial, s.made))
    || (p.pc.Applied? && (a.Crash? || (a.SaveState? && a.reply.Rejected?))
        && r in Names(p.pc.newState) && r !in Known(env, p.copy.status))
  }

  lemma LossesOfApply(env: Env, s: Slot, prior: TfState, e: Effect, now: nat, r: Resource)
    requires s.proc.Some? && EffectPossible(s, s.proc.value, prior, e)
    requires !s.proc.value.pc.Applied?
    ensures r in ApplyStep(s, prior, e, now).log.lost <==> r in s.log.lost || Loses(env, s, Apply(e), r)
  {
  }

  lemma LossesOfAbandon(env: Env, s: Slot, r: Resource)
    requires s.proc.Some?
    ensures r in Abandon(env, s).log.lost <==> r in s.log.lost || Loses(env, s, Crash, r)
  {
  }

  /** Every step loses exactly these, and nothing that was lost comes back. */
  lemma LossesOfStep(env: Env, s: Slot, a: Action, now: nat, r: Resource)
    requires Enabled(env, s, a)
    ensures r in Step(env, s, a, now).log.lost <==> r in s.log.lost || Loses(env, s, a, r)
  {
    if a.Apply? {
      LossesOfApply(env, s, Recorded(env, s.proc.value.copy.status).value, a.effect, now, r);
    } else if a.Crash? || a.SaveState? {
      LossesOfAbandon(env, s, r);
    }
  }

  // ---------------------------------------------------------------- what is lost is not named

  /** These resources have been made, and none of them is lost. */
  predicate Safe(s: Slot, names: set<Resource>) {
    forall r :: r in names ==> r.n < s.made && r !in s.log.lost
  }

  predicate LostIsUnnamed(env: Env, s: Slot) {
    && (forall r :: r in s.log.lost ==> r.n < s.made)
    && (s.stored.Some? ==> Safe(s, Known(env, s.stored.value.status)))
    && (s.proc.Some? ==>
          var p := s.proc.value;
          && Safe(s, Known(env, p.copy.status))
          && (p.pc.Applied? || p.pc.Saved? ==> Safe(s, Names(p.pc.newState))))
  }

  lemma UnnamedApply(env: Env, s: Slot, prior: TfState, e: Effect, now: nat)
    requires s.proc.Some? && EffectPossible(s, s.proc.value, prior, e)
    requires Recorded(env, s.proc.value.copy.status) == Ok(prior) && LostIsUnnamed(env, s)
    ensures LostIsUnnamed(env, ApplyStep(s, prior, e, now))
  {
  }

  lemma UnnamedAbandon(env: Env, s: Slot)
    requires Inv(env, s) && s.proc.Some? && LostIsUnnamed(env, s)
    ensures LostIsUnnamed(env, Abandon(env, s))
  {
  }

  lemma UnnamedSave(env: Env, s: Slot, a: Action, now: nat)
    requires Inv(env, s) && Enabled(env, s, a) && a.SaveState? && LostIsUnnamed(env, s)
    ensures LostIsUnnamed(env, Step(env, s, a, now))
  {
    if a.reply.Rejected? { UnnamedAbandon(env, s); } else { StateSaved(env, s, a.iv); }
  }

  lemma UnnamedStep(env: Env, s: Slot, a: Action, now: nat)
    requires Inv(env, s) && Enabled(env, s, a) && LostIsUnnamed(env, s)
    ensures LostIsUnnamed(env, Step(env, s, a, now))
  {
    if a.Apply? {
      UnnamedApply(env, s, Recorded(env, s.proc.value.copy.status).value, a.effect, now);
    } else if a.SaveState? {
      UnnamedSave(env, s, a, now);
    } else if a.Crash? {
      UnnamedAbandon(env, s);
    }
  }
}
