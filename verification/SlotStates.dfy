/**
 When the recorded state of an object is not the last NewState of the provider: after that state was
 dropped, if it was another one than the recorded, and until the next successful apply.
 */
module SlotStates {
  import opened GoStrings
  import opened Slot
  import opened SlotInvariant
  import opened SlotLog

  // ---------------------------------------------------------------- the steps that matter

  /** The controller stops with a NewState of this object in hand, or the patch that saves it is not applied. */
  predicate Drops(s: Slot, a: Action, u: nat) {
    && s.proc.Some? && s.proc.value.copy.serial == u && s.proc.value.pc.Applied?
    && (a.Crash? || (a.SaveState? && a.reply.Rejected?))
  }

  /** And the NewState is not the recorded state already. */
  predicate DropsOther(env: Env, s: Slot, a: Action, u: nat) {
    Drops(s, a, u) && Recorded(env, s.proc.value.copy.status) != Ok(s.proc.value.pc.newState)
  }

  /** The provider returns a NewState for this object. */
  predicate Applies(s: Slot, a: Action, u: nat) {
    && s.proc.Some? && s.proc.value.copy.serial == u
    && a.Apply? && !a.effect.Failed? && !a.effect.Halfway?
  }

  // ---------------------------------------------------------------- what is dropped

  /** A NewState in hand has not been dropped. */
  predicate AppliedIsNotDropped(s: Slot) {
    && s.log.dropped <= s.log.applied.Keys
    && (s.proc.Some? && s.proc.value.pc.Applied? ==> s.proc.value.copy.serial !in s.log.dropped)
  }

  // ---------------------------------------------------------------- what is recorded then

  /** This status of a dropped object records the last NewState, or does not. */
  predicate Shows(env: Env, s: Slot, u: nat, status: Status, other: bool) {
    u in s.log.dropped && u in s.log.applied ==> (Recorded(env, status) == Ok(s.log.applied[u]) <==> !other)
  }

  /** `other`: the last NewState of the object was dropped, and is not the recorded one. */
  predicate Stands(env: Env, s: Slot, u: nat, other: bool) {
    && AppliedIsNotDropped(s)
    && (other ==> u in s.log.dropped)
    && (s.stored.Some? && s.stored.value.serial == u ==> Shows(env, s, u, s.stored.value.status, other))
    && (s.proc.Some? && s.proc.value.copy.serial == u ==> Shows(env, s, u, s.proc.value.copy.status, other))
  }

  function Still(env: Env, s: Slot, a: Action, u: nat, other: bool): bool {
    DropsOther(env, s, a, u) || (other && !Applies(s, a, u))
  }

  lemma StandsApply(env: Env, s: Slot, prior: TfState, e: Effect, now: nat, u: nat, other: bool)
    requires s.proc.Some? && EffectPossible(s, s.proc.value, prior, e) && !s.proc.value.pc.Applied?
    requires Stands(env, s, u, other)
    ensures Stands(env, ApplyStep(s, prior, e, now), u, Still(env, s, Apply(e), u, other))
  {
  }

  lemma StandsAbandon(env: Env, s: Slot, a: Action, u: nat, other: bool)
    requires Inv(env, s) && AppliesLogged(s) && s.proc.Some? && Stands(env, s, u, other)
    requires a.Crash? || (a.SaveState? && a.reply.Rejected?)
    ensures Stands(env, Abandon(env, s), u, Still(env, s, a, u, other))
  {
  }

  lemma StandsSave(env: Env, s: Slot, a: Action, now: nat, u: nat, other: bool)
    requires Inv(env, s) && AppliesLogged(s) && Enabled(env, s, a) && a.SaveState? && Stands(env, s, u, other)
    ensures Stands(env, Step(env, s, a, now), u, Still(env, s, a, u, other))
  {
    if a.reply.Rejected? { StandsAbandon(env, s, a, u, other); }
  }

  lemma StandsStep(env: Env, s: Slot, a: Action, now: nat, u: nat, other: bool)
    requires Inv(env, s) && AppliesLogged(s) && Enabled(env, s, a) && Stands(env, s, u, other)
    ensures Stands(env, Step(env, s, a, now), u, Still(env, s, a, u, other))
  {
    if a.Apply? {
      StandsApply(env, s, Recorded(env, s.proc.value.copy.status).value, a.effect, now, u, other);
    } else if a.SaveState? {
      StandsSave(env, s, a, now, u, other);
    } else if a.Crash? {
      StandsAbandon(env, s, a, u, other);
    } else {
      StandsElse(env, s, a, now, u, other);
    }
  }

  lemma StandsElse(env: Env, s: Slot, a: Action, now: nat, u: nat, other: bool)
    requires Inv(env, s) && AppliesLogged(s) && Enabled(env, s, a) && Stands(env, s, u, other)
    requires !a.Apply? && !a.SaveState? && !a.Crash?
    ensures Stands(env, Step(env, s, a, now), u, Still(env, s, a, u, other))
  {
  }
}
