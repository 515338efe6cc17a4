/**
 What the log of one object name says after every step: the recorded state is the NewState of
 the last successful apply, the recorded generation never runs ahead or back, and nothing is
 "Created" before it is applied.
 */
module SlotLog {
  import opened GoStrings
  import opened Slot
  import opened SlotInvariant
  import opened SlotLosses
  import StateCodec

  /** The recorded state of the incarnation stored now, against the applies made for it. */
  predicate RecordedAgrees(env: Env, s: Slot) {
    s.stored.Some? ==>
      var u, recorded := s.stored.value.serial, Recorded(env, s.stored.value.status);
      && (u in s.log.applied && u !in s.log.unsaved ==> recorded == Ok(s.log.applied[u]))
      && (u !in s.log.applied ==> recorded == Ok(Empty) || recorded == Ok(Null))
  }

  /** And so does what a reconcile has in memory, but for what it has applied itself. */
  predicate CopyAgrees(env: Env, s: Slot) {
    s.proc.Some? && !s.proc.value.pc.Applied? ==>
      var u, recorded := s.proc.value.copy.serial, Recorded(env, s.proc.value.copy.status);
      && (u in s.log.applied && u !in s.log.unsaved ==> recorded == Ok(s.log.applied[u]))
      && (u !in s.log.applied ==> recorded == Ok(Empty) || recorded == Ok(Null))
  }

  /** An unsaved NewState is held by the reconcile in flight, or a fault dropped it. */
  predicate UnsavedIsInFlight(s: Slot) {
    && s.log.unsaved <= s.log.applied.Keys
    && forall u :: u in s.log.unsaved ==>
         u in s.log.dropped
         || (s.proc.Some? && s.proc.value.pc == Applied(s.log.applied[u]) && s.proc.value.copy.serial == u)
  }

  predicate AppliesLogged(s: Slot) {
    && (forall u :: u in s.log.applied ==> u < s.serials)
    && (s.proc.Some? ==>
          var p := s.proc.value;
          && (p.pc.Applied? ==> p.copy.serial in s.log.applied && s.log.applied[p.copy.serial] == p.pc.newState
                                && p.copy.serial in s.log.unsaved)
          && (s.stored.Some? && s.stored.value.serial != p.copy.serial ==> s.stored.value.serial !in s.log.applied))
  }

  predicate LastAppliedWithin(o: Object) {
    o.status.lastApplied.Some? ==> o.status.lastApplied.value <= o.generation
  }

  predicate Generations(s: Slot) {
    && (s.stored.Some? ==> LastAppliedWithin(s.stored.value))
    && (s.proc.Some? ==>
          var p := s.proc.value;
          && LastAppliedWithin(p.copy) && (!p.deleting ==> p.specGeneration <= p.copy.generation)
          && (s.stored.Some? && s.stored.value.serial == p.copy.serial ==>
             p.copy.generation <= s.stored.value.generation))
  }

  // ---------------------------------------------------------------- times

  predicate TimesBefore(l: Log, now: nat) {
    && (forall u :: u in l.applyTime ==> l.applyTime[u] < now)
    && (forall u :: u in l.createdTime ==> l.createdTime[u] < now)
  }

  predicate CreatedAfterApply(l: Log) {
    && l.createdTime.Keys <= l.applyTime.Keys
    && (forall u :: u in l.createdTime ==> l.applyTime[u] < l.createdTime[u])
  }

  predicate CreatedIsLogged(s: Slot) {
    && (s.stored.Some? && s.stored.value.status.provisioningState == Some(CREATED) ==>
          s.stored.value.serial in s.log.createdTime)
    && (s.proc.Some? && !s.proc.value.deleting && (s.proc.value.pc.Applied? || s.proc.value.pc.Saved?) ==>
          s.proc.value.copy.serial in s.log.applyTime)
  }

  /** A string that the status has whatever the provider returns. */
  ghost predicate AlwaysReported(env: Env, property: string) {
    forall t: TfState :: t.Present? ==> property in env.stringsOf(t)
  }

  /** A "Created" object has these strings in its status. */
  ghost predicate CreatedReports(env: Env, s: Slot) {
    s.stored.Some? && s.stored.value.status.provisioningState == Some(CREATED) ==>
      forall property :: AlwaysReported(env, property) ==> property in s.stored.value.status.strings
  }

  /** Each reference of the spec is still to be looked up or found, at the object it names. */
  predicate Lookups(pending: set<Reference>, found: map<Reference, Target>, spec: Spec) {
    && pending + found.Keys == spec.references
    && (forall r :: r in found ==> found[r].key == r.key)
  }

  predicate LookupsInFlight(s: Slot) {
    s.proc.Some? && s.proc.value.pc.Resolving? ==>
      Lookups(s.proc.value.pc.pending, s.proc.value.pc.found, s.proc.value.copy.spec)
  }

  predicate UsedCoversSpec(l: Log) {
    && l.firstSpec.Keys == l.applyTime.Keys == l.used.Keys
    && (forall u :: u in l.applyTime ==> Lookups({}, l.used[u], l.firstSpec[u]))
  }

  ghost predicate LogInv(env: Env, s: Slot, now: nat) {
    && Inv(env, s)
    && RecordedAgrees(env, s) && CopyAgrees(env, s) && UnsavedIsInFlight(s) && AppliesLogged(s)
    && LostIsUnnamed(env, s)
    && Generations(s)
    && TimesBefore(s.log, now) && CreatedAfterApply(s.log) && CreatedIsLogged(s)
    && LookupsInFlight(s) && UsedCoversSpec(s.log) && CreatedReports(env, s)
  }

  lemma RecordedAgreesSave(env: Env, s: Slot, iv: StateCodec.Vector, r: Reply, now: nat)
    requires Inv(env, s) && RecordedAgrees(env, s) && AppliesLogged(s)
    requires s.proc.Some? && s.proc.value.pc.Applied? && Reachable(s, r)
    ensures RecordedAgrees(env, SaveStateStep(env, s, iv, r, now))
  {
    if !r.Rejected? {
      StateSaved(env, s, iv);
      var p := s.proc.value;
      if s.stored.value.serial != p.copy.serial {
        var after := WithState(env, iv, p.copy, p.pc.newState);
        RecordedSaved(env, iv, p.copy, p.pc.newState);
        assert Merged(s.stored.value.status.tfState, p.copy.status.tfState, after.status.tfState) ==
                 after.status.tfState
            || Merged(s.stored.value.status.tfState, p.copy.status.tfState, after.status.tfState) ==
               s.stored.value.status.tfState;
      }
    }
  }

  lemma RecordedAgreesApply(env: Env, s: Slot, prior: TfState, e: Effect, now: nat)
    requires s.proc.Some? && EffectPossible(s, s.proc.value, prior, e)
    requires RecordedAgrees(env, s) && AppliesLogged(s)
    ensures RecordedAgrees(env, ApplyStep(s, prior, e, now))
  {
  }

  lemma RecordedAgreesStep(env: Env, s: Slot, a: Action, now: nat)
    requires RecordedAgrees(env, s) && AppliesLogged(s) && Enabled(env, s, a) && !a.SaveState?
    ensures RecordedAgrees(env, Step(env, s, a, now))
  {
    if a.Apply? { RecordedAgreesApply(env, s, Recorded(env, s.proc.value.copy.status).value, a.effect, now); }
  }

  lemma CopyAgreesStep(env: Env, s: Slot, a: Action, now: nat)
    requires RecordedAgrees(env, s) && CopyAgrees(env, s) && Enabled(env, s, a)
    requires RecordedAgrees(env, Step(env, s, a, now))
    ensures CopyAgrees(env, Step(env, s, a, now))
  {
  }

  lemma UnsavedApply(s: Slot, prior: TfState, e: Effect, now: nat)
    requires s.proc.Some? && EffectPossible(s, s.proc.value, prior, e) && !s.proc.value.pc.Applied?
    requires UnsavedIsInFlight(s)
    ensures UnsavedIsInFlight(ApplyStep(s, prior, e, now))
  {
  }

  lemma UnsavedStep(env: Env, s: Slot, a: Action, now: nat)
    requires UnsavedIsInFlight(s) && AppliesLogged(s) && Enabled(env, s, a)
    ensures UnsavedIsInFlight(Step(env, s, a, now))
  {
    if a.Apply? { UnsavedApply(s, Recorded(env, s.proc.value.copy.status).value, a.effect, now); }
  }

  lemma AppliesApply(s: Slot, prior: TfState, e: Effect, now: nat)
    requires s.proc.Some? && EffectPossible(s, s.proc.value, prior, e)
    requires Bounded(s) && AppliesLogged(s)
    ensures AppliesLogged(ApplyStep(s, prior, e, now))
  {
  }

  lemma AppliesStep(env: Env, s: Slot, a: Action, now: nat)
    requires Bounded(s) && Held(s) && Phases(s) && AppliesLogged(s) && Enabled(env, s, a)
    ensures AppliesLogged(Step(env, s, a, now))
  {
    if a.Apply? { AppliesApply(s, Recorded(env, s.proc.value.copy.status).value, a.effect, now); }
  }

  lemma GenerationsStep(env: Env, s: Slot, a: Action, now: nat)
    requires Bounded(s) && Held(s) && Phases(s) && StatusInMemory(s) && Generations(s) && Enabled(env, s, a)
    ensures Generations(Step(env, s, a, now))
  {
  }

  lemma TimesApply(s: Slot, prior: TfState, e: Effect, now: nat)
    requires s.proc.Some? && EffectPossible(s, s.proc.value, prior, e) && TimesBefore(s.log, now)
    ensures TimesBefore(ApplyStep(s, prior, e, now).log, now + 1)
  {
  }

  lemma TimesSave(env: Env, s: Slot, r: Reply, now: nat)
    requires s.proc.Some? && s.proc.value.pc.Saved? && Reachable(s, r) && TimesBefore(s.log, now)
    ensures TimesBefore(SaveStatusStep(env, s, r, now).log, now + 1)
  {
  }

  lemma TimesStep(env: Env, s: Slot, a: Action, now: nat)
    requires TimesBefore(s.log, now) && Enabled(env, s, a)
    ensures TimesBefore(Step(env, s, a, now).log, now + 1)
  {
    if a.Apply? {
      TimesApply(s, Recorded(env, s.proc.value.copy.status).value, a.effect, now);
    } else if a.SaveStatus? {
      TimesSave(env, s, a.reply, now);
    } else {
      var l := Step(env, s, a, now).log;
      assert l.applyTime == s.log.applyTime && l.createdTime == s.log.createdTime;
    }
  }

  lemma CreatedAfterApplySave(env: Env, s: Slot, r: Reply, now: nat)
    requires s.proc.Some? && s.proc.value.pc.Saved? && !s.proc.value.deleting && Reachable(s, r)
    requires Held(s) && CreatedIsLogged(s) && TimesBefore(s.log, now) && CreatedAfterApply(s.log)
    ensures CreatedAfterApply(SaveStatusStep(env, s, r, now).log)
  {
  }

  lemma CreatedAfterApplyApply(s: Slot, prior: TfState, e: Effect, now: nat)
    requires s.proc.Some? && EffectPossible(s, s.proc.value, prior, e)
    requires CreatedAfterApply(s.log)
    ensures CreatedAfterApply(ApplyStep(s, prior, e, now).log)
  {
  }

  lemma CreatedAfterApplyStep(env: Env, s: Slot, a: Action, now: nat)
    requires CreatedAfterApply(s.log) && Enabled(env, s, a) && !a.SaveStatus?
    ensures CreatedAfterApply(Step(env, s, a, now).log)
  {
    if a.Apply? { CreatedAfterApplyApply(s, Recorded(env, s.proc.value.copy.status).value, a.effect, now); }
  }

  lemma CreatedIsLoggedStep(env: Env, s: Slot, a: Action, now: nat)
    requires Bounded(s) && Held(s) && Phases(s) && StatusInMemory(s) && CreatedIsLogged(s) && Enabled(env, s, a)
    ensures CreatedIsLogged(Step(env, s, a, now))
  {
  }

  lemma ReportsSave(env: Env, s: Slot, r: Reply, now: nat)
    requires Inv(env, s) && s.proc.Some? && s.proc.value.pc.Saved? && !s.proc.value.deleting && Reachable(s, r)
    requires CreatedReports(env, s)
    ensures CreatedReports(env, SaveStatusStep(env, s, r, now))
  {
    var p := s.proc.value;
    if !r.Rejected? {
      assert p.pc.newState.Present? && s.stored.value.status == p.copy.status;
      assert forall property :: AlwaysReported(env, property) ==> property in env.stringsOf(p.pc.newState);
    }
  }

  lemma ReportsStep(env: Env, s: Slot, a: Action, now: nat)
    requires Inv(env, s) && Enabled(env, s, a) && CreatedReports(env, s)
    ensures CreatedReports(env, Step(env, s, a, now))
  {
    if a.SaveStatus? { ReportsSave(env, s, a.reply, now); }
  }

  lemma LookupsStep(env: Env, s: Slot, a: Action, now: nat)
    requires LookupsInFlight(s) && Enabled(env, s, a)
    requires a.Find? ==> a.target.key == a.reference.key
    ensures LookupsInFlight(Step(env, s, a, now))
  {
  }

  lemma UsedApply(s: Slot, prior: TfState, e: Effect, now: nat)
    requires s.proc.Some? && EffectPossible(s, s.proc.value, prior, e)
    requires s.proc.value.pc.Resolving? || s.proc.value.deleting
    requires s.proc.value.pc.Resolving? ==> s.proc.value.pc.pending == {}
    requires LookupsInFlight(s) && UsedCoversSpec(s.log)
    ensures UsedCoversSpec(ApplyStep(s, prior, e, now).log)
  {
    var l, m := s.log, ApplyStep(s, prior, e, now).log;
    if m.applyTime != l.applyTime {
      var p := s.proc.value;
      assert Lookups({}, p.pc.found, p.copy.spec);
    }
  }

  lemma UsedStep(env: Env, s: Slot, a: Action, now: nat)
    requires Phases(s) && LookupsInFlight(s) && UsedCoversSpec(s.log) && Enabled(env, s, a)
    ensures UsedCoversSpec(Step(env, s, a, now).log)
  {
    if a.Apply? {
      UsedApply(s, Recorded(env, s.proc.value.copy.status).value, a.effect, now);
    } else {
      assert Step(env, s, a, now).log.used == s.log.used;
    }
  }

  lemma EmptySlotInv(env: Env, now: nat)
    requires ValidEnv(env)
    ensures LogInv(env, EMPTY_SLOT, now)
  {
  }

  lemma SlotInvStep(env: Env, s: Slot, a: Action, now: nat)
    requires Inv(env, s) && Enabled(env, s, a)
    ensures Inv(env, Step(env, s, a, now))
  {
    BoundedStep(env, s, a, now);
    HeldStep(env, s, a, now);
    StatusStep(env, s, a, now);
    ReadableStep(env, s, a, now);
    NewStatesStep(env, s, a, now);
    PhasesStep(env, s, a, now);
    CoveredStep(env, s, a, now);
    OwnNamesStep(env, s, a, now);
  }

  lemma LogInvStep(env: Env, s: Slot, a: Action, now: nat)
    requires LogInv(env, s, now) && Enabled(env, s, a)
    requires a.Find? ==> a.target.key == a.reference.key
    ensures LogInv(env, Step(env, s, a, now), now + 1)
  {
    SlotInvStep(env, s, a, now);
    if a.SaveState? {
      RecordedAgreesSave(env, s, a.iv, a.reply, now);
    } else {
      RecordedAgreesStep(env, s, a, now);
    }
    CopyAgreesStep(env, s, a, now);
    UnnamedStep(env, s, a, now);
    UnsavedStep(env, s, a, now);
    AppliesStep(env, s, a, now);
    GenerationsStep(env, s, a, now);
    TimesStep(env, s, a, now);
    if a.SaveStatus? {
      CreatedAfterApplySave(env, s, a.reply, now);
    } else {
      CreatedAfterApplyStep(env, s, a, now);
    }
    CreatedIsLoggedStep(env, s, a, now);
    LookupsStep(env, s, a, now);
    UsedStep(env, s, a, now);
    ReportsStep(env, s, a, now);
  }

  // ---------------------------------------------------------------- one step to the next

  predicate SameIncarnation(s: Slot, t: Slot) {
    s.stored.Some? && t.stored.Some? && s.stored.value.serial == t.stored.value.serial
  }

  predicate AtMost(a: Option<nat>, b: Option<nat>) {
    a.Some? ==> b.Some? && a.value <= b.value
  }

  /** On one incarnation: generations and deletion do not go back; provider metadata is write-once. */
  predicate Forward(o: Object, p: Object) {
    && o.generation <= p.generation && (o.deleting ==> p.deleting)
    && AtMost(o.status.lastApplied, p.status.lastApplied)
    && (o.status.provider.Some? ==> p.status.provider == o.status.provider)
  }

  lemma ForwardStep(env: Env, s: Slot, a: Action, now: nat)
    requires Held(s) && Phases(s) && StatusInMemory(s) && Generations(s) && Bounded(s) && Enabled(env, s, a)
    requires SameIncarnation(s, Step(env, s, a, now))
    ensures Forward(s.stored.value, Step(env, s, a, now).stored.value)
  {
  }
}
