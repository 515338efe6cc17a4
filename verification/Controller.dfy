/**
 The controller as a program (controller.go:45-81, reconcile.go:89-240): one call of Reconcile
 works through its steps while everyone else goes on.  Each call is part of a run of the
 protocol, so what is proved of all runs holds of this program.
 */
module Controller {
  import opened GoStrings
  import opened Slot
  import opened SlotInvariant
  import opened World
  import opened Convergence
  import StateCodec

  /** ctrl.Result: no requeue, or one after this many seconds. */
  datatype Result = Result(requeueAfter: nat)

  /** What the work queue does next with the object. */
  datatype Requeue = Done | Again(seconds: nat) | Backoff(error: string)

  const RETRY := 30
  const DRIFT := 15 * 60

  predicate UserAction(a: Action) {
    a.Create? || a.Edit? || a.Delete? || a.SetFinalizers? || a.Vanish?
  }

  /** Others may do anything except run a second reconcile of the same object. */
  predicate ByOthers(e: Event, k: ObjectKey) {
    e.key != k || UserAction(e.action)
  }

  /** Nothing has been done to the cloud for this name, and nothing logged. */
  predicate SameCloud(s: Slot, t: Slot) {
    t.cloud == s.cloud && t.log == s.log
  }

  lemma OthersKeep(env: Env, w: World, e: Event, k: ObjectKey)
    requires CanHappen(env, w, e) && ByOthers(e, k)
    ensures SlotAt(Next(env, w, e), k).proc == SlotAt(w, k).proc
    ensures SameCloud(SlotAt(w, k), SlotAt(Next(env, w, e), k))
  {
  }

  lemma LegalOneMore(env: Env, run: seq<Event>, e: Event)
    requires Legal(env, run) && CanHappen(env, After(env, run), e)
    ensures Legal(env, run + [e]) && After(env, run + [e]) == Next(env, After(env, run), e)
  {
    assert (run + [e])[..|run|] == run;
  }

  // ---------------------------------------------------------------- how a reconcile ends

  /** The last patch was acknowledged. */
  predicate Finished(run: seq<Event>, k: ObjectKey) {
    run != [] && run[|run| - 1].key == k &&
    (run[|run| - 1].action == SaveStatus(Acked) || run[|run| - 1].action == RemoveFinalizer(Acked))
  }

  /** A reference is still to be found, and cannot be. */
  predicate Waits(w: World, k: ObjectKey) {
    var proc := SlotAt(w, k).proc;
    proc.Some? && proc.value.pc.Resolving? && exists r :: r in proc.value.pc.pending && !CanFind(w, r)
  }

  /** It gave up on that, and no read had failed. */
  predicate Waited(env: Env, run: seq<Event>, k: ObjectKey, fails: nat -> bool)
    requires Legal(env, run)
  {
    && run != [] && run[|run| - 1] == Event(k, GiveUp) && !fails(|run| - 1)
    && Waits(After(env, run[..|run| - 1]), k)
  }

  /**
   What ends a reconcile with an error: a patch that is not acknowledged, an apply that fails, a
   read or a mapping that fails, a recorded state that does not decode, or no finalizer to remove.
   */
  predicate Fault(env: Env, w: World, e: Event, fails: nat -> bool) {
    SlotAt(w, e.key).proc.Some? &&
    var p := SlotAt(w, e.key).proc.value;
    match e.action
    case EnsureFinalizer(r) => !Ours(p.copy) && !r.Acked?
    case Apply(effect) => effect.Failed? || effect.Halfway?
    case SaveState(_, r) => !r.Acked?
    case SaveStatus(r) => !r.Acked?
    case RemoveFinalizer(r) => !r.Acked?
    case GiveUp =>
      || fails(w.now) || (!Waits(w, e.key) && Recorded(env, p.copy.status).Err?)
      || (p.pc.Saved? && p.deleting && !Ours(p.copy))
    case _ => false
  }

  predicate Faulted(env: Env, run: seq<Event>, k: ObjectKey, fails: nat -> bool)
    requires Legal(env, run)
  {
    run != [] && run[|run| - 1].key == k && Fault(env, After(env, run[..|run| - 1]), run[|run| - 1], fails)
  }

  /** A reconcile ends in one of these ways only. */
  lemma OneEnding(env: Env, run: seq<Event>, k: ObjectKey, fails: nat -> bool)
    requires Legal(env, run)
    ensures !(Finished(run, k) && Waited(env, run, k, fails))
    ensures !(Finished(run, k) && Faulted(env, run, k, fails))
    ensures !(Waited(env, run, k, fails) && Faulted(env, run, k, fails))
  {
  }

  /** The result and the error that go with each. */
  predicate Ends(
    env: Env, run: seq<Event>, k: ObjectKey, fails: nat -> bool, result: Option<Result>, error: Option<string>)
    requires Legal(env, run)
  {
    && (error.Some? <==> Faulted(env, run, k, fails))
    && (error.None? && result == Some(Result(0)) <==> Finished(run, k))
    && (error.None? && result == Some(Result(RETRY)) <==> Waited(env, run, k, fails))
    && (error.None? ==> result == Some(Result(0)) || result == Some(Result(RETRY)))
  }

  lemma EndsSo(
    env: Env, run: seq<Event>, k: ObjectKey, fails: nat -> bool, result: Option<Result>, error: Option<string>)
    requires Legal(env, run)
    requires if error.Some? then Faulted(env, run, k, fails)
             else
               || (result == Some(Result(0)) && Finished(run, k))
               || (result == Some(Result(RETRY)) && Waited(env, run, k, fails))
    ensures Ends(env, run, k, fails, result, error)
  {
    OneEnding(env, run, k, fails);
  }

  /** The recorded state of an object in memory always decodes. */
  lemma RecordedDecodes(env: Env, run: seq<Event>, k: ObjectKey)
    requires ValidEnv(env) && Legal(env, run)
    ensures var proc := SlotAt(After(env, run), k).proc; proc.Some? ==> Recorded(env, proc.value.copy.status).Ok?
  {
    InvAfter(env, run);
    SlotInvAt(env, After(env, run), k);
  }

  // ---------------------------------------------------------------- when nothing gets in the way

  predicate SameFields(s: Slot, t: Slot) {
    && (s.stored.Some? <==> t.stored.Some?)
    && (s.stored.Some? ==>
          && t.stored.value.spec == s.stored.value.spec && t.stored.value.status == s.stored.value.status
          && t.stored.value.deleting == s.stored.value.deleting)
  }

  ghost predicate Steady(v: World, w: World) {
    forall k :: SameFields(SlotAt(v, k), SlotAt(w, k))
  }

  lemma FindableStays(v: World, w: World, r: Reference)
    requires Steady(v, w)
    ensures CanFind(w, r) <==> CanFind(v, r)
  {
    assert SameFields(SlotAt(v, r.key), SlotAt(w, r.key));
  }

  lemma SteadyOn(u: World, v: World, w: World)
    requires Steady(u, v) && Steady(v, w)
    ensures Steady(u, w)
  {
    forall k ensures SameFields(SlotAt(u, k), SlotAt(w, k)) {
      assert SameFields(SlotAt(u, k), SlotAt(v, k)) && SameFields(SlotAt(v, k), SlotAt(w, k));
    }
  }

  /** Looking up a reference changes no object. */
  lemma FindIsSteady(env: Env, w: World, e: Event)
    requires CanHappen(env, w, e) && e.action.Find?
    ensures Steady(w, Next(env, w, e))
  {
  }

  predicate AllFindable(w: World, references: set<Reference>) {
    forall r :: r in references ==> CanFind(w, r)
  }

  lemma AllFindableStays(v: World, w: World, references: set<Reference>)
    requires Steady(v, w) && AllFindable(v, references)
    ensures AllFindable(w, references)
  {
    forall r | r in references ensures CanFind(w, r) { FindableStays(v, w, r); }
  }

  /** The provider succeeds with this, and can do it to the resource of the object in memory. */
  predicate Suits(s: Slot, p: Proc, prior: TfState, e: Effect) {
    !e.Failed? && !e.Halfway? && EffectPossible(s, p, prior, e)
  }

  ghost predicate AllSuit(env: Env, s: Slot, effects: nat -> Effect) {
    s.proc.Some? &&
    var prior := Recorded(env, s.proc.value.copy.status);
    prior.Ok? && forall t :: Suits(s, s.proc.value, prior.value, effects(t))
  }

  /** The same spec and status to work on. */
  predicate SameTask(p: Proc, q: Proc) {
    q.deleting == p.deleting && q.copy.spec == p.copy.spec && q.copy.status == p.copy.status
  }

  lemma AllSuitStill(env: Env, s: Slot, t: Slot, effects: nat -> Effect)
    requires AllSuit(env, s, effects) && t.proc.Some? && SameTask(s.proc.value, t.proc.value) && t.cloud == s.cloud
    ensures AllSuit(env, t, effects)
  {
    var prior := Recorded(env, s.proc.value.copy.status).value;
    forall n ensures Suits(t, t.proc.value, prior, effects(n)) {
      assert Suits(s, s.proc.value, prior, effects(n));
    }
  }

  /** A finalizer to remove if the object is being deleted, and references that can be found if not. */
  predicate HasWhatItNeeds(w: World, o: Object) {
    if o.deleting then Ours(o) else AllFindable(w, o.spec.references)
  }

  /** A reconcile in flight that has just read its object, and that nothing needs to stop. */
  ghost predicate CanFinish(env: Env, w: World, k: ObjectKey, effects: nat -> Effect) {
    var s := SlotAt(w, k);
    && AllSuit(env, s, effects) && s.stored == Some(s.proc.value.copy)
    && s.proc.value.deleting == s.proc.value.copy.deleting && HasWhatItNeeds(w, s.proc.value.copy)
  }

  /** The same of a name that has no reconcile in flight. */
  ghost predicate CanSucceed(env: Env, w: World, k: ObjectKey, effects: nat -> Effect) {
    var s := SlotAt(w, k);
    s.stored.Some? ==> AllSuit(env, StartStep(s, w.now), effects) && HasWhatItNeeds(w, s.stored.value)
  }

  // ---------------------------------------------------------------- the controller

  predicate OnlyOthers(run: seq<Event>, from: nat, k: ObjectKey) {
    forall i :: from <= i < |run| ==> ByOthers(run[i], k)
  }

  /** The reconcile goes on with the same object in memory. */
  predicate SameWork(p: Proc, q: Proc) {
    q.deleting == p.deleting && q.copy == p.copy
  }

  predicate StillToFind(s: Slot, r: Reference) {
    s.proc.Some? && s.proc.value.pc.Resolving? && r in s.proc.value.pc.pending
  }

  /** The reconcile goes on with one reference less to find. */
  predicate OneLess(s: Slot, t: Slot, r: Reference)
    requires StillToFind(s, r)
  {
    && t.proc.Some? && t.proc.value.pc.Resolving? && SameWork(s.proc.value, t.proc.value)
    && t.proc.value.pc.pending == s.proc.value.pc.pending - {r}
  }

  /** The object is as it was read, and holds the finalizer by now. */
  predicate Ensured(s: Slot, t: Slot, p: Proc)
    requires s.proc.Some?
  {
    var before := s.proc.value;
    && p.pc == Resolving(p.copy.spec.references, map[]) && p.deleting == before.deleting
    && if Ours(before.copy) then p.copy == before.copy
       else t.stored == Some(p.copy) && p.copy.finalizers == before.copy.finalizers + [FINALIZER]
  }

  /** The stored object is there, and holds the finalizer if it is to be removed. */
  predicate MayRelease(s: Slot)
    requires s.proc.Some?
  {
    s.stored.Some? && (s.proc.value.deleting ==> Ours(s.stored.value))
  }

  /** What success means for the stored object. */
  predicate ReleasedOrCreated(s: Slot, deleting: bool) {
    s.stored.Some? &&
    var o := s.stored.value;
    if deleting then !Ours(o) else Ours(o) && o.status.provisioningState == Some(CREATED)
  }

  /**
   The cluster with a controller in it.  What others do, which patches fail, what the provider
   does and which reads fail may depend on the time in any way.
   */
  class Bridge {
    const env: Env
    const others: nat -> seq<Event>
    const replies: nat -> Reply
    const effects: nat -> Effect
    const fails: nat -> bool
    const vectors: nat -> StateCodec.Vector

    var world: World
    ghost var run: seq<Event>

    /** The cluster is where a legal run of the protocol has led. */
    ghost predicate Valid()
      reads this
    {
      ValidEnv(env) && Legal(env, run) && world == After(env, run)
    }

    constructor (env: Env, others: nat -> seq<Event>, replies: nat -> Reply, effects: nat -> Effect, fails: nat -> bool,
                 vectors: nat -> StateCodec.Vector)
      requires ValidEnv(env)
      ensures Valid() && run == []
    {
      this.env, this.others, this.replies, this.effects, this.fails, this.vectors := env, others, replies, effects,
        fails, vectors;
      world, run := INITIAL, [];
    }

    /** Nobody else does anything, and no patch and no read fails. */
    ghost predicate Calm() {
      forall t :: others(t) == [] && replies(t) == Acked && !fails(t)
    }

    method Do(e: Event)
      requires Valid() && CanHappen(env, world, e)
      modifies this
      ensures Valid() && world == Next(env, old(world), e) && run == old(run) + [e]
      ensures run[..|run| - 1] == old(run) && After(env, run[..|run| - 1]) == old(world)
    {
      LegalOneMore(env, run, e);
      world, run := Next(env, world, e), run + [e];
    }

    method Others(k: ObjectKey)
      requires Valid()
      modifies this
      ensures Valid() && old(run) <= run && OnlyOthers(run, |old(run)|, k)
      ensures SlotAt(world, k).proc == old(SlotAt(world, k).proc)
      ensures SameCloud(old(SlotAt(world, k)), SlotAt(world, k))
      ensures Calm() ==> world == old(world)
    {
      var events := others(world.now);
      for i := 0 to |events|
        invariant Valid() && old(run) <= run && OnlyOthers(run, |old(run)|, k)
        invariant SlotAt(world, k).proc == old(SlotAt(world, k).proc)
        invariant SameCloud(old(SlotAt(world, k)), SlotAt(world, k))
        invariant Calm() ==> world == old(world)
      {
        if CanHappen(env, world, events[i]) && ByOthers(events[i], k) {
          OthersKeep(env, world, events[i], k);
          Do(events[i]);
        }
      }
    }

    /** The fate of the next patch of an object of this name. */
    function Fate(k: ObjectKey): (r: Reply)
      reads this
      ensures Reachable(SlotAt(world, k), r)
      ensures r == replies(world.now) || SlotAt(world, k).stored.None?
    {
      if Reachable(SlotAt(world, k), replies(world.now)) then replies(world.now) else Rejected
    }

    // -------------------------------------------------------------- one reconcile

    /** Gives up before the provider is called, or after the state is saved. */
    method GiveUp(k: ObjectKey)
      requires Valid() && SlotAt(world, k).proc.Some? && !SlotAt(world, k).proc.value.pc.Applied?
      modifies this
      ensures Valid() && run == old(run) + [Event(k, Action.GiveUp)] && SlotAt(world, k).proc.None?
      ensures SameCloud(old(SlotAt(world, k)), SlotAt(world, k))
      ensures old(Waits(world, k) && !fails(world.now)) ==> Waited(env, run, k, fails)
      ensures old(Fault(env, world, Event(k, Action.GiveUp), fails)) ==> Faulted(env, run, k, fails)
    {
      Do(Event(k, Action.GiveUp));
    }

    /** Goes on with the finalizer in the list, after a patch if it was not there; or it is over. */
    method EnsureFinalizer(k: ObjectKey) returns (error: Option<string>)
      requires Valid() && SlotAt(world, k).proc.Some? && SlotAt(world, k).proc.value.pc.Begin?
      modifies this
      ensures Valid() && old(run) <= run
      ensures SameCloud(old(SlotAt(world, k)), SlotAt(world, k))
      ensures error.Some? ==> SlotAt(world, k).proc.None? && Faulted(env, run, k, fails)
      ensures error.None? ==>
                var s := SlotAt(world, k); s.proc.Some? && Ensured(old(SlotAt(world, k)), s, s.proc.value)
      ensures Calm() && old(SlotAt(world, k).stored == Some(SlotAt(world, k).proc.value.copy)) ==>
                && error.None? && Steady(old(world), world)
                && SameTask(old(SlotAt(world, k).proc.value), SlotAt(world, k).proc.value)
    {
      Others(k);
      var had := Ours(SlotAt(world, k).proc.value.copy);
      var reply := Fate(k);
      Do(Event(k, Action.EnsureFinalizer(reply)));
      error := if had || reply == Acked then None else Some("Error adding finalizer");
    }

    /** getReferencedObjectValue: the value, or a reason to stop. */
    method GetReferencedObjectValue(k: ObjectKey, reference: Reference)
      returns (result: Option<Result>, error: Option<string>)
      requires Valid() && StillToFind(SlotAt(world, k), reference)
      modifies this
      ensures Valid() && old(run) <= run
      ensures SameCloud(old(SlotAt(world, k)), SlotAt(world, k))
      ensures result.Some? ==> result == Some(Result(RETRY)) && error.None? && Waited(env, run, k, fails)
      ensures error.Some? ==> Faulted(env, run, k, fails)
      ensures if result.Some? || error.Some? then SlotAt(world, k).proc.None?
              else OneLess(old(SlotAt(world, k)), SlotAt(world, k), reference)
      ensures Calm() && old(CanFind(world, reference)) ==> result.None? && error.None? && Steady(old(world), world)
    {
      Others(k);
      if fails(world.now) {
        GiveUp(k);
        return None, Some("Error getting referenced resource");
      }
      var referenced := SlotAt(world, reference.key).stored;
      if referenced.None? || !Resolves(referenced.value, reference.property) {
        GiveUp(k);
        return Some(Result(RETRY)), None;
      }
      var find := Event(k, Action.Find(reference, Target(reference.key, referenced.value.serial)));
      FindIsSteady(env, world, find);
      Do(find);
      return None, None;
    }

    /** mapCRDSpecValuesToTerraformConfig, as far as it reads other objects or fails. */
    method ResolveReferences(k: ObjectKey) returns (result: Option<Result>, error: Option<string>)
      requires Valid() && SlotAt(world, k).proc.Some? && SlotAt(world, k).proc.value.pc.Resolving?
      modifies this
      ensures Valid() && old(run) <= run
      ensures SameCloud(old(SlotAt(world, k)), SlotAt(world, k))
      ensures result.Some? ==> result == Some(Result(RETRY)) && error.None? && Waited(env, run, k, fails)
      ensures error.Some? ==> Faulted(env, run, k, fails)
      ensures if result.Some? || error.Some? then SlotAt(world, k).proc.None?
              else
                && SlotAt(world, k).proc.Some? && SlotAt(world, k).proc.value.pc.Resolving?
                && SlotAt(world, k).proc.value.pc.pending == {}
                && SameWork(old(SlotAt(world, k).proc.value), SlotAt(world, k).proc.value)
      ensures Calm() && old(AllFindable(world, SlotAt(world, k).proc.value.pc.pending)) ==>
                result.None? && error.None? && Steady(old(world), world)
    {
      ghost var calm := Calm() && AllFindable(world, SlotAt(world, k).proc.value.pc.pending);
      while SlotAt(world, k).proc.value.pc.pending != {}
        invariant Valid() && old(run) <= run
        invariant SameCloud(old(SlotAt(world, k)), SlotAt(world, k))
        invariant SlotAt(world, k).proc.Some? && SlotAt(world, k).proc.value.pc.Resolving?
        invariant SameWork(old(SlotAt(world, k).proc.value), SlotAt(world, k).proc.value)
        invariant calm ==> Steady(old(world), world) && AllFindable(world, SlotAt(world, k).proc.value.pc.pending)
        decreases |SlotAt(world, k).proc.value.pc.pending|
      {
        ghost var before := world;
        var reference :| reference in SlotAt(world, k).proc.value.pc.pending;
        result, error := GetReferencedObjectValue(k, reference);
        if result.Some? || error.Some? { return; }
        if calm {
          SteadyOn(old(world), before, world);
          AllFindableStays(before, world, SlotAt(world, k).proc.value.pc.pending);
        }
      }
      if fails(world.now) {
        GiveUp(k);
        return None, Some("Error applying values from the CRD spec to Terraform config");
      }
      return None, None;
    }

    method PlanAndApplyConfig(k: ObjectKey, prior: TfState) returns (error: Option<string>)
      requires Valid() && SlotAt(world, k).proc.Some?
      requires Recorded(env, SlotAt(world, k).proc.value.copy.status) == Ok(prior)
      requires var pc := SlotAt(world, k).proc.value.pc; pc.Ready? || (pc.Resolving? && pc.pending == {})
      modifies this
      ensures Valid() && old(run) <= run
      ensures error.Some? ==> SlotAt(world, k).proc.None? && Faulted(env, run, k, fails)
      ensures error.None? ==> SlotAt(world, k).proc.Some? && SlotAt(world, k).proc.value.pc.Applied?
                              && SameWork(old(SlotAt(world, k).proc.value), SlotAt(world, k).proc.value)
      ensures Calm() ==> SlotAt(world, k).stored == old(SlotAt(world, k).stored)
      ensures Calm() && old(AllSuit(env, SlotAt(world, k), effects)) ==> error.None?
    {
      Others(k);
      var effect := effects(world.now);
      if !EffectPossible(SlotAt(world, k), SlotAt(world, k).proc.value, prior, effect) { effect := Failed; }
      Do(Event(k, Action.Apply(effect)));
      error := if effect.Failed? || effect.Halfway? then Some("Error applying changes in Terraform") else None;
    }

    method SaveTerraformStateValue(k: ObjectKey) returns (error: Option<string>)
      requires Valid() && SlotAt(world, k).proc.Some? && SlotAt(world, k).proc.value.pc.Applied?
      modifies this
      ensures Valid() && old(run) <= run
      ensures error.Some? ==> SlotAt(world, k).proc.None? && Faulted(env, run, k, fails)
      ensures error.None? ==> SlotAt(world, k).proc.Some? && SlotAt(world, k).proc.value.pc.Saved?
                              && SlotAt(world, k).proc.value.deleting == old(SlotAt(world, k).proc.value.deleting)
                              && SlotAt(world, k).stored == Some(SlotAt(world, k).proc.value.copy)
      ensures Calm() && old(SlotAt(world, k).stored.Some?) ==>
                && error.None?
                && SlotAt(world, k).stored.value.finalizers == old(SlotAt(world, k).stored.value.finalizers)
    {
      Others(k);
      var reply := Fate(k);
      Do(Event(k, Action.SaveState(vectors(world.now), reply)));
      error := if reply == Acked then None else Some("Error saving Terraform state to CRD");
    }

    /** The last patch of a deletion: the finalizers in memory without ours. */
    method RemoveFinalizerAndSave(k: ObjectKey) returns (error: Option<string>)
      requires Valid() && SlotAt(world, k).proc.Some? && SlotAt(world, k).proc.value.pc.Saved? &&
                 SlotAt(world, k).proc.value.deleting
      modifies this
      ensures Valid() && old(run) <= run && SlotAt(world, k).proc.None?
      ensures error.Some? ==> Faulted(env, run, k, fails)
      ensures error.None? ==>
                && Finished(run, k) && SlotAt(world, k).stored.Some? && old(Ours(SlotAt(world, k).proc.value.copy))
                && SlotAt(world, k).stored.value.finalizers == old(Without(SlotAt(world, k).proc.value.copy.finalizers))
      ensures Calm() && old(SlotAt(world, k).stored.Some? && Ours(SlotAt(world, k).proc.value.copy)) ==> error.None?
    {
      Others(k);
      if fails(world.now) {
        GiveUp(k);
        return Some("Error adding terraform provider metadata");
      }
      if !Ours(SlotAt(world, k).proc.value.copy) {
        GiveUp(k);
        return Some("Finalizer not found on remove");
      }
      var reply := Fate(k);
      Do(Event(k, Action.RemoveFinalizer(reply)));
      error := if reply == Acked then None else Some("Error removing finalizer");
    }

    /** The last patch otherwise: the status, with what was mapped to it. */
    method SaveResourceStatus(k: ObjectKey) returns (error: Option<string>)
      requires Valid() && SlotAt(world, k).proc.Some? && SlotAt(world, k).proc.value.pc.Saved? &&
                 !SlotAt(world, k).proc.value.deleting
      modifies this
      ensures Valid() && old(run) <= run && SlotAt(world, k).proc.None?
      ensures error.Some? ==> Faulted(env, run, k, fails)
      ensures error.None? ==> Finished(run, k) && ShowsResult(env, SlotAt(world, k), old(SlotAt(world, k).proc.value))
      ensures Calm() && old(SlotAt(world, k).stored.Some?) ==> error.None?
    {
      Others(k);
      if fails(world.now) {
        GiveUp(k);
        return Some("Error mapping Terraform value to CRD status");
      }
      var reply := Fate(k);
      if reply == Acked { SavedShowsResult(env, run, k); }
      Do(Event(k, Action.SaveStatus(reply)));
      error := if reply == Acked then None else Some("Error saving CRD");
    }

    /** What comes before planning when the object is not being deleted. */
    method PrepareConfig(k: ObjectKey) returns (result: Option<Result>, error: Option<string>)
      requires Valid() && SlotAt(world, k).proc.Some? && SlotAt(world, k).proc.value.pc.Begin? &&
                 !SlotAt(world, k).proc.value.deleting
      modifies this
      ensures Valid() && old(run) <= run
      ensures SameCloud(old(SlotAt(world, k)), SlotAt(world, k))
      ensures result.Some? ==> result == Some(Result(RETRY)) && error.None? && Waited(env, run, k, fails)
      ensures error.Some? ==> Faulted(env, run, k, fails)
      ensures var proc := SlotAt(world, k).proc;
              if result.Some? || error.Some? then proc.None?
              else
                && proc.Some? && proc.value.pc.Resolving? && proc.value.pc.pending == {}
                && proc.value.deleting == old(SlotAt(world, k).proc.value.deleting)
      ensures Calm() && old(CanFinish(env, world, k, effects)) ==>
                && result.None? && error.None?
                && AllSuit(env, SlotAt(world, k), effects) && MayRelease(SlotAt(world, k))
    {
      result := None;
      error := EnsureFinalizer(k);
      if error.Some? { return; }
      ghost var calm := Calm() && old(CanFinish(env, world, k, effects));
      if calm { AllFindableStays(old(world), world, SlotAt(world, k).proc.value.pc.pending); }
      result, error := ResolveReferences(k);
      if calm { AllSuitStill(env, old(SlotAt(world, k)), SlotAt(world, k), effects); }
    }

    /** What comes from planning on. */
    method ApplyAndSave(k: ObjectKey) returns (result: Option<Result>, error: Option<string>)
      requires Valid() && SlotAt(world, k).proc.Some?
      requires var pc := SlotAt(world, k).proc.value.pc; pc.Ready? || (pc.Resolving? && pc.pending == {})
      modifies this
      ensures Valid() && old(run) <= run && SlotAt(world, k).proc.None?
      ensures if error.Some? then Faulted(env, run, k, fails) else result == Some(Result(0)) && Finished(run, k)
      ensures error.None? ==> ReleasedOrCreated(SlotAt(world, k), old(SlotAt(world, k).proc.value.deleting))
      ensures Calm() && old(AllSuit(env, SlotAt(world, k), effects) && MayRelease(SlotAt(world, k))) ==> error.None?
    {
      result := None;
      var deleting := SlotAt(world, k).proc.value.deleting;
      var prior := Recorded(env, SlotAt(world, k).proc.value.copy.status);
      if prior.Err? {
        GiveUp(k);
        return None, Some("Error getting Terraform state from CRD");
      }
      error := PlanAndApplyConfig(k, prior.value);
      if error.Some? { return; }
      error := SaveTerraformStateValue(k);
      if error.Some? { return Some(Result(0)), error; }
      if deleting {
        error := RemoveFinalizerAndSave(k);
      } else {
        error := SaveResourceStatus(k);
      }
      if error.None? { result := Some(Result(0)); }
    }

    /** TerraformReconciler.Reconcile, from the object just read to the result and the error. */
    method TerraformReconcile(k: ObjectKey) returns (result: Option<Result>, error: Option<string>)
      requires Valid() && SlotAt(world, k).proc.Some?
      requires var p := SlotAt(world, k).proc.value; if p.deleting then p.pc.Ready? else p.pc.Begin?
      modifies this
      ensures Valid() && old(run) <= run && SlotAt(world, k).proc.None?
      ensures Ends(env, run, k, fails, result, error)
      ensures error.None? && result == Some(Result(RETRY)) ==> SameCloud(old(SlotAt(world, k)), SlotAt(world, k))
      ensures error.None? && result == Some(Result(0)) ==>
                ReleasedOrCreated(SlotAt(world, k), old(SlotAt(world, k).proc.value.deleting))
      ensures Calm() && old(CanFinish(env, world, k, effects)) ==> error.None? && result == Some(Result(0))
    {
      if !SlotAt(world, k).proc.value.deleting {
        result, error := PrepareConfig(k);
        if result.Some? || error.Some? {
          EndsSo(env, run, k, fails, result, error);
          return;
        }
      }
      result, error := ApplyAndSave(k);
      EndsSo(env, run, k, fails, result, error);
    }

    /** Reconcile of the controller: reads the object, if it is there, and says what comes next. */
    method Reconcile(k: ObjectKey) returns (requeue: Requeue)
      requires Valid() && SlotAt(world, k).proc.None?
      modifies this
      ensures Valid() && old(run) <= run && SlotAt(world, k).proc.None?
      ensures requeue == Done || requeue == Again(30) || requeue.Backoff?
      ensures Started(run, |old(run)|, k) ==>
                && (requeue == Done <==> Finished(run, k))
                && (requeue == Again(30) <==> Waited(env, run, k, fails))
                && (requeue.Backoff? <==> Faulted(env, run, k, fails))
      ensures !Started(run, |old(run)|, k) ==>
                && (requeue == Done <==> !fails(world.now))
                && (requeue == Done ==> SlotAt(world, k).stored.None?)
                && requeue != Again(30)
      ensures requeue == Done ==> Settled(SlotAt(world, k))
      ensures requeue == Again(30) ==> SameCloud(old(SlotAt(world, k)), SlotAt(world, k))
      ensures Calm() && old(CanSucceed(env, world, k, effects)) ==> requeue == Done
    {
      Others(k);
      if fails(world.now) { return Backoff("Failed getting resource"); }
      if SlotAt(world, k).stored.None? { return Done; }
      Do(Event(k, Action.Start));
      ghost var started := |run| - 1;
      var result, error := TerraformReconcile(k);
      assert run[started] == Event(k, Action.Start);
      OneEnding(env, run, k, fails);
      requeue := WhatNext(result, error);
    }
  }

  /** controller.go:69-80: the error is looked at before the result. */
  function WhatNext(result: Option<Result>, error: Option<string>): Requeue {
    if error.Some? then Backoff(error.value)
    else if result.Some? then (if result.value.requeueAfter == 0 then Done else Again(result.value.requeueAfter))
    else Again(DRIFT)
  }

  /** The object of this reconcile is stored, holds the finalizer, and has the status of its result. */
  predicate ShowsResult(env: Env, s: Slot, p: Proc)
    requires p.pc.Saved?
  {
    && s.stored.Some? && s.stored.value.serial == p.copy.serial && Ours(s.stored.value)
    && s.stored.value.status == WithResult(env, p.copy, p.pc.newState).status
    && s.stored.value.status.provisioningState == Some("Created")
  }

  /** Saving the status changes nothing else of the stored object. */
  lemma SlotSaved(env: Env, s: Slot, now: nat)
    requires Inv(env, s) && s.proc.Some? && s.proc.value.pc.Saved? && !s.proc.value.deleting && Reachable(s, Acked)
    ensures var t := SaveStatusStep(env, s, Acked, now);
            ShowsResult(env, t, s.proc.value) && t.stored == Some(s.stored.value.(status := t.stored.value.status))
  {
  }

  lemma SavedShowsResult(env: Env, run: seq<Event>, k: ObjectKey)
    requires ValidEnv(env) && Legal(env, run) && CanHappen(env, After(env, run), Event(k, Action.SaveStatus(Acked)))
    ensures var s, t := SlotAt(After(env, run), k),
              SlotAt(Next(env, After(env, run), Event(k, Action.SaveStatus(Acked))), k);
            ShowsResult(env, t, s.proc.value) && t.stored == Some(s.stored.value.(status := t.stored.value.status))
  {
    InvAfter(env, run);
    SlotInvAt(env, After(env, run), k);
    SlotSaved(env, SlotAt(After(env, run), k), After(env, run).now);
  }

  /** Nothing is left to do: the object is gone, released, or "Created". */
  predicate Settled(s: Slot) {
    s.stored.None? || !Ours(s.stored.value) || s.stored.value.status.provisioningState == Some(CREATED)
  }
}
