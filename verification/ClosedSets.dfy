/**
 Objects that wait for one another.  When every object stored under a set of names always
 references a name of the set, none of them is ever applied, in any run.
 */
module ClosedSets {
  import opened Slot
  import opened SlotInvariant
  import opened SlotLog
  import opened World

  predicate RefersInto(spec: Spec, names: set<ObjectKey>) {
    exists r :: r in spec.references && r.key in names
  }

  predicate Closed(w: World, names: set<ObjectKey>) {
    forall k :: k in names && SlotAt(w, k).stored.Some? ==> RefersInto(SlotAt(w, k).stored.value.spec, names)
  }

  ghost predicate AlwaysClosed(env: Env, run: seq<Event>, names: set<ObjectKey>)
    requires Legal(env, run)
  {
    forall i :: 0 <= i <= |run| && Legal(env, run[..i]) ==> Closed(After(env, run[..i]), names)
  }

  predicate FoundOutside(p: Proc, names: set<ObjectKey>) {
    p.pc.Resolving? ==> forall r :: r in p.pc.found ==> r.key !in names
  }

  /** Never applied, and the reconcile in flight, if any, still misses a reference. */
  predicate Blocked(s: Slot, names: set<ObjectKey>) {
    && s.log.applyTime == map[] && s.cloud == {}
    && (s.proc.Some? && !s.proc.value.deleting ==>
          var p := s.proc.value;
          (p.pc.Begin? || p.pc.Resolving?) && RefersInto(p.copy.spec, names) && FoundOutside(p, names))
  }

  lemma BlockedApply(env: Env, s: Slot, e: Effect, now: nat, names: set<ObjectKey>)
    requires Blocked(s, names) && LookupsInFlight(s) && Enabled(env, s, Apply(e))
    ensures Blocked(Step(env, s, Apply(e), now), names)
  {
    var p := s.proc.value;
    if !p.deleting {
      assert false;
    }
  }

  lemma BlockedStep(env: Env, s: Slot, a: Action, now: nat, names: set<ObjectKey>)
    requires Blocked(s, names) && Phases(s) && Enabled(env, s, a) && !a.Apply?
    requires s.stored.Some? ==> RefersInto(s.stored.value.spec, names)
    requires a.Find? ==> a.reference.key !in names
    ensures Blocked(Step(env, s, a, now), names)
  {
  }

  ghost predicate AllBlocked(w: World, names: set<ObjectKey>) {
    forall k :: k in names ==> Blocked(SlotAt(w, k), names)
  }

  /** What a reference finds is "Created", so it lies outside a blocked set. */
  lemma FindsOutside(env: Env, w: World, r: Reference, t: Target, names: set<ObjectKey>)
    requires ValidEnv(env) && SlotsInv(env, w) && AllBlocked(w, names) && Finds(w, r, t)
    ensures r.key !in names
  {
    SlotInvAt(env, w, t.key);
  }

  lemma BlockedNext(env: Env, w: World, e: Event, names: set<ObjectKey>)
    requires ValidEnv(env) && SlotsInv(env, w) && CanHappen(env, w, e)
    requires Closed(w, names) && AllBlocked(w, names)
    ensures AllBlocked(Next(env, w, e), names)
  {
    if e.key in names {
      var s := SlotAt(w, e.key);
      SlotInvAt(env, w, e.key);
      if e.action.Find? { FindsOutside(env, w, e.action.reference, e.action.target, names); }
      if e.action.Apply? {
        BlockedApply(env, s, e.action.effect, w.now, names);
      } else {
        BlockedStep(env, s, e.action, w.now, names);
      }
    }
  }

  lemma {:induction false} ClosedSetIsNeverApplied(env: Env, run: seq<Event>, names: set<ObjectKey>)
    requires ValidEnv(env) && Legal(env, run) && AlwaysClosed(env, run, names)
    ensures AllBlocked(After(env, run), names)
    decreases |run|
  {
    if run != [] {
      var before := run[..|run| - 1];
      forall i | 0 <= i <= |before| && Legal(env, before[..i]) ensures Closed(After(env, before[..i]), names) {
        assert before[..i] == run[..i];
      }
      ClosedSetIsNeverApplied(env, before, names);
      InvAfter(env, before);
      assert run[..|before|] == before;
      BlockedNext(env, After(env, before), run[|run| - 1], names);
    }
  }
}
