/**
 The whole cluster: many objects, one API server, one cloud, one controller.  A run is a
 sequence of events, each one atomic step under one object name; time is the number of events
 so far.  References are the only thing that ties one name to another.
 */
module World {
  import opened Slot
  import opened SlotLog

  datatype World = World(slots: map<ObjectKey, Slot>, now: nat)

  datatype Event = Event(key: ObjectKey, action: Action)

  const INITIAL := World(map[], 0)

  function SlotAt(w: World, k: ObjectKey): Slot {
    if k in w.slots then w.slots[k] else EMPTY_SLOT
  }

  /** getReferencedObjectValue gets a value for this reference from this object. */
  predicate Finds(w: World, ref: Reference, t: Target) {
    && t.key == ref.key
    && SlotAt(w, t.key).stored.Some?
    && SlotAt(w, t.key).stored.value.serial == t.serial
    && Resolves(SlotAt(w, t.key).stored.value, ref.property)
  }

  predicate CanHappen(env: Env, w: World, e: Event) {
    && Enabled(env, SlotAt(w, e.key), e.action)
    && (e.action.Find? ==> Finds(w, e.action.reference, e.action.target))
  }

  function Next(env: Env, w: World, e: Event): World
    requires CanHappen(env, w, e)
  {
    World(w.slots[e.key := Step(env, SlotAt(w, e.key), e.action, w.now)], w.now + 1)
  }

  predicate Legal(env: Env, run: seq<Event>)
    decreases |run|, 0
  {
    run == [] || (Legal(env, run[..|run| - 1]) && CanHappen(env, After(env, run[..|run| - 1]), run[|run| - 1]))
  }

  /** The cluster after a run. */
  function After(env: Env, run: seq<Event>): (w: World)
    requires Legal(env, run)
    ensures w.now == |run|
    decreases |run|, 1
  {
    if run == [] then INITIAL
    else Next(env, After(env, run[..|run| - 1]), run[|run| - 1])
  }

  // ---------------------------------------------------------------- the invariant of all runs

  ghost predicate SlotsInv(env: Env, w: World) {
    forall k :: k in w.slots ==> LogInv(env, w.slots[k], w.now)
  }

  predicate IsCreated(w: World, t: Target) {
    t.serial in SlotAt(w, t.key).log.createdTime
  }

  /** What a reconcile in flight has found is "Created". */
  ghost predicate FoundIsCreated(w: World) {
    forall k, r :: k in w.slots && w.slots[k].proc.Some? && w.slots[k].proc.value.pc.Resolving?
                   && r in w.slots[k].proc.value.pc.found
                   ==> IsCreated(w, w.slots[k].proc.value.pc.found[r])
  }

  /** The target was "Created" before this time. */
  predicate CreatedBefore(w: World, t: Target, time: nat) {
    IsCreated(w, t) && SlotAt(w, t.key).log.createdTime[t.serial] < time
  }

  predicate UsedBeforeApply(w: World, l: Log, u: nat)
    requires u in l.applyTime && u in l.used
  {
    forall r :: r in l.used[u] ==> CreatedBefore(w, l.used[u][r], l.applyTime[u])
  }

  ghost predicate DependencyOrder(w: World) {
    forall k, u :: k in w.slots && u in w.slots[k].log.applyTime && u in w.slots[k].log.used ==>
      UsedBeforeApply(w, w.slots[k].log, u)
  }

  ghost predicate WorldInv(env: Env, w: World) {
    ValidEnv(env) && SlotsInv(env, w) && FoundIsCreated(w) && DependencyOrder(w)
  }

  lemma SlotInvAt(env: Env, w: World, k: ObjectKey)
    requires ValidEnv(env) && SlotsInv(env, w)
    ensures LogInv(env, SlotAt(w, k), w.now)
  {
    if k !in w.slots { EmptySlotInv(env, w.now); }
  }

  lemma LaterInv(env: Env, s: Slot, now: nat)
    requires LogInv(env, s, now)
    ensures LogInv(env, s, now + 1)
  {
  }

  lemma SlotInvNextAt(env: Env, w: World, e: Event, k: ObjectKey)
    requires ValidEnv(env) && SlotsInv(env, w) && CanHappen(env, w, e)
    ensures LogInv(env, SlotAt(Next(env, w, e), k), w.now + 1)
  {
    SlotInvAt(env, w, k);
    if k == e.key {
      LogInvStep(env, SlotAt(w, k), e.action, w.now);
    } else {
      LaterInv(env, SlotAt(w, k), w.now);
    }
  }

  lemma SlotsInvNext(env: Env, w: World, e: Event)
    requires ValidEnv(env) && SlotsInv(env, w) && CanHappen(env, w, e)
    ensures SlotsInv(env, Next(env, w, e))
  {
    var n := Next(env, w, e);
    forall k | k in n.slots ensures LogInv(env, n.slots[k], n.now) {
      SlotInvNextAt(env, w, e, k);
    }
  }

  /** "Created" times are never forgotten or moved. */
  lemma CreatedTimeStays(env: Env, s: Slot, a: Action, now: nat)
    requires Enabled(env, s, a)
    ensures forall u :: u in s.log.createdTime ==>
              u in Step(env, s, a, now).log.createdTime
              && Step(env, s, a, now).log.createdTime[u] == s.log.createdTime[u]
  {
  }

  lemma CreatedStays(env: Env, w: World, e: Event, t: Target)
    requires CanHappen(env, w, e) && IsCreated(w, t)
    ensures IsCreated(Next(env, w, e), t)
    ensures SlotAt(Next(env, w, e), t.key).log.createdTime[t.serial] == SlotAt(w, t.key).log.createdTime[t.serial]
  {
    CreatedTimeStays(env, SlotAt(w, e.key), e.action, w.now);
  }

  /** A slot's Resolving phase after a step: begun, gone on with, or one reference further. */
  lemma FoundStep(env: Env, s: Slot, a: Action, now: nat)
    requires Enabled(env, s, a)
    ensures var t := Step(env, s, a, now);
            t.proc.Some? && t.proc.value.pc.Resolving? ==>
              t.proc.value.pc.found == map[]
              || (s.proc.Some? && s.proc.value.pc.Resolving?
                  && (t.proc.value.pc.found == s.proc.value.pc.found
                      || (a.Find? && t.proc.value.pc.found == s.proc.value.pc.found[a.reference := a.target])))
  {
  }

  lemma FoundNext(env: Env, w: World, e: Event)
    requires WorldInv(env, w) && CanHappen(env, w, e)
    ensures FoundIsCreated(Next(env, w, e))
  {
    var n := Next(env, w, e);
    forall k, r | k in n.slots && n.slots[k].proc.Some? && n.slots[k].proc.value.pc.Resolving?
                  && r in n.slots[k].proc.value.pc.found
      ensures IsCreated(n, n.slots[k].proc.value.pc.found[r])
    {
      var t := n.slots[k].proc.value.pc.found[r];
      if k == e.key {
        FoundStep(env, SlotAt(w, k), e.action, w.now);
        if e.action.Find? && r == e.action.reference {
          SlotInvAt(env, w, t.key);
        }
      }
      assert IsCreated(w, t);
      CreatedStays(env, w, e, t);
    }
  }

  /** First applies and what they used: kept, or added by this step from what was found. */
  predicate UsedKept(s: Slot, l: Log, now: nat, u: nat)
    requires u in s.log.applyTime ==> u in s.log.used
  {
    u in l.applyTime ==>
      u in l.used &&
      if u in s.log.applyTime then l.applyTime[u] == s.log.applyTime[u] && l.used[u] == s.log.used[u]
      else l.applyTime[u] == now && s.proc.Some?
           && l.used[u] == if s.proc.value.pc.Resolving? then s.proc.value.pc.found else map[]
  }

  lemma UsedStaysApply(s: Slot, prior: TfState, e: Effect, now: nat, u: nat)
    requires s.proc.Some? && EffectPossible(s, s.proc.value, prior, e)
    requires u in s.log.applyTime ==> u in s.log.used
    ensures UsedKept(s, ApplyStep(s, prior, e, now).log, now, u)
  {
  }

  lemma UsedStays(env: Env, s: Slot, a: Action, now: nat, u: nat)
    requires Enabled(env, s, a)
    requires u in s.log.applyTime ==> u in s.log.used
    ensures UsedKept(s, Step(env, s, a, now).log, now, u)
  {
    if a.Apply? { UsedStaysApply(s, Recorded(env, s.proc.value.copy.status).value, a.effect, now, u); }
  }

  lemma OrderNext(env: Env, w: World, e: Event)
    requires WorldInv(env, w) && CanHappen(env, w, e)
    ensures DependencyOrder(Next(env, w, e))
  {
    var n := Next(env, w, e);
    forall k, u | k in n.slots && u in n.slots[k].log.applyTime && u in n.slots[k].log.used
      ensures UsedBeforeApply(n, n.slots[k].log, u)
    {
      OrderNextAt(env, w, e, k, u);
    }
  }

  lemma OrderNextAt(env: Env, w: World, e: Event, k: ObjectKey, u: nat)
    requires WorldInv(env, w) && CanHappen(env, w, e)
    requires var n := Next(env, w, e); k in n.slots && u in n.slots[k].log.applyTime && u in n.slots[k].log.used
    ensures var n := Next(env, w, e); UsedBeforeApply(n, n.slots[k].log, u)
  {
    var n, s := Next(env, w, e), SlotAt(w, k);
    SlotInvAt(env, w, k);
    if k == e.key { UsedStays(env, s, e.action, w.now, u); }
    var l := n.slots[k].log;
    forall r | r in l.used[u] ensures CreatedBefore(n, l.used[u][r], l.applyTime[u]) {
      var t := l.used[u][r];
      if u in s.log.applyTime {
        assert UsedBeforeApply(w, s.log, u);
        assert CreatedBefore(w, t, s.log.applyTime[u]);
      } else {
        assert IsCreated(w, t);
        SlotInvAt(env, w, t.key);
      }
      CreatedStays(env, w, e, t);
    }
  }

  lemma {:induction false} InvAfter(env: Env, run: seq<Event>)
    requires ValidEnv(env) && Legal(env, run)
    ensures WorldInv(env, After(env, run))
  {
    if run != [] {
      var before := run[..|run| - 1];
      InvAfter(env, before);
      SlotsInvNext(env, After(env, before), run[|run| - 1]);
      FoundNext(env, After(env, before), run[|run| - 1]);
      OrderNext(env, After(env, before), run[|run| - 1]);
    }
  }
}
