/**
 Convergence: when references do not form a cycle and nothing fails, each round of reconciles
 brings the objects one reference deeper to "Created".  Within a round the reconciles may be
 interleaved in any way.
 */
module Convergence {
  import opened GoStrings
  import opened Slot
  import opened SlotInvariant
  import opened SlotLog
  import opened World
  import opened Runs

  predicate CanFind(w: World, r: Reference) {
    SlotAt(w, r.key).stored.Some? && Resolves(SlotAt(w, r.key).stored.value, r.property)
  }

  /** A controller step without a fault; a reconcile gives up only on a reference it cannot find. */
  predicate Orderly(w: World, e: Event) {
    match e.action
    case Start => true
    case EnsureFinalizer(r) => r.Acked?
    case Find(_, _) => true
    case GiveUp =>
      var s := SlotAt(w, e.key);
      s.proc.Some? && s.proc.value.pc.Resolving? && exists r :: r in s.proc.value.pc.pending && !CanFind(w, r)
    case Apply(effect) => !effect.Failed? && !effect.Halfway?
    case SaveState(_, r) => r.Acked?
    case SaveStatus(r) => r.Acked?
    case _ => false
  }

  predicate Created(s: Slot) {
    s.stored.Some? && s.stored.value.status.provisioningState == Some(CREATED)
  }

  /** What an orderly step leaves alone: the object, its spec, and that it is "Created". */
  predicate SameObject(s: Slot, t: Slot) {
    s.stored.Some? ==>
      && t.stored.Some?
      && t.stored.value.spec == s.stored.value.spec && t.stored.value.deleting == s.stored.value.deleting
      && (Created(s) ==> Created(t))
  }

  lemma OrderlyKeeps(env: Env, w: World, e: Event)
    requires CanHappen(env, w, e) && Orderly(w, e)
    ensures SameObject(SlotAt(w, e.key), SlotAt(Next(env, w, e), e.key))
  {
  }

  /** The reconcile in flight works on the stored spec of an object that is not being deleted. */
  predicate OnTrack(s: Slot) {
    && s.stored.Some? && !s.stored.value.deleting
    && (s.proc.Some? ==> !s.proc.value.deleting && s.proc.value.copy.spec == s.stored.value.spec)
  }

  lemma OnTrackNext(env: Env, w: World, e: Event)
    requires CanHappen(env, w, e) && Orderly(w, e) && OnTrack(SlotAt(w, e.key))
    ensures OnTrack(SlotAt(Next(env, w, e), e.key))
  {
  }

  predicate AllFound(w: World, spec: Spec) {
    forall r :: r in spec.references ==> CanFind(w, r)
  }

  /** With all its references to be found, an orderly reconcile ends with the object "Created". */
  lemma EndsCreated(env: Env, w: World, e: Event)
    requires CanHappen(env, w, e) && Orderly(w, e)
    requires var s := SlotAt(w, e.key);
             && OnTrack(s) && Held(s) && Phases(s) && StatusInMemory(s) && LookupsInFlight(s) &&
                AllFound(w, s.stored.value.spec)
             && s.proc.Some? && SlotAt(Next(env, w, e), e.key).proc.None?
    ensures Created(SlotAt(Next(env, w, e), e.key))
  {
  }

  // ---------------------------------------------------------------- stretches of a run

  /** Every event from `from` on is orderly. */
  ghost predicate OrderlyFrom(env: Env, run: seq<Event>, from: nat)
    requires Legal(env, run)
  {
    forall i :: from <= i < |run| && Legal(env, run[..i]) ==> Orderly(After(env, run[..i]), run[i])
  }

  lemma OrderlyPrefix(env: Env, run: seq<Event>, from: nat)
    requires Legal(env, run) && OrderlyFrom(env, run, from) && from < |run|
    ensures var before := run[..|run| - 1];
            Legal(env, before) && OrderlyFrom(env, before, from) && Orderly(After(env, before), run[|run| - 1])
  {
    var before := run[..|run| - 1];
    forall i | from <= i < |before| && Legal(env, before[..i]) ensures Orderly(After(env, before[..i]), before[i]) {
      assert before[..i] == run[..i];
    }
    assert run[..|run| - 1] == before;
  }

  /** Over an orderly stretch, objects and specs stay and "Created" stays. */
  lemma {:induction false} StretchKeeps(env: Env, run: seq<Event>, from: nat, k: ObjectKey)
    requires Legal(env, run) && from <= |run| && Legal(env, run[..from]) && OrderlyFrom(env, run, from)
    ensures SameObject(SlotAfter(env, run[..from], k), SlotAfter(env, run, k))
    decreases |run|
  {
    if from == |run| {
      assert run[..from] == run;
    } else {
      var before, e := run[..|run| - 1], run[|run| - 1];
      OrderlyPrefix(env, run, from);
      assert before[..from] == run[..from];
      StretchKeeps(env, before, from, k);
      if e.key == k { OrderlyKeeps(env, After(env, before), e); }
    }
  }

  /** A string of the spec, or one that the status has once the object is "Created". */
  ghost predicate Offers(env: Env, o: Object, property: string) {
    property in o.spec.strings || AlwaysReported(env, property)
  }

  /** The references of this spec lead to "Created" objects that offer the property. */
  ghost predicate Ready(env: Env, w: World, spec: Spec) {
    forall r :: r in spec.references ==>
      Created(SlotAt(w, r.key)) && Offers(env, SlotAt(w, r.key).stored.value, r.property)
  }

  lemma StretchReady(env: Env, run: seq<Event>, from: nat, spec: Spec)
    requires ValidEnv(env) && Legal(env, run) && from <= |run| && Legal(env, run[..from]) && OrderlyFrom(env, run, from)
    requires Ready(env, After(env, run[..from]), spec)
    ensures AllFound(After(env, run), spec)
  {
    InvAfter(env, run);
    forall r | r in spec.references ensures CanFind(After(env, run), r) {
      StretchKeeps(env, run, from, r.key);
      SlotInvAt(env, After(env, run), r.key);
    }
  }

  predicate Started(run: seq<Event>, from: nat, k: ObjectKey) {
    exists i :: from <= i < |run| && run[i] == Event(k, Action.Start)
  }

  /** Once it has been started in the stretch and its reconcile is over, it is "Created". */
  predicate DoneIsCreated(run: seq<Event>, from: nat, k: ObjectKey, s: Slot) {
    OnTrack(s) && (Started(run, from, k) && s.proc.None? ==> Created(s))
  }

  lemma StartedBefore(before: seq<Event>, e: Event, from: nat, k: ObjectKey)
    requires from <= |before| && Started(before + [e], from, k)
    ensures Started(before, from, k) || e == Event(k, Action.Start)
  {
    var run := before + [e];
    var i :| from <= i < |run| && run[i] == Event(k, Action.Start);
    if i < |before| {
      assert before[i] == run[i];
    }
  }

  /** What one orderly event under this name does to its slot. */
  predicate Advances(s: Slot, t: Slot, a: Action) {
    && OnTrack(t) && (Created(s) ==> Created(t))
    && (s.proc.Some? && t.proc.None? ==> Created(t))
    && (a.Start? ==> t.proc.Some?)
  }

  lemma DoneNext(before: seq<Event>, from: nat, e: Event, s: Slot, t: Slot)
    requires from <= |before| && DoneIsCreated(before, from, e.key, s) && Advances(s, t, e.action)
    ensures DoneIsCreated(before + [e], from, e.key, t)
  {
    if Started(before + [e], from, e.key) { StartedBefore(before, e, from, e.key); }
  }

  lemma DoneElsewhere(before: seq<Event>, from: nat, e: Event, k: ObjectKey, s: Slot)
    requires from <= |before| && DoneIsCreated(before, from, k, s) && e.key != k
    ensures DoneIsCreated(before + [e], from, k, s)
  {
    if Started(before + [e], from, k) { StartedBefore(before, e, from, k); }
  }

  /** An object whose references are ready is "Created" by its reconcile in an orderly stretch. */
  lemma {:induction false} StretchCreates(env: Env, run: seq<Event>, from: nat, k: ObjectKey)
    requires ValidEnv(env) && Legal(env, run) && from <= |run| && Legal(env, run[..from]) && OrderlyFrom(env, run, from)
    requires var s := SlotAfter(env, run[..from], k);
             OnTrack(s) && Ready(env, After(env, run[..from]), s.stored.value.spec)
    ensures DoneIsCreated(run, from, k, SlotAfter(env, run, k))
    decreases |run|
  {
    if from == |run| {
      assert run[..from] == run;
    } else {
      var before, e := run[..|run| - 1], run[|run| - 1];
      OrderlyPrefix(env, run, from);
      assert before[..from] == run[..from] && run == before + [e];
      StretchCreates(env, before, from, k);
      if e.key == k {
        StretchStep(env, before, from, e);
        DoneNext(before, from, e, SlotAfter(env, before, k), SlotAfter(env, run, k));
      } else {
        DoneElsewhere(before, from, e, k, SlotAfter(env, before, k));
      }
    }
  }

  lemma StretchStep(env: Env, before: seq<Event>, from: nat, e: Event)
    requires ValidEnv(env) && Legal(env, before) && from <= |before| && Legal(env, before[..from]) &&
               OrderlyFrom(env, before, from)
    requires var s := SlotAfter(env, before[..from], e.key);
             OnTrack(s) && Ready(env, After(env, before[..from]), s.stored.value.spec)
    requires CanHappen(env, After(env, before), e) && Orderly(After(env, before), e)
    requires OnTrack(SlotAfter(env, before, e.key))
    ensures var s := SlotAfter(env, before, e.key);
            var t := SlotAt(Next(env, After(env, before), e), e.key);
            Advances(s, t, e.action)
  {
    OnTrackNext(env, After(env, before), e);
    OrderlyKeeps(env, After(env, before), e);
    var s := SlotAfter(env, before, e.key);
    StretchKeeps(env, before, from, e.key);
    StretchReady(env, before, from, s.stored.value.spec);
    InvAfter(env, before);
    SlotInvAt(env, After(env, before), e.key);
    if s.proc.Some? && SlotAt(Next(env, After(env, before), e), e.key).proc.None? {
      EndsCreated(env, After(env, before), e);
    }
  }

  // ---------------------------------------------------------------- rounds

  /**
   A round: an orderly stretch with no reconcile in flight at either end, in which every stored
   object is reconciled.
   */
  ghost predicate Round(env: Env, run: seq<Event>, from: nat)
    requires Legal(env, run) && from <= |run| && Legal(env, run[..from])
  {
    && OrderlyFrom(env, run, from)
    && (forall k :: SlotAfter(env, run[..from], k).proc.None? && SlotAfter(env, run, k).proc.None?)
    && (forall k :: SlotAfter(env, run[..from], k).stored.Some? ==> Started(run, from, k))
  }

  /** Consecutive rounds, ending at these places of the run. */
  ghost predicate Rounds(env: Env, run: seq<Event>, from: nat, ends: seq<nat>)
    requires Legal(env, run)
    decreases |ends|
  {
    from <= |run| && Legal(env, run[..from]) &&
    if ends == [] then from == |run|
    else
      && from <= ends[0] <= |run| && Legal(env, run[..ends[0]])
      && run[..ends[0]][..from] == run[..from]
      && Round(env, run[..ends[0]], from)
      && Rounds(env, run, ends[0], ends[1..])
  }

  /**
   No object is being deleted, every reference is to a string that a stored object offers, and the
   ranks of referenced objects are smaller: no cycle.
   */
  ghost predicate Layered(env: Env, w: World, rank: ObjectKey -> nat) {
    forall k :: SlotAt(w, k).stored.Some? ==>
      var o := SlotAt(w, k).stored.value;
      !o.deleting && forall r :: r in o.spec.references ==>
        rank(r.key) < rank(k) && SlotAt(w, r.key).stored.Some?
        && Offers(env, SlotAt(w, r.key).stored.value, r.property)
  }

  ghost predicate CreatedBelow(w: World, rank: ObjectKey -> nat, depth: nat) {
    forall k :: SlotAt(w, k).stored.Some? && rank(k) < depth ==> Created(SlotAt(w, k))
  }

  lemma LayeredStays(env: Env, run: seq<Event>, from: nat, rank: ObjectKey -> nat)
    requires Legal(env, run) && from <= |run| && Legal(env, run[..from]) && OrderlyFrom(env, run, from)
    requires Layered(env, After(env, run[..from]), rank)
    requires forall k :: SlotAfter(env, run, k).stored.Some? ==> SlotAfter(env, run[..from], k).stored.Some?
    ensures Layered(env, After(env, run), rank)
  {
    var v, w := After(env, run[..from]), After(env, run);
    forall k | SlotAt(w, k).stored.Some?
      ensures !SlotAt(w, k).stored.value.deleting
      ensures forall r :: r in SlotAt(w, k).stored.value.spec.references ==>
                rank(r.key) < rank(k) && SlotAt(w, r.key).stored.Some?
                && Offers(env, SlotAt(w, r.key).stored.value, r.property)
    {
      StretchKeeps(env, run, from, k);
      forall r | r in SlotAt(w, k).stored.value.spec.references
        ensures rank(r.key) < rank(k) && SlotAt(w, r.key).stored.Some?
                && Offers(env, SlotAt(w, r.key).stored.value, r.property)
      {
        StretchKeeps(env, run, from, r.key);
      }
    }
  }

  lemma {:induction false} NothingNew(env: Env, run: seq<Event>, from: nat, k: ObjectKey)
    requires Legal(env, run) && from <= |run| && Legal(env, run[..from]) && OrderlyFrom(env, run, from)
    requires SlotAfter(env, run, k).stored.Some?
    ensures SlotAfter(env, run[..from], k).stored.Some?
    decreases |run|
  {
    if from == |run| {
      assert run[..from] == run;
    } else {
      var before, e := run[..|run| - 1], run[|run| - 1];
      OrderlyPrefix(env, run, from);
      assert before[..from] == run[..from];
      if e.key == k { SpecUntouched(env, SlotAfter(env, before, k), e.action, After(env, before).now); }
      NothingNew(env, before, from, k);
    }
  }

  /** One round brings the next layer to "Created". */
  lemma RoundCreates(env: Env, run: seq<Event>, from: nat, rank: ObjectKey -> nat, depth: nat)
    requires ValidEnv(env) && Legal(env, run) && from <= |run| && Legal(env, run[..from]) && Round(env, run, from)
    requires Layered(env, After(env, run[..from]), rank) && CreatedBelow(After(env, run[..from]), rank, depth)
    ensures Layered(env, After(env, run), rank) && CreatedBelow(After(env, run), rank, depth + 1)
  {
    forall k | SlotAfter(env, run, k).stored.Some? ensures SlotAfter(env, run[..from], k).stored.Some? {
      NothingNew(env, run, from, k);
    }
    LayeredStays(env, run, from, rank);
    forall k | SlotAfter(env, run, k).stored.Some? && rank(k) < depth + 1 ensures Created(SlotAfter(env, run, k)) {
      var s := SlotAfter(env, run[..from], k);
      assert s.stored.Some? && Ready(env, After(env, run[..from]), s.stored.value.spec);
      StretchCreates(env, run, from, k);
    }
  }

  /** After d + 1 rounds every object of reference depth at most d is "Created". */
  lemma {:induction false} Convergence(
    env: Env, run: seq<Event>, from: nat, ends: seq<nat>, rank: ObjectKey -> nat, depth: nat)
    requires ValidEnv(env) && Legal(env, run) && Rounds(env, run, from, ends)
    requires Layered(env, After(env, run[..from]), rank) && CreatedBelow(After(env, run[..from]), rank, depth)
    ensures CreatedBelow(After(env, run), rank, depth + |ends|)
    decreases |ends|
  {
    if ends == [] {
      assert run[..from] == run;
    } else {
      RoundCreates(env, run[..ends[0]], from, rank, depth);
      Convergence(env, run, ends[0], ends[1..], rank, depth + 1);
    }
  }
}
