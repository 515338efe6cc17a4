/**
 Rounds can be run: from any point of any run at which no reconcile is in flight and no object is
 being deleted, the controller can reconcile every object without a fault, one after the other.
 So objects without cyclic references can always be brought to "Created".
 */
module OrderlyRounds {
  import opened Slot
  import opened World
  import opened Runs
  import opened Convergence
  import StateCodec

  /** A run that is legal, and orderly from this event on. */
  ghost predicate Stretch(env: Env, run: seq<Event>, from: nat) {
    && ValidEnv(env) && Legal(env, run) && from <= |run| && Legal(env, run[..from])
    && OrderlyFrom(env, run, from)
  }

  /** A longer stretch in which nothing has happened under other names. */
  ghost predicate Continues(env: Env, run: seq<Event>, from: nat, k: ObjectKey, longer: seq<Event>) {
    && Stretch(env, run, from) && Stretch(env, longer, from) && run <= longer
    && forall m :: m != k ==> SlotAfter(env, longer, m) == SlotAfter(env, run, m)
  }

  lemma OneMore(env: Env, run: seq<Event>, from: nat, e: Event)
    requires Stretch(env, run, from) && CanHappen(env, After(env, run), e) && Orderly(After(env, run), e)
    ensures Continues(env, run, from, e.key, run + [e])
    ensures SlotAfter(env, run + [e], e.key) == Step(env, SlotAfter(env, run, e.key), e.action, |run|)
  {
    var longer := run + [e];
    assert longer[..|run|] == run && longer[..from] == run[..from];
    forall i | from <= i < |longer| && Legal(env, longer[..i]) ensures Orderly(After(env, longer[..i]), longer[i]) {
      if i < |run| { assert longer[..i] == run[..i]; }
    }
  }

  lemma Transitive(env: Env, a: seq<Event>, from: nat, k: ObjectKey, b: seq<Event>, c: seq<Event>)
    requires Continues(env, a, from, k, b) && Continues(env, b, from, k, c)
    ensures Continues(env, a, from, k, c)
  {
  }

  // ---------------------------------------------------------------- one reconcile

  /** A reconcile of an object that is stored and not being deleted has come this far. */
  ghost predicate At(env: Env, run: seq<Event>, k: ObjectKey)
    requires Legal(env, run)
  {
    var s := SlotAfter(env, run, k);
    s.stored.Some? && !s.stored.value.deleting && s.proc.Some? && !s.proc.value.deleting
  }

  lemma Begins(env: Env, run: seq<Event>, from: nat, k: ObjectKey) returns (longer: seq<Event>)
    requires Stretch(env, run, from)
    requires var s := SlotAfter(env, run, k); s.stored.Some? && !s.stored.value.deleting && s.proc.None?
    ensures Continues(env, run, from, k, longer) && |longer| > |run| && longer[|run|] == Event(k, Start)
    ensures At(env, longer, k) && SlotAfter(env, longer, k).proc.value.pc.Resolving?
  {
    var a := run + [Event(k, Start)];
    OneMore(env, run, from, Event(k, Start));
    longer := a + [Event(k, EnsureFinalizer(Acked))];
    OneMore(env, a, from, Event(k, EnsureFinalizer(Acked)));
    Transitive(env, run, from, k, a, longer);
  }

  /** Every reference is found, or the reconcile gives up on one that cannot be. */
  lemma {:induction false} Looks(env: Env, run: seq<Event>, from: nat, k: ObjectKey) returns (longer: seq<Event>)
    requires Stretch(env, run, from) && At(env, run, k) && SlotAfter(env, run, k).proc.value.pc.Resolving?
    ensures Continues(env, run, from, k, longer)
    ensures SlotAfter(env, longer, k).proc.None? ||
            (At(env, longer, k) && SlotAfter(env, longer, k).proc.value.pc.Resolving?
             && SlotAfter(env, longer, k).proc.value.pc.pending == {})
    decreases |SlotAfter(env, run, k).proc.value.pc.pending|
  {
    var pending := SlotAfter(env, run, k).proc.value.pc.pending;
    if pending == {} { return run; }
    var r :| r in pending;
    if CanFind(After(env, run), r) {
      var e := Event(k, Find(r, Target(r.key, SlotAfter(env, run, r.key).stored.value.serial)));
      OneMore(env, run, from, e);
      longer := Looks(env, run + [e], from, k);
      Transitive(env, run, from, k, run + [e], longer);
    } else {
      longer := run + [Event(k, GiveUp)];
      OneMore(env, run, from, Event(k, GiveUp));
    }
  }

  lemma Applies(env: Env, run: seq<Event>, from: nat, k: ObjectKey) returns (longer: seq<Event>)
    requires Stretch(env, run, from) && At(env, run, k) && SlotAfter(env, run, k).proc.value.pc.Resolving?
    requires SlotAfter(env, run, k).proc.value.pc.pending == {}
    ensures Continues(env, run, from, k, longer)
    ensures At(env, longer, k) && SlotAfter(env, longer, k).proc.value.pc.Applied?
  {
    InvAfter(env, run);
    SlotInvAt(env, After(env, run), k);
    longer := run + [Event(k, Apply(Anew("")))];
    OneMore(env, run, from, Event(k, Apply(Anew(""))));
  }

  lemma Saves(env: Env, run: seq<Event>, from: nat, k: ObjectKey) returns (longer: seq<Event>)
    requires Stretch(env, run, from) && At(env, run, k) && SlotAfter(env, run, k).proc.value.pc.Applied?
    ensures Continues(env, run, from, k, longer) && SlotAfter(env, longer, k).proc.None?
  {
    var iv: StateCodec.Vector := "aaaaaaaaaaaaaaaa";
    var a := run + [Event(k, SaveState(iv, Acked))];
    OneMore(env, run, from, Event(k, SaveState(iv, Acked)));
    longer := a + [Event(k, SaveStatus(Acked))];
    OneMore(env, a, from, Event(k, SaveStatus(Acked)));
    Transitive(env, run, from, k, a, longer);
  }

  /** A reconcile without a fault, from its start to its end. */
  lemma Reconciles(env: Env, run: seq<Event>, from: nat, k: ObjectKey) returns (longer: seq<Event>)
    requires Stretch(env, run, from)
    requires var s := SlotAfter(env, run, k); s.stored.Some? && !s.stored.value.deleting && s.proc.None?
    ensures Continues(env, run, from, k, longer) && SlotAfter(env, longer, k).proc.None?
    ensures |longer| > |run| && longer[|run|] == Event(k, Start)
  {
    var a := Begins(env, run, from, k);
    longer := Looks(env, a, from, k);
    Transitive(env, run, from, k, a, longer);
    if SlotAfter(env, longer, k).proc.Some? {
      var b := Applies(env, longer, from, k);
      Transitive(env, run, from, k, longer, b);
      longer := Saves(env, b, from, k);
      Transitive(env, run, from, k, b, longer);
    }
  }

  // ---------------------------------------------------------------- a round

  ghost predicate NoneInFlight(env: Env, run: seq<Event>)
    requires Legal(env, run)
  {
    forall k :: SlotAfter(env, run, k).proc.None?
  }

  ghost predicate AllAlive(env: Env, run: seq<Event>, names: set<ObjectKey>)
    requires Legal(env, run)
  {
    forall k :: k in names ==> SlotAfter(env, run, k).stored.Some? && !SlotAfter(env, run, k).stored.value.deleting
  }

  lemma StartedLater(run: seq<Event>, longer: seq<Event>, from: nat, k: ObjectKey)
    requires run <= longer && Started(run, from, k)
    ensures Started(longer, from, k)
  {
    var i :| from <= i < |run| && run[i] == Event(k, Action.Start);
    assert longer[i] == Event(k, Action.Start);
  }

  /** The reconcile of one object leaves the others as they are. */
  lemma AliveLater(env: Env, run: seq<Event>, from: nat, k: ObjectKey, longer: seq<Event>, names: set<ObjectKey>)
    requires Continues(env, run, from, k, longer) && NoneInFlight(env, run) && SlotAfter(env, longer, k).proc.None?
    requires AllAlive(env, run, names) && k !in names
    ensures NoneInFlight(env, longer) && AllAlive(env, longer, names)
  {
  }

  /** The objects of these names are reconciled, one after the other. */
  lemma {:induction false} RoundOver(
    env: Env, run: seq<Event>, from: nat, names: set<ObjectKey>) returns (longer: seq<Event>)
    requires Stretch(env, run, from) && NoneInFlight(env, run) && AllAlive(env, run, names)
    ensures Stretch(env, longer, from) && run <= longer && NoneInFlight(env, longer)
    ensures forall k :: k in names ==> Started(longer, from, k)
    decreases |names|
  {
    if names == {} { return run; }
    var k :| k in names;
    var a := Reconciles(env, run, from, k);
    AliveLater(env, run, from, k, a, names - {k});
    longer := RoundOver(env, a, from, names - {k});
    assert a[|run|] == Event(k, Action.Start);
    StartedLater(a, longer, from, k);
  }

  /** A round can always be run. */
  lemma RoundExists(env: Env, run: seq<Event>) returns (longer: seq<Event>)
    requires ValidEnv(env) && Legal(env, run) && NoneInFlight(env, run)
    requires forall k :: SlotAfter(env, run, k).stored.Some? ==> !SlotAfter(env, run, k).stored.value.deleting
    ensures run <= longer && Legal(env, longer) && longer[..|run|] == run
    ensures Round(env, longer, |run|) && NoneInFlight(env, longer)
  {
    assert run[..|run|] == run;
    var w := After(env, run);
    var names := set k | k in w.slots && w.slots[k].stored.Some?;
    longer := RoundOver(env, run, |run|, names);
    assert longer[..|run|] == run;
  }

  /**
   Objects whose references have no cycle can be brought to "Created", up to any depth, by so many
   rounds; with no cycle in a finite cluster, that is all of them.
   */
  lemma {:induction false} CanConverge(
    env: Env, run: seq<Event>, rank: ObjectKey -> nat, depth: nat) returns (longer: seq<Event>)
    requires ValidEnv(env) && Legal(env, run) && NoneInFlight(env, run) && Layered(env, After(env, run), rank)
    ensures run <= longer && Legal(env, longer) && NoneInFlight(env, longer)
    ensures Layered(env, After(env, longer), rank) && CreatedBelow(After(env, longer), rank, depth)
    decreases depth
  {
    if depth == 0 { return run; }
    var a := CanConverge(env, run, rank, depth - 1);
    longer := RoundExists(env, a);
    RoundCreates(env, longer, |a|, rank, depth - 1);
  }
}
