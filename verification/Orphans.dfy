/**
 The fault in the statement of orphan safety is needed: when the save of a state fails, the next
 reconcile works with the old recorded state, and a deletion then leaves the resource behind
 (reconcile.go:144-153, 217-240).
 */
module Orphans {
  import opened GoStrings
  import opened Slot
  import opened World
  import opened Runs
  import StateCodec

  /** Steps under one name, without references, from this slot on. */
  predicate CanRun(env: Env, s: Slot, actions: seq<Action>, now: nat)
    decreases |actions|
  {
    actions == [] ||
    (!actions[0].Find? && Enabled(env, s, actions[0]) &&
      CanRun(env, Step(env, s, actions[0], now), actions[1..], now + 1))
  }

  function RunAll(env: Env, s: Slot, actions: seq<Action>, now: nat): Slot
    requires CanRun(env, s, actions, now)
    decreases |actions|
  {
    if actions == [] then s else RunAll(env, Step(env, s, actions[0], now), actions[1..], now + 1)
  }

  function Events(k: ObjectKey, actions: seq<Action>): seq<Event> {
    seq(|actions|, i requires 0 <= i < |actions| => Event(k, actions[i]))
  }

  lemma {:induction false} RunsInWorld(env: Env, run: seq<Event>, k: ObjectKey, actions: seq<Action>)
    requires Legal(env, run) && CanRun(env, SlotAfter(env, run, k), actions, |run|)
    ensures Legal(env, run + Events(k, actions))
    ensures SlotAfter(env, run + Events(k, actions), k) == RunAll(env, SlotAfter(env, run, k), actions, |run|)
    decreases |actions|
  {
    if actions == [] {
      assert run + Events(k, actions) == run;
    } else {
      var e := Event(k, actions[0]);
      assert (run + [e])[..|run|] == run;
      RunsInWorld(env, run + [e], k, actions[1..]);
      assert run + [e] + Events(k, actions[1..]) == run + Events(k, actions);
    }
  }

  lemma RunOne(env: Env, s: Slot, a: Action, rest: seq<Action>, now: nat)
    requires !a.Find? && Enabled(env, s, a) && CanRun(env, Step(env, s, a, now), rest, now + 1)
    ensures CanRun(env, s, [a] + rest, now)
    ensures RunAll(env, s, [a] + rest, now) == RunAll(env, Step(env, s, a, now), rest, now + 1)
  {
    assert ([a] + rest)[1..] == rest;
  }

  // ---------------------------------------------------------------- a failed save, then a deletion

  /** Under a new name: the object as it is stored, and a reconcile of it that has come this far. */
  predicate At(s: Slot, o: Object, pc: Option<Pc>, cloud: set<Resource>) {
    && s.stored == Some(o) && s.cloud == cloud && s.made == |cloud|
    && (if pc.None? then s.proc.None?
        else
          && s.proc.Some? && s.proc.value.copy == o && s.proc.value.deleting == o.deleting
          && s.proc.value.pc == pc.value)
  }

  function New(spec: Spec): Object {
    Object(0, 1, false, [], spec, NO_STATUS)
  }

  const ORPHAN := Resource(0, 0)

  function Mapped(): Pc {
    Resolving({}, map[])
  }

  /** Apply makes a resource; the save of its state is rejected. */
  lemma SaveRejected(env: Env, s: Slot, o: Object, content: string, iv: StateCodec.Vector, now: nat)
    requires At(s, o, Some(Mapped()), {}) && o.serial == 0 && o.status == NO_STATUS && !o.deleting
    ensures CanRun(env, s, [Apply(Anew(content))] + [SaveState(iv, Rejected)], now)
    ensures At(RunAll(env, s, [Apply(Anew(content))] + [SaveState(iv, Rejected)], now), o, None, {ORPHAN})
  {
    var a, b := Apply(Anew(content)), SaveState(iv, Rejected);
    var t := Step(env, s, a, now);
    assert [b] + [] == [b];
    RunOne(env, t, b, [], now + 1);
    RunOne(env, s, a, [b], now);
  }

  /** The object is created, read and given the finalizer. */
  lemma Prepared(env: Env, spec: Spec, rest: seq<Action>)
    requires spec.references == {}
    requires forall s :: At(s, WithFinalizer(New(spec)), Some(Mapped()), {}) ==> CanRun(env, s, rest, 3)
    ensures CanRun(env, EMPTY_SLOT, [Create(spec, [])] + ([Start] + ([EnsureFinalizer(Acked)] + rest)), 0)
    ensures exists s :: At(s, WithFinalizer(New(spec)), Some(Mapped()), {}) &&
              RunAll(env, EMPTY_SLOT, [Create(spec, [])] + ([Start] + ([EnsureFinalizer(Acked)] + rest)), 0) ==
                RunAll(env, s, rest, 3)
  {
    var s1 := Step(env, EMPTY_SLOT, Create(spec, []), 0);
    assert At(s1, New(spec), None, {});
    var s2 := Step(env, s1, Start, 1);
    assert At(s2, New(spec), Some(Begin), {});
    var s3 := Step(env, s2, EnsureFinalizer(Acked), 2);
    assert At(s3, WithFinalizer(New(spec)), Some(Mapped()), {});
    RunOne(env, s2, EnsureFinalizer(Acked), rest, 2);
    RunOne(env, s1, Start, [EnsureFinalizer(Acked)] + rest, 1);
    RunOne(env, EMPTY_SLOT, Create(spec, []), [Start] + ([EnsureFinalizer(Acked)] + rest), 0);
  }

  /** The object is deleted, and the provider has nothing to destroy. */
  lemma DeletedWithout(env: Env, s: Slot, o: Object, rest: seq<Action>, now: nat)
    requires At(s, o, None, {ORPHAN}) && o.status == NO_STATUS && !o.deleting
    requires forall t :: At(t, Dying(o), Some(Applied(Null)), {ORPHAN}) ==> CanRun(env, t, rest, now + 3)
    ensures CanRun(env, s, [Delete] + ([Start] + ([Apply(Destroyed)] + rest)), now)
    ensures exists t :: At(t, Dying(o), Some(Applied(Null)), {ORPHAN}) &&
              RunAll(env, s, [Delete] + ([Start] + ([Apply(Destroyed)] + rest)), now) == RunAll(env, t, rest, now + 3)
  {
    var s1 := Step(env, s, Delete, now);
    assert At(s1, Dying(o), None, {ORPHAN});
    var s2 := Step(env, s1, Start, now + 1);
    assert At(s2, Dying(o), Some(Ready), {ORPHAN});
    var s3 := Step(env, s2, Apply(Destroyed), now + 2);
    assert At(s3, Dying(o), Some(Applied(Null)), {ORPHAN});
    RunOne(env, s2, Apply(Destroyed), rest, now + 2);
    RunOne(env, s1, Start, [Apply(Destroyed)] + rest, now + 1);
    RunOne(env, s, Delete, [Start] + ([Apply(Destroyed)] + rest), now);
  }

  function Dying(o: Object): Object {
    o.(deleting := true, generation := o.generation + 1)
  }

  function Released(iv: StateCodec.Vector): seq<Action> {
    [SaveState(iv, Acked)] + ([RemoveFinalizer(Acked)] + [Vanish])
  }

  lemma WithoutOurs(fs: seq<string>)
    requires fs == [FINALIZER]
    ensures Without(fs) == []
  {
  }

  /** The null state is saved, the finalizer goes, and so does the object. */
  lemma GoneWithout(env: Env, s: Slot, o: Object, iv: StateCodec.Vector, now: nat)
    requires At(s, o, Some(Applied(Null)), {ORPHAN}) && o.deleting && o.finalizers == [FINALIZER] &&
               o.status == NO_STATUS
    ensures CanRun(env, s, Released(iv), now)
    ensures RunAll(env, s, Released(iv), now).stored.None? && ORPHAN in RunAll(env, s, Released(iv), now).cloud
  {
    var saved := WithState(env, iv, o, Null);
    var s1 := Step(env, s, SaveState(iv, Acked), now);
    assert At(s1, saved, Some(Saved(Null)), {ORPHAN});
    WithoutOurs(saved.finalizers);
    var s2 := Step(env, s1, RemoveFinalizer(Acked), now + 1);
    assert At(s2, saved.(finalizers := []), None, {ORPHAN});
    assert [Vanish] + [] == [Vanish];
    RunOne(env, s2, Vanish, [], now + 2);
    RunOne(env, s1, RemoveFinalizer(Acked), [Vanish], now + 1);
    RunOne(env, s, SaveState(iv, Acked), [RemoveFinalizer(Acked)] + [Vanish], now);
  }

  // ---------------------------------------------------------------- the run

  function Deletion(iv: StateCodec.Vector): seq<Action> {
    [Delete] + ([Start] + ([Apply(Destroyed)] + Released(iv)))
  }

  lemma DeletionLeaves(env: Env, s: Slot, o: Object, iv: StateCodec.Vector, now: nat)
    requires At(s, o, None, {ORPHAN}) && o.status == NO_STATUS && !o.deleting && o.finalizers == [FINALIZER]
    ensures CanRun(env, s, Deletion(iv), now)
    ensures RunAll(env, s, Deletion(iv), now).stored.None? && ORPHAN in RunAll(env, s, Deletion(iv), now).cloud
  {
    forall t | At(t, Dying(o), Some(Applied(Null)), {ORPHAN})
      ensures CanRun(env, t, Released(iv), now + 3)
      ensures RunAll(env, t, Released(iv), now + 3).stored.None? &&
                ORPHAN in RunAll(env, t, Released(iv), now + 3).cloud
    {
      GoneWithout(env, t, Dying(o), iv, now + 3);
    }
    DeletedWithout(env, s, o, Released(iv), now);
  }

  function Creation(spec: Spec, content: string, iv: StateCodec.Vector): seq<Action> {
    [Create(spec, [])] + ([Start] + ([EnsureFinalizer(Acked)] + ([Apply(Anew(content))] + [SaveState(iv, Rejected)])))
  }

  lemma CreationForgets(env: Env, spec: Spec, content: string, iv: StateCodec.Vector)
    requires spec.references == {}
    ensures CanRun(env, EMPTY_SLOT, Creation(spec, content, iv), 0)
    ensures At(RunAll(env, EMPTY_SLOT, Creation(spec, content, iv), 0), WithFinalizer(New(spec)), None, {ORPHAN})
  {
    var o, rest := WithFinalizer(New(spec)), [Apply(Anew(content))] + [SaveState(iv, Rejected)];
    forall s | At(s, o, Some(Mapped()), {})
      ensures CanRun(env, s, rest, 3) && At(RunAll(env, s, rest, 3), o, None, {ORPHAN})
    {
      SaveRejected(env, s, o, content, iv, 3);
    }
    Prepared(env, spec, rest);
  }

  /**
   For every configuration, name and spec without references there is a run that ends with a live
   resource and no object: its one fault is that the save of the state is rejected.
   */
  lemma OrphanAfterFailedSave(env: Env, k: ObjectKey, spec: Spec, content: string, iv: StateCodec.Vector)
    requires spec.references == {}
    ensures var run := Events(k, Creation(spec, content, iv)) + Events(k, Deletion(iv));
            && Legal(env, run)
            && ORPHAN in SlotAfter(env, run, k).cloud && SlotAfter(env, run, k).stored.None?
  {
    CreationForgets(env, spec, content, iv);
    RunsInWorld(env, [], k, Creation(spec, content, iv));
    var run := Events(k, Creation(spec, content, iv));
    assert [] + run == run;
    DeletionLeaves(env, SlotAfter(env, run, k), WithFinalizer(New(spec)), iv, |run|);
    RunsInWorld(env, run, k, Deletion(iv));
  }
}
