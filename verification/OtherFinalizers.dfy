/**
 The finalizers of other controllers (reconcile.go:186-240).  A patch of the finalizers sends the
 whole list as it is in memory, so what others hold is what it was when the object was last read.
 */
module OtherFinalizers {
  import opened GoStrings
  import opened Slot
  import opened World
  import opened Runs
  import opened Orphans

  // ---------------------------------------------------------------- the list without ours

  /** Where in the list the finalizers of others are. */
  function Places(fs: seq<string>): (r: seq<nat>)
    ensures forall j :: 0 <= j < |r| ==> r[j] < |fs|
  {
    if fs == [] then []
    else Places(fs[..|fs| - 1]) + if fs[|fs| - 1] == FINALIZER then [] else [|fs| - 1]
  }

  function Picked(fs: seq<string>, places: seq<nat>): seq<string>
    requires forall j :: 0 <= j < |places| ==> places[j] < |fs|
  {
    seq(|places|, j requires 0 <= j < |places| => fs[places[j]])
  }

  /** In order, these are the places of all finalizers but ours. */
  predicate AreOthers(fs: seq<string>, places: seq<nat>) {
    && (forall j, k :: 0 <= j < k < |places| ==> places[j] < places[k])
    && (forall i :: 0 <= i < |fs| ==> (i in places <==> fs[i] != FINALIZER))
  }

  lemma {:induction false} PlacesAreOthers(fs: seq<string>)
    ensures AreOthers(fs, Places(fs))
  {
    if fs != [] { PlacesAreOthers(fs[..|fs| - 1]); }
  }

  lemma {:induction false} WithoutOfBoth(a: seq<string>, b: seq<string>)
    ensures Without(a + b) == Without(a) + Without(b)
  {
    if a == [] {
      assert a + b == b;
    } else {
      assert (a + b)[1..] == a[1..] + b;
      WithoutOfBoth(a[1..], b);
    }
  }

  /** Removing our finalizer keeps all others, as often as they are there and in their order. */
  lemma {:induction false} WithoutKeepsOthers(fs: seq<string>)
    ensures AreOthers(fs, Places(fs)) && Without(fs) == Picked(fs, Places(fs))
    ensures forall f :: multiset(Without(fs))[f] == if f == FINALIZER then 0 else multiset(fs)[f]
  {
    PlacesAreOthers(fs);
    if fs != [] {
      var start, last := fs[..|fs| - 1], fs[|fs| - 1];
      assert fs == start + [last];
      WithoutKeepsOthers(start);
      WithoutOfBoth(start, [last]);
      assert Without([last]) == if last == FINALIZER then [] else [last];
    }
  }

  /** What is not ours is all that is left when ours was not there. */
  lemma {:induction false} WithoutNothing(fs: seq<string>)
    requires FINALIZER !in fs
    ensures Without(fs) == fs
  {
    if fs != [] { WithoutNothing(fs[1..]); }
  }

  // ---------------------------------------------------------------- the two patches

  /** This step patches the list of finalizers. */
  predicate PatchesFinalizers(s: Slot, a: Action) {
    s.proc.Some? &&
    match a
    case EnsureFinalizer(r) => !r.Rejected? && !Ours(s.proc.value.copy)
    case RemoveFinalizer(r) => !r.Rejected? && Ours(s.proc.value.copy)
    case _ => false
  }

  /** After either patch the others' finalizers are those in memory, and ours is there once or not at all. */
  lemma PatchedAreInMemory(env: Env, s: Slot, a: Action, now: nat)
    requires Enabled(env, s, a) && PatchesFinalizers(s, a)
    ensures var t := Step(env, s, a, now);
            && t.stored.Some? && s.stored.Some?
            && Without(t.stored.value.finalizers) == Without(s.proc.value.copy.finalizers)
            && multiset(t.stored.value.finalizers)[FINALIZER] == if a.EnsureFinalizer? then 1 else 0
  {
    var fs := s.proc.value.copy.finalizers;
    WithoutOfBoth(fs, [FINALIZER]);
    assert Without([FINALIZER]) == [];
    WithoutKeepsOthers(fs);
    WithoutNothing(Without(fs));
  }

  /** No other step of a reconcile touches the list. */
  lemma OthersUntouched(env: Env, s: Slot, a: Action, now: nat)
    requires Enabled(env, s, a) && !PatchesFinalizers(s, a)
    requires !a.Create? && !a.SetFinalizers? && !a.Vanish? && s.stored.Some?
    ensures var t := Step(env, s, a, now);
            t.stored.Some? && t.stored.value.finalizers == s.stored.value.finalizers
  {
  }

  // ---------------------------------------------------------------- over runs

  /** When the object in memory was last read, or came back in the reply to a patch. */
  function LastRead(p: Proc): nat {
    if p.pc.Saved? then p.savedAt else p.readAt
  }

  /** Somebody else sets the finalizers of this object, or makes a new one. */
  predicate SetsFinalizers(e: Event, k: ObjectKey) {
    e.key == k && (e.action.SetFinalizers? || e.action.Create?)
  }

  /** Nobody else has set the finalizers since this event. */
  predicate LeftAlone(run: seq<Event>, from: nat, k: ObjectKey) {
    forall i :: from < i < |run| ==> !SetsFinalizers(run[i], k)
  }

  /** What is in memory is what was stored then, and its finalizers still are if they were left alone. */
  ghost predicate IsAsRead(env: Env, run: seq<Event>, k: ObjectKey)
    requires Legal(env, run)
  {
    var s := SlotAfter(env, run, k);
    s.proc.Some? ==>
      var p := s.proc.value;
      && LastRead(p) < |run|
      && SlotBefore(env, run, LastRead(p) + 1, k).stored == Some(p.copy)
      && (LeftAlone(run, LastRead(p), k) && s.stored.Some? ==> s.stored.value.finalizers == p.copy.finalizers)
  }

  lemma {:induction false} CopyIsAsRead(env: Env, run: seq<Event>, k: ObjectKey)
    requires Legal(env, run)
    ensures IsAsRead(env, run, k)
    decreases |run|
  {
    if run != [] {
      var before, e := run[..|run| - 1], run[|run| - 1];
      CopyIsAsRead(env, before, k);
      assert run[..|run|] == run;
      var s, t := SlotAfter(env, before, k), SlotAfter(env, run, k);
      if t.proc.Some? && LastRead(t.proc.value) != |before| {
        StillAsRead(env, run, k);
      }
    }
  }

  lemma StillAsRead(env: Env, run: seq<Event>, k: ObjectKey)
    requires Legal(env, run) && run != [] && Legal(env, run[..|run| - 1]) && IsAsRead(env, run[..|run| - 1], k)
    requires SlotAfter(env, run, k).proc.Some? && LastRead(SlotAfter(env, run, k).proc.value) != |run| - 1
    ensures IsAsRead(env, run, k)
  {
    var before, e := run[..|run| - 1], run[|run| - 1];
    var s, t := SlotAfter(env, before, k), SlotAfter(env, run, k);
    if e.key == k { SameCopy(env, s, e.action, |before|); }
    var from := LastRead(s.proc.value);
    BeforeInPrefix(env, run, from + 1, k);
    if LeftAlone(run, from, k) {
      assert forall i :: from < i < |before| ==> before[i] == run[i];
      assert !SetsFinalizers(run[|before|], k);
    }
  }

  /** A reconcile that goes on without having read again. */
  lemma SameCopy(env: Env, s: Slot, a: Action, now: nat)
    requires Enabled(env, s, a)
    requires var t := Step(env, s, a, now); t.proc.Some? && LastRead(t.proc.value) != now
    ensures var t := Step(env, s, a, now);
            && s.proc.Some? && t.proc.value.copy == s.proc.value.copy
            && LastRead(t.proc.value) == LastRead(s.proc.value) && !PatchesFinalizers(s, a)
  {
  }

  /** What the list of others' finalizers was when the reconcile in flight last read it. */
  ghost function OthersAtRead(env: Env, run: seq<Event>, k: ObjectKey): seq<string>
    requires Legal(env, run) && SlotAfter(env, run, k).proc.Some?
    requires var at := LastRead(SlotAfter(env, run, k).proc.value);
             at < |run| && SlotBefore(env, run, at + 1, k).stored.Some?
  {
    Without(SlotBefore(env, run, LastRead(SlotAfter(env, run, k).proc.value) + 1, k).stored.value.finalizers)
  }

  /**
   A patch of the finalizers keeps the others that are stored exactly if they are those that were
   stored at the last read; so it does if nobody has set them since.
   */
  lemma OthersKeptIff(env: Env, run: seq<Event>, e: Event)
    requires Legal(env, run) && CanHappen(env, After(env, run), e)
    requires PatchesFinalizers(SlotAfter(env, run, e.key), e.action)
    ensures var s, t := SlotAfter(env, run, e.key), SlotAt(Next(env, After(env, run), e), e.key);
            var at := LastRead(s.proc.value);
            && s.stored.Some? && t.stored.Some?
            && at < |run| && SlotBefore(env, run, at + 1, e.key).stored.Some?
            && Without(t.stored.value.finalizers) == OthersAtRead(env, run, e.key)
            && (Without(t.stored.value.finalizers) == Without(s.stored.value.finalizers) <==>
                OthersAtRead(env, run, e.key) == Without(s.stored.value.finalizers))
            && (LeftAlone(run, at, e.key) ==>
                Without(t.stored.value.finalizers) == Without(s.stored.value.finalizers))
  {
    CopyIsAsRead(env, run, e.key);
    assert IsAsRead(env, run, e.key);
    PatchedAreInMemory(env, SlotAfter(env, run, e.key), e.action, After(env, run).now);
  }

  // ---------------------------------------------------------------- a finalizer that is overwritten

  function Overwriting(spec: Spec, other: string): seq<Action> {
    [Create(spec, [])] + ([Start] + ([SetFinalizers([other])] + [EnsureFinalizer(Acked)]))
  }

  /**
   A finalizer that another controller adds between the read of an object and the patch that adds
   ours is gone after the patch.
   */
  lemma OtherIsOverwritten(env: Env, k: ObjectKey, spec: Spec, other: string)
    requires other != FINALIZER
    ensures var run := Events(k, Overwriting(spec, other));
            && Legal(env, run)
            && SlotAfter(env, run, k).stored.Some?
            && SlotAfter(env, run, k).stored.value.finalizers == ["tfoperatorbridge.local"]
  {
    var s1 := Step(env, EMPTY_SLOT, Create(spec, []), 0);
    var s2 := Step(env, s1, Start, 1);
    var s3 := Step(env, s2, SetFinalizers([other]), 2);
    var last: Action := EnsureFinalizer(Acked);
    assert [last] + [] == [last];
    assert [] + [FINALIZER] == [FINALIZER];
    RunOne(env, s3, last, [], 3);
    RunOne(env, s2, SetFinalizers([other]), [last], 2);
    RunOne(env, s1, Start, [SetFinalizers([other])] + [last], 1);
    RunOne(env, EMPTY_SLOT, Create(spec, []), [Start] + ([SetFinalizers([other])] + [last]), 0);
    RunsInWorld(env, [], k, Overwriting(spec, other));
    assert [] + Events(k, Overwriting(spec, other)) == Events(k, Overwriting(spec, other));
  }
}
