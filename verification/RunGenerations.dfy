/**
 Generations over whole runs: what status.lastAppliedGeneration says, and when it is the
 generation of the spec that was applied.
 */
module RunGenerations {
  import opened GoStrings
  import opened Slot
  import opened SlotInvariant
  import opened SlotLog
  import opened World
  import opened Runs

  // ---------------------------------------------------------------- never back, never ahead

  lemma SerialsGrow(env: Env, s: Slot, a: Action, now: nat)
    requires Enabled(env, s, a)
    ensures var t := Step(env, s, a, now);
            && s.serials <= t.serials
            && (t.stored.Some? ==>
                  if a.Create? then t.stored.value.serial == s.serials
                  else s.stored.Some? && t.stored.value.serial == s.stored.value.serial)
  {
  }

  predicate StoredIs(s: Slot, u: nat) {
    s.stored.Some? && s.stored.value.serial == u
  }

  /**
   From any point of a run to any later one, the object of one incarnation only goes forward:
   lastAppliedGeneration never decreases and never exceeds the generation, and the provider
   metadata stays as first written.
   */
  lemma {:induction false} ForwardOverRun(env: Env, run: seq<Event>, from: nat, k: ObjectKey, u: nat)
    requires ValidEnv(env) && Legal(env, run) && from <= |run| && Legal(env, run[..from])
    requires StoredIs(SlotAfter(env, run[..from], k), u)
    ensures SlotAfter(env, run[..from], k).serials <= SlotAfter(env, run, k).serials
    ensures StoredIs(SlotAfter(env, run, k), u) ==>
              && Forward(SlotAfter(env, run[..from], k).stored.value, SlotAfter(env, run, k).stored.value)
              && LastAppliedWithin(SlotAfter(env, run, k).stored.value)
    decreases |run|
  {
    InvAfter(env, run);
    SlotInvAt(env, After(env, run), k);
    if from == |run| {
      assert run[..from] == run;
    } else {
      var before, e := run[..|run| - 1], run[|run| - 1];
      var w, s := After(env, before), SlotAfter(env, before, k);
      assert before[..from] == run[..from];
      ForwardOverRun(env, before, from, k, u);
      InvAfter(env, run[..from]);
      SlotInvAt(env, After(env, run[..from]), k);
      if e.key == k {
        InvAfter(env, before);
        SlotInvAt(env, w, k);
        SerialsGrow(env, s, e.action, w.now);
        if StoredIs(SlotAfter(env, run, k), u) {
          ForwardStep(env, s, e.action, w.now);
        }
      }
    }
  }

  // ---------------------------------------------------------------- which generation is recorded

  predicate ChangesGeneration(e: Event, k: ObjectKey) {
    e.key == k && (e.action.Edit? || e.action.Delete?)
  }

  /** The edits and deletions of a name in a run from event `from` on. */
  function Changes(run: seq<Event>, from: nat, k: ObjectKey): nat
    requires from <= |run|
    decreases |run|
  {
    if from == |run| then 0
    else Changes(run[..|run| - 1], from, k) + if ChangesGeneration(run[|run| - 1], k) then 1 else 0
  }

  /**
   How the generation of the spec in use relates to the generation stored, and to the one that
   came back with the state save.
   */
  predicate Counted(run: seq<Event>, s: Slot, k: ObjectKey) {
    s.proc.Some? && !s.proc.value.deleting && Ours(s.proc.value.copy) ==>
      var p := s.proc.value;
      && p.readAt < |run|
      && (if p.pc.Saved? then
            p.readAt < p.savedAt <= |run|
            && p.copy.generation == p.specGeneration + Changes(run[..p.savedAt], p.readAt + 1, k)
          else
            s.stored.Some? && s.stored.value.generation == p.specGeneration + Changes(run, p.readAt + 1, k))
  }

  lemma CountedStep(env: Env, before: seq<Event>, s: Slot, e: Event)
    requires Enabled(env, s, e.action) && Bounded(s) && Held(s) && Counted(before, s, e.key)
    ensures Counted(before + [e], Step(env, s, e.action, |before|), e.key)
  {
    var run := before + [e];
    assert run[..|run| - 1] == before;
    if s.proc.Some? && s.proc.value.savedAt <= |before| {
      assert run[..s.proc.value.savedAt] == before[..s.proc.value.savedAt];
    }
    assert run[..|before|] == before;
    assert Changes(run, |run|, e.key) == 0;
  }

  lemma CountedElsewhere(before: seq<Event>, s: Slot, e: Event, k: ObjectKey)
    requires e.key != k && Counted(before, s, k)
    ensures Counted(before + [e], s, k)
  {
    var run := before + [e];
    assert run[..|run| - 1] == before;
    if s.proc.Some? && s.proc.value.savedAt <= |before| {
      assert run[..s.proc.value.savedAt] == before[..s.proc.value.savedAt];
    }
  }

  lemma HeldAfter(env: Env, run: seq<Event>, k: ObjectKey)
    requires ValidEnv(env) && Legal(env, run)
    ensures var s := SlotAfter(env, run, k); Bounded(s) && Held(s) && StatusInMemory(s)
  {
    InvAfter(env, run);
    SlotInvAt(env, After(env, run), k);
  }

  lemma {:induction false} CountedAfter(env: Env, run: seq<Event>, k: ObjectKey)
    requires ValidEnv(env) && Legal(env, run)
    ensures Counted(run, SlotAfter(env, run, k), k)
    decreases |run|
  {
    if run != [] {
      var before, e := run[..|run| - 1], run[|run| - 1];
      var s := SlotAfter(env, before, k);
      assert run == before + [e];
      CountedAfter(env, before, k);
      HeldAfter(env, before, k);
      if e.key == k {
        CountedStep(env, before, s, e);
      } else {
        CountedElsewhere(before, s, e, k);
      }
    }
  }

  /** No edit or deletion of the object among the events strictly between these two. */
  predicate Undisturbed(run: seq<Event>, from: nat, to: nat, k: ObjectKey)
    requires to <= |run|
  {
    forall i :: from < i < to ==> !ChangesGeneration(run[i], k)
  }

  /** lastAppliedGeneration after a status save at the end of this run. */
  function SavedGeneration(env: Env, run: seq<Event>, k: ObjectKey, r: Reply): Option<nat>
    requires Legal(env, run) && Enabled(env, SlotAfter(env, run, k), SaveStatus(r)) && !r.Rejected?
  {
    SaveStatusStep(env, SlotAfter(env, run, k), r, |run|).stored.value.status.lastApplied
  }

  /**
   A recorded generation is that of the applied spec plus the edits and deletions that landed
   between reading the spec and the reply to the state save; so it is the generation of the
   applied spec exactly when none landed.
   */
  predicate GenerationLaw(run: seq<Event>, p: Proc, recorded: Option<nat>, k: ObjectKey) {
    && p.readAt < p.savedAt <= |run|
    && recorded == Some(p.specGeneration + Changes(run[..p.savedAt], p.readAt + 1, k))
    && (recorded == Some(p.specGeneration) <==> Undisturbed(run, p.readAt, p.savedAt, k))
  }

  lemma RecordedGeneration(env: Env, run: seq<Event>, k: ObjectKey, r: Reply)
    requires ValidEnv(env) && Legal(env, run)
    requires Enabled(env, SlotAfter(env, run, k), SaveStatus(r)) && !r.Rejected?
    ensures GenerationLaw(run, SlotAfter(env, run, k).proc.value, SavedGeneration(env, run, k, r), k)
  {
    var s := SlotAfter(env, run, k);
    CountedAfter(env, run, k);
    HeldAfter(env, run, k);
    GenerationSaved(env, s, r, |run|);
    NoChangesBetween(run, s.proc.value.readAt, s.proc.value.savedAt, k);
  }

  lemma GenerationSaved(env: Env, s: Slot, r: Reply, now: nat)
    requires s.proc.Some? && s.proc.value.pc.Saved? && !s.proc.value.deleting && s.stored.Some? && !r.Rejected?
    requires Held(s) && StatusInMemory(s)
    ensures Ours(s.proc.value.copy)
    ensures SaveStatusStep(env, s, r, now).stored.value.status.lastApplied == Some(s.proc.value.copy.generation)
  {
  }

  lemma NoChangesBetween(run: seq<Event>, from: nat, to: nat, k: ObjectKey)
    requires from < to <= |run|
    ensures Changes(run[..to], from + 1, k) == 0 <==> Undisturbed(run, from, to, k)
  {
    NoChanges(run[..to], from + 1, k);
    assert forall i :: from < i < to ==> run[i] == run[..to][i];
  }

  lemma {:induction false} NoChanges(run: seq<Event>, from: nat, k: ObjectKey)
    requires from <= |run|
    ensures Changes(run, from, k) == 0 <==> forall i :: from <= i < |run| ==> !ChangesGeneration(run[i], k)
    decreases |run|
  {
    if from < |run| {
      var before := run[..|run| - 1];
      NoChanges(before, from, k);
      assert forall i :: from <= i < |before| ==> before[i] == run[i];
    }
  }
}
