/**
 What every run guarantees, whatever users do, whichever patches fail and wherever the
 controller stops.
 */
module Runs {
  import opened GoStrings
  import opened Slot
  import opened SlotInvariant
  import opened SlotLosses
  import opened SlotLog
  import opened SlotStates
  import opened World

  // ---------------------------------------------------------------- the events of a run

  /** The slot of a name after a run. */
  function SlotAfter(env: Env, run: seq<Event>, k: ObjectKey): Slot
    requires Legal(env, run)
  {
    SlotAt(After(env, run), k)
  }

  lemma {:induction false} PrefixLegal(env: Env, run: seq<Event>, i: nat)
    requires Legal(env, run) && i <= |run|
    ensures Legal(env, run[..i])
    decreases |run|
  {
    if i < |run| {
      PrefixLegal(env, run[..|run| - 1], i);
      assert run[..|run| - 1][..i] == run[..i];
    } else {
      assert run[..i] == run;
    }
  }

  /** The slot of a name before the i-th event of a run. */
  ghost function SlotBefore(env: Env, run: seq<Event>, i: nat, k: ObjectKey): Slot
    requires Legal(env, run) && i <= |run|
  {
    PrefixLegal(env, run, i);
    SlotAfter(env, run[..i], k)
  }

  lemma BeforeInPrefix(env: Env, run: seq<Event>, i: nat, k: ObjectKey)
    requires Legal(env, run) && i < |run|
    ensures Legal(env, run[..|run| - 1]) && SlotBefore(env, run[..|run| - 1], i, k) == SlotBefore(env, run, i, k)
  {
    PrefixLegal(env, run, |run| - 1);
    assert run[..|run| - 1][..i] == run[..i];
  }

  // ---------------------------------------------------------------- orphan safety

  /** The object the resource was made for is stored, holds the finalizer and accounts for it. */
  predicate Kept(env: Env, s: Slot, r: Resource) {
    s.stored.Some? && s.stored.value.serial == r.serial && Ours(s.stored.value) && r in Accounted(env, s)
  }

  /** The event at this place in the run loses this resource. */
  ghost predicate LosesAt(env: Env, run: seq<Event>, i: nat, k: ObjectKey, r: Resource)
    requires Legal(env, run)
  {
    i < |run| && run[i].key == k && Loses(env, SlotBefore(env, run, i, k), run[i].action, r)
  }

  /** It is an event of the reconcile of the object that the resource was made for. */
  lemma LosesItsOwn(env: Env, run: seq<Event>, i: nat, k: ObjectKey, r: Resource)
    requires ValidEnv(env) && Legal(env, run) && LosesAt(env, run, i, k, r)
    ensures var s := SlotBefore(env, run, i, k); s.proc.Some? && s.proc.value.copy.serial == r.serial
  {
    PrefixLegal(env, run, i);
    InvAfter(env, run[..i]);
    SlotInvAt(env, After(env, run[..i]), k);
  }

  lemma LosesInPrefix(env: Env, run: seq<Event>, i: nat, k: ObjectKey, r: Resource)
    requires Legal(env, run) && i < |run| - 1 && Legal(env, run[..|run| - 1])
    ensures LosesAt(env, run[..|run| - 1], i, k, r) <==> LosesAt(env, run, i, k, r)
  {
    BeforeInPrefix(env, run, i, k);
  }

  lemma LosesLast(env: Env, run: seq<Event>, k: ObjectKey, r: Resource)
    requires Legal(env, run) && run != [] && Legal(env, run[..|run| - 1])
    ensures r in SlotAfter(env, run, k).log.lost <==>
            r in SlotAfter(env, run[..|run| - 1], k).log.lost || LosesAt(env, run, |run| - 1, k, r)
  {
    var before, e := run[..|run| - 1], run[|run| - 1];
    if e.key == k {
      LossesOfStep(env, SlotAfter(env, before, k), e.action, After(env, before).now, r);
    }
  }

  /** A resource is lost exactly when some event of the run lost it. */
  lemma {:induction false} LostIff(env: Env, run: seq<Event>, k: ObjectKey, r: Resource)
    requires Legal(env, run)
    ensures r in SlotAfter(env, run, k).log.lost <==> exists i :: LosesAt(env, run, i, k, r)
    decreases |run|
  {
    if run != [] {
      var before := run[..|run| - 1];
      LostIff(env, before, k, r);
      LosesLast(env, run, k, r);
      if i: nat :| i < |before| && LosesAt(env, before, i, k, r) {
        LosesInPrefix(env, run, i, k, r);
      } else if i: nat :| i < |run| - 1 && LosesAt(env, run, i, k, r) {
        LosesInPrefix(env, run, i, k, r);
      }
    }
  }

  lemma KeptIffNotLost(env: Env, s: Slot, r: Resource)
    requires Inv(env, s) && LostIsUnnamed(env, s) && r in s.cloud
    ensures Kept(env, s, r) <==> r !in s.log.lost
  {
  }

  /**
   In every run, a live resource is kept by the object it was made for exactly as long as no event
   has lost it: a half-done apply that made it, or a crash or a failed save of the state that was
   the only one to name it.
   */
  lemma OrphanSafety(env: Env, run: seq<Event>, k: ObjectKey, r: Resource)
    requires ValidEnv(env) && Legal(env, run)
    requires r in SlotAfter(env, run, k).cloud
    ensures Kept(env, SlotAfter(env, run, k), r) <==> !exists i :: LosesAt(env, run, i, k, r)
  {
    InvAfter(env, run);
    SlotInvAt(env, After(env, run), k);
    KeptIffNotLost(env, SlotAfter(env, run, k), r);
    LostIff(env, run, k, r);
  }

  // ---------------------------------------------------------------- saves that are always refused

  /** Only a NewState in hand names the resource. */
  predicate InHandOnly(env: Env, s: Slot, r: Resource) {
    && s.proc.Some? && s.proc.value.pc.Applied? && r in Names(s.proc.value.pc.newState)
    && r !in Known(env, s.proc.value.copy.status)
  }

  lemma InHandThenLost(env: Env, s: Slot, a: Action, now: nat, r: Resource)
    requires Enabled(env, s, a) && InHandOnly(env, s, r) && (a.SaveState? ==> a.reply.Rejected?)
    ensures InHandOnly(env, Step(env, s, a, now), r) || r in Step(env, s, a, now).log.lost
  {
    LossesOfStep(env, s, a, now, r);
  }

  lemma MadeInHand(env: Env, s: Slot, a: Action, now: nat)
    requires Enabled(env, s, a) && LostIsUnnamed(env, s) && a.Apply? && a.effect.Anew?
    ensures InHandOnly(env, Step(env, s, a, now), Resource(s.proc.value.copy.serial, s.made))
  {
  }

  /** From here on every save of a state under this name is refused. */
  predicate SavesRefused(run: seq<Event>, from: nat, k: ObjectKey) {
    forall i :: from <= i < |run| && run[i].key == k && run[i].action.SaveState? ==> run[i].action.reply.Rejected?
  }

  ghost predicate InHandOrLost(env: Env, run: seq<Event>, k: ObjectKey, r: Resource)
    requires Legal(env, run)
  {
    InHandOnly(env, SlotAfter(env, run, k), r) || r in SlotAfter(env, run, k).log.lost
  }

  lemma InHandOrLostStep(env: Env, run: seq<Event>, k: ObjectKey, r: Resource)
    requires Legal(env, run) && run != [] && Legal(env, run[..|run| - 1])
    requires SavesRefused(run, |run| - 1, k) && InHandOrLost(env, run[..|run| - 1], k, r)
    ensures InHandOrLost(env, run, k, r)
  {
    var before, e := run[..|run| - 1], run[|run| - 1];
    var s := SlotAfter(env, before, k);
    if e.key == k {
      LossesOfStep(env, s, e.action, After(env, before).now, r);
      if InHandOnly(env, s, r) { InHandThenLost(env, s, e.action, After(env, before).now, r); }
    }
  }

  /** The resource that an apply at this place in the run makes. */
  ghost function Made(env: Env, run: seq<Event>, i: nat, k: ObjectKey): Option<Resource>
    requires Legal(env, run) && i < |run|
  {
    var s := SlotBefore(env, run, i, k);
    if run[i].key == k && run[i].action.Apply? && run[i].action.effect.Anew? && s.proc.Some? then
      Some(Resource(s.proc.value.copy.serial, s.made))
    else None
  }

  /**
   When saves are always refused, a resource that an apply makes is lost, unless its reconcile is
   still on its way to the save.
   */
  lemma {:induction false} RefusedSavesLose(env: Env, run: seq<Event>, i: nat, k: ObjectKey)
    requires ValidEnv(env) && Legal(env, run) && i < |run| && SavesRefused(run, i, k) && Made(env, run, i, k).Some?
    ensures InHandOrLost(env, run, k, Made(env, run, i, k).value)
    decreases |run|
  {
    var before, e := run[..|run| - 1], run[|run| - 1];
    BeforeInPrefix(env, run, i, k);
    if i == |run| - 1 {
      InvAfter(env, before);
      SlotInvAt(env, After(env, before), k);
      MadeInHand(env, SlotAfter(env, before, k), e.action, After(env, before).now);
    } else {
      RefusedSavesLose(env, before, i, k);
      InHandOrLostStep(env, run, k, Made(env, run, i, k).value);
    }
  }

  // ---------------------------------------------------------------- state agreement

  ghost predicate DropsOtherAt(env: Env, run: seq<Event>, i: nat, k: ObjectKey, u: nat)
    requires Legal(env, run)
  {
    i < |run| && run[i].key == k && DropsOther(env, SlotBefore(env, run, i, k), run[i].action, u)
  }

  ghost predicate AppliesAt(env: Env, run: seq<Event>, i: nat, k: ObjectKey, u: nat)
    requires Legal(env, run)
  {
    i < |run| && run[i].key == k && Applies(SlotBefore(env, run, i, k), run[i].action, u)
  }

  ghost predicate NoApplyAfter(env: Env, run: seq<Event>, i: nat, k: ObjectKey, u: nat)
    requires Legal(env, run)
  {
    forall j: nat :: i < j < |run| ==> !AppliesAt(env, run, j, k, u)
  }

  /**
   A crash or a failed save dropped a NewState of this object that was not the recorded one, and the
   provider has returned none since.
   */
  ghost predicate Superseded(env: Env, run: seq<Event>, k: ObjectKey, u: nat)
    requires Legal(env, run)
  {
    exists i: nat :: DropsOtherAt(env, run, i, k, u) && NoApplyAfter(env, run, i, k, u)
  }

  lemma StateEventsInPrefix(env: Env, run: seq<Event>, i: nat, k: ObjectKey, u: nat)
    requires Legal(env, run) && i < |run| - 1 && Legal(env, run[..|run| - 1])
    ensures DropsOtherAt(env, run[..|run| - 1], i, k, u) <==> DropsOtherAt(env, run, i, k, u)
    ensures AppliesAt(env, run[..|run| - 1], i, k, u) <==> AppliesAt(env, run, i, k, u)
  {
    BeforeInPrefix(env, run, i, k);
  }

  lemma NoApplyInPrefix(env: Env, run: seq<Event>, i: nat, k: ObjectKey, u: nat)
    requires Legal(env, run) && i < |run| - 1 && Legal(env, run[..|run| - 1])
    ensures NoApplyAfter(env, run, i, k, u) <==>
            NoApplyAfter(env, run[..|run| - 1], i, k, u) && !AppliesAt(env, run, |run| - 1, k, u)
  {
    var before := run[..|run| - 1];
    forall j: nat | i < j < |before| ensures AppliesAt(env, before, j, k, u) <==> AppliesAt(env, run, j, k, u) {
      StateEventsInPrefix(env, run, j, k, u);
    }
  }

  lemma SupersededStep(env: Env, run: seq<Event>, k: ObjectKey, u: nat)
    requires Legal(env, run) && run != [] && Legal(env, run[..|run| - 1])
    ensures Superseded(env, run, k, u) <==>
            DropsOtherAt(env, run, |run| - 1, k, u)
            || (Superseded(env, run[..|run| - 1], k, u) && !AppliesAt(env, run, |run| - 1, k, u))
  {
    var before := run[..|run| - 1];
    if DropsOtherAt(env, run, |run| - 1, k, u) {
      assert NoApplyAfter(env, run, |run| - 1, k, u);
    } else {
      if i: nat :| DropsOtherAt(env, run, i, k, u) && NoApplyAfter(env, run, i, k, u) {
        StateEventsInPrefix(env, run, i, k, u);
        NoApplyInPrefix(env, run, i, k, u);
      }
      if i: nat :| DropsOtherAt(env, before, i, k, u) && NoApplyAfter(env, before, i, k, u) {
        StateEventsInPrefix(env, run, i, k, u);
        NoApplyInPrefix(env, run, i, k, u);
      }
    }
  }

  lemma {:induction false} StandsAfter(env: Env, run: seq<Event>, k: ObjectKey, u: nat)
    requires ValidEnv(env) && Legal(env, run)
    ensures Stands(env, SlotAfter(env, run, k), u, Superseded(env, run, k, u))
    decreases |run|
  {
    if run != [] {
      var before, e := run[..|run| - 1], run[|run| - 1];
      StandsAfter(env, before, k, u);
      SupersededStep(env, run, k, u);
      if e.key == k {
        InvAfter(env, before);
        SlotInvAt(env, After(env, before), k);
        StandsStep(env, SlotAfter(env, before, k), e.action, After(env, before).now, u, Superseded(env, before, k, u));
      }
    }
  }

  predicate InWindow(s: Slot, u: nat) {
    s.proc.Some? && s.proc.value.pc.Applied? && s.proc.value.copy.serial == u
  }

  /**
   Outside the apply-to-save window, the stored text decodes to the last NewState of the object
   exactly if that was not dropped in favour of another.
   */
  lemma StateAgreement(env: Env, run: seq<Event>, k: ObjectKey)
    requires ValidEnv(env) && Legal(env, run) && SlotAfter(env, run, k).stored.Some?
    ensures var s := SlotAfter(env, run, k);
            var u, recorded := s.stored.value.serial, Recorded(env, s.stored.value.status);
            && (u in s.log.applied && !InWindow(s, u) ==>
                  (recorded == Ok(s.log.applied[u]) <==> !Superseded(env, run, k, u)))
            && (u !in s.log.applied ==> recorded == Ok(Empty) || recorded == Ok(Null))
  {
    InvAfter(env, run);
    SlotInvAt(env, After(env, run), k);
    StandsAfter(env, run, k, SlotAfter(env, run, k).stored.value.serial);
  }

  /**
   The PriorState of every plan is the last NewState of its object exactly if that was not dropped
   in favour of another; it is what the store holds for the object, which is certainly stored if it
   has the finalizer.
   */
  lemma PriorState(env: Env, run: seq<Event>, e: Event)
    requires ValidEnv(env) && Legal(env, run) && CanHappen(env, After(env, run), e) && e.action.Apply?
    ensures var s := SlotAfter(env, run, e.key);
            var o := s.proc.value.copy;
            var prior := Recorded(env, o.status);
            && (Ours(o) ==> s.stored.Some? && s.stored.value.serial == o.serial)
            && (s.stored.Some? && s.stored.value.serial == o.serial ==> prior == Recorded(env, s.stored.value.status))
            && (o.serial in s.log.applied ==>
                  (prior == Ok(s.log.applied[o.serial]) <==> !Superseded(env, run, e.key, o.serial)))
            && (o.serial !in s.log.applied ==> prior == Ok(Empty) || prior == Ok(Null))
  {
    InvAfter(env, run);
    SlotInvAt(env, After(env, run), e.key);
    StandsAfter(env, run, e.key, SlotAfter(env, run, e.key).proc.value.copy.serial);
  }

  // ---------------------------------------------------------------- no lost user edits

  /** The spec of the last Create or Edit of this name in the run. */
  function LastWrite(run: seq<Event>, k: ObjectKey): Option<Spec> {
    if run == [] then None
    else
      var e := run[|run| - 1];
      if e.key == k && e.action.Create? then Some(e.action.spec)
      else if e.key == k && e.action.Edit? then Some(e.action.newSpec)
      else LastWrite(run[..|run| - 1], k)
  }

  lemma SpecUntouched(env: Env, s: Slot, a: Action, now: nat)
    requires Enabled(env, s, a) && Step(env, s, a, now).stored.Some?
    ensures a.Create? ==> Step(env, s, a, now).stored.value.spec == a.spec
    ensures a.Edit? ==> Step(env, s, a, now).stored.value.spec == a.newSpec
    ensures !a.Create? && !a.Edit? ==>
              s.stored.Some? && Step(env, s, a, now).stored.value.spec == s.stored.value.spec
  {
  }

  lemma {:induction false} NoLostEdits(env: Env, run: seq<Event>, k: ObjectKey)
    requires Legal(env, run)
    ensures SlotAfter(env, run, k).stored.Some? ==>
              LastWrite(run, k) == Some(SlotAfter(env, run, k).stored.value.spec)
    decreases |run|
  {
    if run != [] {
      var before, e := run[..|run| - 1], run[|run| - 1];
      NoLostEdits(env, before, k);
      if e.key == k && SlotAfter(env, run, k).stored.Some? {
        SpecUntouched(env, SlotAfter(env, before, k), e.action, After(env, before).now);
      }
    }
  }

  // ---------------------------------------------------------------- dependency order

  /** The first apply of `a` used `b` for one of its references. */
  predicate Uses(w: World, a: Target, b: Target) {
    a.serial in SlotAt(w, a.key).log.used && b in SlotAt(w, a.key).log.used[a.serial].Values
  }

  predicate Applied(w: World, a: Target) {
    a.serial in SlotAt(w, a.key).log.applyTime
  }

  function FirstApply(w: World, a: Target): nat
    requires Applied(w, a)
  {
    SlotAt(w, a.key).log.applyTime[a.serial]
  }

  /** The first apply of an object comes after the first "Created" save of all it references. */
  lemma ReferencesFirst(env: Env, run: seq<Event>, a: Target, b: Target)
    requires ValidEnv(env) && Legal(env, run) && Uses(After(env, run), a, b)
    ensures var w := After(env, run);
            && Applied(w, a) && IsCreated(w, b) && Applied(w, b)
            && FirstApply(w, b) < SlotAt(w, b.key).log.createdTime[b.serial] < FirstApply(w, a)
  {
    var w := After(env, run);
    InvAfter(env, run);
    SlotInvAt(env, w, a.key);
    SlotInvAt(env, w, b.key);
    var l := SlotAt(w, a.key).log;
    assert UsedBeforeApply(w, l, a.serial);
    var r :| r in l.used[a.serial] && l.used[a.serial][r] == b;
    assert CreatedBefore(w, b, l.applyTime[a.serial]);
  }

  /** And every reference of the applied spec is among what was used. */
  lemma AllReferencesUsed(env: Env, run: seq<Event>, a: Target, r: Reference)
    requires ValidEnv(env) && Legal(env, run) && Applied(After(env, run), a)
    requires var l := SlotAt(After(env, run), a.key).log;
             a.serial in l.firstSpec && r in l.firstSpec[a.serial].references
    ensures exists b: Target :: b.key == r.key && Uses(After(env, run), a, b)
  {
    var w := After(env, run);
    InvAfter(env, run);
    SlotInvAt(env, w, a.key);
    var l := SlotAt(w, a.key).log;
    assert Lookups({}, l.used[a.serial], l.firstSpec[a.serial]);
    assert r in l.used[a.serial] && l.used[a.serial][r] in l.used[a.serial].Values;
    assert Uses(w, a, l.used[a.serial][r]);
  }

  predicate UsePath(w: World, path: seq<Target>) {
    forall i :: 0 < i < |path| ==> Uses(w, path[i - 1], path[i])
  }

  lemma {:induction false} PathGoesBack(env: Env, run: seq<Event>, path: seq<Target>)
    requires ValidEnv(env) && Legal(env, run) && |path| >= 2 && UsePath(After(env, run), path)
    ensures var w := After(env, run);
            && Applied(w, path[0]) && Applied(w, path[|path| - 1])
            && FirstApply(w, path[|path| - 1]) < FirstApply(w, path[0])
    decreases |path|
  {
    var n := |path|;
    assert Uses(After(env, run), path[n - 1 - 1], path[n - 1]);
    ReferencesFirst(env, run, path[n - 2], path[n - 1]);
    if n > 2 {
      PathGoesBack(env, run, path[..n - 1]);
    }
  }

  /** References used at first applies never form a cycle. */
  lemma NoReferenceCycle(env: Env, run: seq<Event>, path: seq<Target>)
    requires ValidEnv(env) && Legal(env, run) && |path| >= 2 && UsePath(After(env, run), path)
    ensures path[0] != path[|path| - 1]
  {
    PathGoesBack(env, run, path);
  }
}
