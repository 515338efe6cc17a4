/**
 What holds of one object name after every step, whatever the interleaving, the failures and
 the crashes: the invariant behind orphan safety and state agreement.
 */
module SlotInvariant {
  import opened GoStrings
  import opened Slot
  import StateCodec

  /** The finalizer in memory is the finalizer in the store; holding it pins the incarnation. */
  predicate Held(s: Slot) {
    s.proc.Some? ==>
      var p := s.proc.value;
      && (Ours(p.copy) ==> s.stored.Some? && s.stored.value.serial == p.copy.serial && Ours(s.stored.value))
      && (s.stored.Some? && Ours(s.stored.value) ==> Ours(p.copy))
      && (!p.deleting && !p.pc.Begin? ==> Ours(p.copy))
  }

  /** Only the bridge writes status, so what it has in memory is what is stored. */
  predicate StatusInMemory(s: Slot) {
    s.proc.Some? && s.stored.Some? && s.stored.value.serial == s.proc.value.copy.serial ==>
      s.stored.value.status == s.proc.value.copy.status
  }

  /** The recorded state decodes, and names nothing on an object without the finalizer. */
  predicate Readable(env: Env, o: Object) {
    && Recorded(env, o.status).Ok?
    && (!Ours(o) ==> Names(Recorded(env, o.status).value) == {})
  }

  predicate AllReadable(env: Env, s: Slot) {
    && (s.stored.Some? ==> Readable(env, s.stored.value))
    && (s.proc.Some? ==> Readable(env, s.proc.value.copy))
  }

  /** Null is what a deletion returns and nothing else does. */
  predicate NewStates(env: Env, s: Slot) {
    s.proc.Some? && (s.proc.value.pc.Applied? || s.proc.value.pc.Saved?) ==>
      var p := s.proc.value;
      && (if p.deleting then p.pc.newState == Null else p.pc.newState.Present?)
      && (p.pc.Saved? && Recorded(env, p.copy.status).Ok? ==>
            Names(Recorded(env, p.copy.status).value) == Names(p.pc.newState))
  }

  predicate Phases(s: Slot) {
    s.proc.Some? ==>
      var p := s.proc.value;
      && (p.pc.Ready? ==> p.deleting)
      && (p.pc.Begin? || p.pc.Resolving? ==> !p.deleting)
  }

  /** What accounts for the live resources: the NewState not yet saved, or the recorded state. */
  function Accounted(env: Env, s: Slot): set<Resource>
    requires s.stored.Some?
  {
    if s.proc.Some? && s.proc.value.pc.Applied? then Names(s.proc.value.pc.newState)
    else Known(env, s.stored.value.status)
  }

  /** Every live resource that was not lost belongs to a stored object that holds the finalizer. */
  predicate Covered(env: Env, s: Slot) {
    forall r :: r in s.cloud && r !in s.log.lost ==>
      s.stored.Some? && s.stored.value.serial == r.serial && Ours(s.stored.value) && r in Accounted(env, s)
  }

  predicate Bounded(s: Slot) {
    && (s.stored.Some? ==> s.stored.value.serial < s.serials)
    && (s.proc.Some? ==> s.proc.value.copy.serial < s.serials)
  }

  predicate NamesOwn(env: Env, o: Object) {
    Recorded(env, o.status).Ok? ==> forall r :: r in Names(Recorded(env, o.status).value) ==> r.serial == o.serial
  }

  /** States only name resources made for the incarnation they belong to. */
  predicate OwnNames(env: Env, s: Slot) {
    && (s.stored.Some? ==> NamesOwn(env, s.stored.value))
    && (s.proc.Some? ==>
          var p := s.proc.value;
          && NamesOwn(env, p.copy)
          && (p.pc.Applied? ==> forall r :: r in Names(p.pc.newState) ==> r.serial == p.copy.serial))
  }

  ghost predicate Inv(env: Env, s: Slot) {
    && ValidEnv(env)
    && Bounded(s) && Held(s) && StatusInMemory(s) && AllReadable(env, s) && NewStates(env, s) && Phases(s)
    && Covered(env, s) && OwnNames(env, s)
  }

  // ---------------------------------------------------------------- the state save

  /** The state that is saved is the state that is read back. */
  lemma RecordedSaved(env: Env, iv: StateCodec.Vector, o: Object, t: TfState)
    requires ValidEnv(env) && t != Empty
    ensures Recorded(env, WithState(env, iv, o, t).status) == Ok(t)
  {
    StateCodec.CodecRoundTrip(env.codec, iv, env.marshal(t));
  }

  /** What the store holds after the state patch, on the incarnation that was applied or another. */
  lemma StateSaved(env: Env, s: Slot, iv: StateCodec.Vector)
    requires Inv(env, s) && s.proc.Some? && s.proc.value.pc.Applied? && s.stored.Some?
    ensures var p := s.proc.value;
            var next := StatusPatch(s.stored.value, p.copy, WithState(env, iv, p.copy, p.pc.newState));
            && Recorded(env, next.status).Ok?
            && Names(Recorded(env, next.status).value) == Names(p.pc.newState)
            && (s.stored.value.serial == p.copy.serial ==> Recorded(env, next.status) == Ok(p.pc.newState))
  {
    var p := s.proc.value;
    var after := WithState(env, iv, p.copy, p.pc.newState);
    var next := StatusPatch(s.stored.value, p.copy, after);
    RecordedSaved(env, iv, p.copy, p.pc.newState);
    if s.stored.value.serial == p.copy.serial || next.status.tfState == after.status.tfState {
      assert next.status.tfState == after.status.tfState;
      assert Recorded(env, next.status) == Recorded(env, after.status);
    } else {
      assert next.status.tfState == s.stored.value.status.tfState;
      assert Recorded(env, next.status) == Recorded(env, s.stored.value.status);
    }
  }

  // ---------------------------------------------------------------- each step keeps each part

  lemma HeldStep(env: Env, s: Slot, a: Action, now: nat)
    requires Inv(env, s) && Enabled(env, s, a)
    ensures Held(Step(env, s, a, now))
  {
  }

  lemma BoundedStep(env: Env, s: Slot, a: Action, now: nat)
    requires Inv(env, s) && Enabled(env, s, a)
    ensures Bounded(Step(env, s, a, now))
  {
  }

  lemma StatusStep(env: Env, s: Slot, a: Action, now: nat)
    requires Inv(env, s) && Enabled(env, s, a)
    ensures StatusInMemory(Step(env, s, a, now))
  {
  }

  lemma PhasesStep(env: Env, s: Slot, a: Action, now: nat)
    requires Inv(env, s) && Enabled(env, s, a)
    ensures Phases(Step(env, s, a, now))
  {
  }

  lemma ReadableStep(env: Env, s: Slot, a: Action, now: nat)
    requires Inv(env, s) && Enabled(env, s, a)
    ensures AllReadable(env, Step(env, s, a, now))
  {
    if a.SaveState? && !a.reply.Rejected? { StateSaved(env, s, a.iv); }
  }

  lemma NewStatesStep(env: Env, s: Slot, a: Action, now: nat)
    requires Inv(env, s) && Enabled(env, s, a)
    ensures NewStates(env, Step(env, s, a, now))
  {
    if a.SaveState? && !a.reply.Rejected? { StateSaved(env, s, a.iv); }
  }

  lemma CoveredStep(env: Env, s: Slot, a: Action, now: nat)
    requires Inv(env, s) && Enabled(env, s, a)
    ensures Covered(env, Step(env, s, a, now))
  {
    if a.SaveState? && !a.reply.Rejected? { StateSaved(env, s, a.iv); }
  }

  lemma OwnNamesStep(env: Env, s: Slot, a: Action, now: nat)
    requires Inv(env, s) && Enabled(env, s, a)
    ensures OwnNames(env, Step(env, s, a, now))
  {
    if a.SaveState? && !a.reply.Rejected? { StateSaved(env, s, a.iv); }
  }
}
