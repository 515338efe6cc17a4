/**
 One object name in the cluster and everything that happens under it: the stored object, the
 reconcile in flight for it, the cloud resources made for it, and a log of what has happened.
 The atomic steps are those of reconcile.go:89-182 and of the users of the API server; any
 patch may fail, or succeed without the controller seeing the reply, and the controller may
 stop between any two steps.
 */
module Slot {
  import opened GoStrings
  import StateCodec
  import References

  const FINALIZER := "tfoperatorbridge.local"
  const CREATED: string := References.CREATED

  // ---------------------------------------------------------------- data

  type ObjectKey = References.ObjectKey

  datatype Reference = Reference(key: ObjectKey, property: string)

  /** A spec: the backtick references in it, its string properties, and the rest. */
  datatype Spec = Spec(references: set<Reference>, strings: set<string>, body: string)

  /** A cloud resource: the incarnation of the object it was made for, and a count. */
  datatype Resource = Resource(serial: nat, n: nat)

  /** A provider state value: the schema's empty value, null, or one that names a resource. */
  datatype TfState = Empty | Null | Present(resource: Resource, content: string)

  datatype Metadata = Metadata(name: Bytes, version: Bytes, checksum: Bytes)

  datatype Status = Status(
    tfState: Option<Bytes>,
    provisioningState: Option<string>,
    lastApplied: Option<nat>,
    provider: Option<Metadata>,
    strings: set<string>)

  /** `serial` tells apart the objects that have had this name, as metadata.uid does. */
  datatype Object = Object(
    serial: nat, generation: nat, deleting: bool, finalizers: seq<string>, spec: Spec, status: Status)

  const NO_STATUS := Status(None, None, None, None, {})

  /** What the controller is configured with; the state serialisation is an inverse pair. */
  datatype Env = Env(
    codec: StateCodec.Codec,
    marshal: TfState -> Bytes,
    unmarshal: Bytes -> Option<TfState>,
    metadata: Metadata,
    stringsOf: TfState -> set<string>)

  ghost predicate ValidEnv(env: Env) {
    forall t :: t != Empty ==> env.unmarshal(env.marshal(t)) == Some(t)
  }

  /** An object a reference resolved to. */
  datatype Target = Target(key: ObjectKey, serial: nat)

  /**
   Where a reconcile stands.  Begin: read, not yet sure of the finalizer.  Resolving: mapping
   the spec, references still to look up.  Ready: deleting, config is null.  Applied and Saved
   carry the NewState of the provider.
   */
  datatype Pc =
    | Begin
    | Resolving(pending: set<Reference>, found: map<Reference, Target>)
    | Ready
    | Applied(newState: TfState)
    | Saved(newState: TfState)

  /**
   `copy` is the object in the controller's memory; `specGeneration` is the generation of the
   spec in use, `readAt` and `savedAt` the times when it was read and its state was saved.
   */
  datatype Proc = Proc(copy: Object, deleting: bool, pc: Pc, specGeneration: nat, readAt: nat, savedAt: nat)

  /**
   What has happened under this name, by incarnation.
   lost: resources whose NewState was dropped before it was recorded.
   applied: the NewState of the last successful apply; unsaved: not recorded since;
   dropped: a fault fell between that apply and its state save.
   applyTime, createdTime: the first apply, the first "Created" save; firstSpec, used: the
   spec of the first apply and what its references resolved to.
   */
  datatype Log = Log(
    lost: set<Resource>,
    applied: map<nat, TfState>, unsaved: set<nat>, dropped: set<nat>,
    applyTime: map<nat, nat>, firstSpec: map<nat, Spec>, used: map<nat, map<Reference, Target>>,
    createdTime: map<nat, nat>)

  datatype Slot = Slot(
    stored: Option<Object>, proc: Option<Proc>, serials: nat,
    cloud: set<Resource>, made: nat, log: Log)

  const EMPTY_LOG := Log({}, map[], {}, {}, map[], map[], map[], map[])
  const EMPTY_SLOT := Slot(None, None, 0, {}, 0, EMPTY_LOG)

  // ---------------------------------------------------------------- reading an object

  predicate Ours(o: Object) {
    FINALIZER in o.finalizers
  }

  function Names(t: TfState): set<Resource> {
    if t.Present? then {t.resource} else {}
  }

  /** getTerraformStateValue: no recorded text means the empty value. */
  function Recorded(env: Env, status: Status): Result<TfState> {
    match status.tfState
    case None => Ok(Empty)
    case Some(text) =>
      match StateCodec.DecodeAndDecrypt(env.codec, text)
      case Err(e) => Err(e)
      case Ok(plain) =>
        match env.unmarshal(plain)
        case None => Err("cannot unmarshal")
        case Some(t) => Ok(t)
  }

  /** What the recorded state names. */
  function Known(env: Env, status: Status): set<Resource> {
    match Recorded(env, status)
    case Ok(t) => Names(t)
    case Err(_) => {}
  }

  /** A string property of the object, in its spec or in its status. */
  predicate Exposes(o: Object, property: string) {
    property in o.spec.strings || property in o.status.strings
  }

  /** getReferencedObjectValue yields a value from this object. */
  predicate Resolves(o: Object, property: string) {
    o.status.provisioningState == Some(CREATED) && Exposes(o, property)
  }

  // ---------------------------------------------------------------- patches

  /** A merge patch sends the fields that differ between the two copies, and no others. */
  function Merged<T(==)>(stored: T, before: T, after: T): T {
    if before == after then stored else after
  }

  /** client.Patch: the API server ignores status in it. */
  function Patch(stored: Object, before: Object, after: Object): Object {
    stored.(finalizers := Merged(stored.finalizers, before.finalizers, after.finalizers),
            spec := Merged(stored.spec, before.spec, after.spec))
  }

  /** client.Status().Patch: the API server takes nothing but status from it. */
  function StatusPatch(stored: Object, before: Object, after: Object): Object {
    stored.(status := Status(
      Merged(stored.status.tfState, before.status.tfState, after.status.tfState),
      Merged(stored.status.provisioningState, before.status.provisioningState, after.status.provisioningState),
      Merged(stored.status.lastApplied, before.status.lastApplied, after.status.lastApplied),
      Merged(stored.status.provider, before.status.provider, after.status.provider),
      Merged(stored.status.strings, before.status.strings, after.status.strings)))
  }

  function Without(finalizers: seq<string>): (r: seq<string>)
    ensures FINALIZER !in r
  {
    if finalizers == [] then []
    else if finalizers[0] == FINALIZER then Without(finalizers[1..])
    else [finalizers[0]] + Without(finalizers[1..])
  }

  function WithFinalizer(o: Object): Object {
    o.(finalizers := o.finalizers + [FINALIZER])
  }

  function WithoutFinalizer(o: Object): Object {
    o.(finalizers := Without(o.finalizers))
  }

  function WithState(env: Env, iv: StateCodec.Vector, o: Object, t: TfState): Object {
    o.(status := o.status.(tfState := Some(StateCodec.EncryptAndEncode(env.codec, iv, env.marshal(t)))))
  }

  /** setLastAppliedGeneration, ensureTerraformProviderMetadata, setProvisioningState, mapped values. */
  function WithResult(env: Env, o: Object, t: TfState): Object {
    o.(status := o.status.(
         provisioningState := Some(CREATED),
         lastApplied := Some(o.generation),
         provider := if o.status.provider.Some? then o.status.provider else Some(env.metadata),
         strings := env.stringsOf(t)))
  }

  // ---------------------------------------------------------------- steps

  /** The fate of a patch: applied; not applied; applied, but the caller sees an error. */
  datatype Reply = Acked | Rejected | Unacked

  /**
   The provider on an apply.  Halfway: it acts on the cloud, destroying the old resource or making
   a new one or both, and then reports an error, so the source drops its NewState
   (reconcile.go:947-950).
   */
  datatype Effect =
    | Failed
    | Halfway(destroys: bool, makes: bool)
    | InPlace(content: string)
    | Anew(content: string)
    | Destroyed

  datatype Action =
    // users and other controllers
    | Create(spec: Spec, others: seq<string>)
    | Edit(newSpec: Spec)
    | Delete
    | SetFinalizers(finalizers: seq<string>)
    | Vanish
    // the controller
    | Start
    | EnsureFinalizer(reply: Reply)
    | Find(reference: Reference, target: Target)
    | GiveUp
    | Apply(effect: Effect)
    | SaveState(iv: StateCodec.Vector, reply: Reply)
    | SaveStatus(reply: Reply)
    | RemoveFinalizer(reply: Reply)
    | Crash

  /** The reconcile ends before it has saved what its apply returned. */
  function Abandon(env: Env, s: Slot): Slot
    requires s.proc.Some?
  {
    var p := s.proc.value;
    if p.pc.Applied? then
      s.(proc := None,
         log := s.log.(lost := s.log.lost + (Names(p.pc.newState) - Known(env, p.copy.status)),
                       dropped := s.log.dropped + {p.copy.serial}))
    else s.(proc := None)
  }

  predicate EffectPossible(s: Slot, p: Proc, prior: TfState, e: Effect) {
    match e
    case Failed => true
    case Halfway(_, makes) => makes ==> !p.deleting
    case Destroyed => p.deleting
    case InPlace(_) => !p.deleting && prior.Present? && prior.resource in s.cloud
    case Anew(_) => !p.deleting
  }

  /** A patch other than a rejected one needs the object to be there. */
  predicate Reachable(s: Slot, r: Reply) {
    r.Rejected? || s.stored.Some?
  }

  predicate Enabled(env: Env, s: Slot, a: Action) {
    match a
    case Create(_, others) => s.stored.None? && FINALIZER !in others
    case Edit(_) => s.stored.Some?
    case Delete => s.stored.Some? && !s.stored.value.deleting
    case SetFinalizers(fs) => s.stored.Some? && (FINALIZER in fs <==> Ours(s.stored.value))
    case Vanish => s.stored.Some? && s.stored.value.deleting && s.stored.value.finalizers == []
    case Start => s.stored.Some? && s.proc.None?
    case EnsureFinalizer(r) =>
      s.proc.Some? && s.proc.value.pc.Begin? && (Ours(s.proc.value.copy) || Reachable(s, r))
    case Find(ref, _) => s.proc.Some? && s.proc.value.pc.Resolving? && ref in s.proc.value.pc.pending
    case GiveUp => s.proc.Some? && !s.proc.value.pc.Applied?
    case Apply(e) =>
      s.proc.Some? &&
      var p := s.proc.value;
      (p.pc.Ready? || (p.pc.Resolving? && p.pc.pending == {})) &&
      var prior := Recorded(env, p.copy.status);
      prior.Ok? && EffectPossible(s, p, prior.value, e)
    case SaveState(_, r) => s.proc.Some? && s.proc.value.pc.Applied? && Reachable(s, r)
    case SaveStatus(r) => s.proc.Some? && s.proc.value.pc.Saved? && !s.proc.value.deleting && Reachable(s, r)
    case RemoveFinalizer(r) => s.proc.Some? && s.proc.value.pc.Saved? && s.proc.value.deleting && Reachable(s, r)
    case Crash => s.proc.Some?
  }

  function StartStep(s: Slot, now: nat): Slot
    requires s.stored.Some?
  {
    var o := s.stored.value;
    s.(proc := Some(Proc(o, o.deleting, if o.deleting then Ready else Begin, o.generation, now, 0)))
  }

  /** The reconcile goes on to map the spec it has in memory. */
  function Mapping(p: Proc): Proc {
    p.(pc := Resolving(p.copy.spec.references, map[]))
  }

  /** The reply to a patch is the whole stored object, which replaces the one in memory. */
  function EnsureFinalizerStep(s: Slot, r: Reply, now: nat): Slot
    requires s.proc.Some? && (Ours(s.proc.value.copy) || Reachable(s, r))
  {
    var p := s.proc.value;
    if Ours(p.copy) then s.(proc := Some(Mapping(p)))
    else if r.Rejected? then s.(proc := None)
    else
      var next := Patch(s.stored.value, p.copy, WithFinalizer(p.copy));
      s.(stored := Some(next),
         proc := if r.Acked? then Some(Mapping(p.(copy := next, specGeneration := next.generation, readAt := now)))
                 else None)
  }

  function ApplyStep(s: Slot, prior: TfState, e: Effect, now: nat): Slot
    requires s.proc.Some?
    requires EffectPossible(s, s.proc.value, prior, e)
  {
    var p := s.proc.value;
    var resource := Resource(p.copy.serial, s.made);
    var found := if p.pc.Resolving? then p.pc.found else map[];
    var log := if p.deleting || p.copy.serial in s.log.applyTime then s.log
               else s.log.(applyTime := s.log.applyTime[p.copy.serial := now],
                           firstSpec := s.log.firstSpec[p.copy.serial := p.copy.spec],
                           used := s.log.used[p.copy.serial := found]);
    match e
    case Failed => s.(proc := None, log := log)
    case Halfway(destroys, makes) =>
      var left := if destroys then s.cloud - Names(prior) else s.cloud;
      if makes then
        s.(proc := None, cloud := left + {resource}, made := s.made + 1, log := log.(lost := log.lost + {resource}))
      else s.(proc := None, cloud := left, log := log)
    case Destroyed =>
      Returned(s.(cloud := s.cloud - Names(prior)), log, Null)
    case InPlace(content) =>
      Returned(s, log, Present(prior.resource, content))
    case Anew(content) =>
      Returned(s.(cloud := s.cloud - Names(prior) + {resource}, made := s.made + 1), log, Present(resource, content))
  }

  /** A successful apply with this NewState. */
  function Returned(s: Slot, log: Log, newState: TfState): Slot
    requires s.proc.Some?
  {
    var p := s.proc.value;
    s.(proc := Some(p.(pc := Applied(newState))),
       log := log.(applied := log.applied[p.copy.serial := newState],
                   unsaved := log.unsaved + {p.copy.serial},
                   dropped := log.dropped - {p.copy.serial}))
  }

  function SaveStateStep(env: Env, s: Slot, iv: StateCodec.Vector, r: Reply, now: nat): Slot
    requires s.proc.Some? && s.proc.value.pc.Applied? && Reachable(s, r)
  {
    var p := s.proc.value;
    if r.Rejected? then Abandon(env, s)
    else
      var next := StatusPatch(s.stored.value, p.copy, WithState(env, iv, p.copy, p.pc.newState));
      s.(stored := Some(next),
         proc := if r.Acked? then Some(p.(copy := next, pc := Saved(p.pc.newState), savedAt := now)) else None,
         log := s.log.(unsaved := s.log.unsaved - {p.copy.serial}, dropped := s.log.dropped - {p.copy.serial}))
  }

  function SaveStatusStep(env: Env, s: Slot, r: Reply, now: nat): Slot
    requires s.proc.Some? && s.proc.value.pc.Saved? && Reachable(s, r)
  {
    var p := s.proc.value;
    if r.Rejected? then s.(proc := None)
    else
      var next := StatusPatch(s.stored.value, p.copy, WithResult(env, p.copy, p.pc.newState));
      s.(stored := Some(next), proc := None,
         log := if next.serial in s.log.createdTime then s.log
                else s.log.(createdTime := s.log.createdTime[next.serial := now]))
  }

  function RemoveFinalizerStep(s: Slot, r: Reply): Slot
    requires s.proc.Some? && Reachable(s, r)
  {
    var p := s.proc.value;
    if !Ours(p.copy) || r.Rejected? then s.(proc := None)
    else s.(stored := Some(Patch(s.stored.value, p.copy, WithoutFinalizer(p.copy))), proc := None)
  }

  function CreateStep(s: Slot, spec: Spec, others: seq<string>): Slot {
    s.(stored := Some(Object(s.serials, 1, false, others, spec, NO_STATUS)), serials := s.serials + 1)
  }

  function EditStep(s: Slot, spec: Spec): Slot
    requires s.stored.Some?
  {
    var o := s.stored.value;
    s.(stored := Some(o.(spec := spec, generation := o.generation + 1)))
  }

  function DeleteStep(s: Slot): Slot
    requires s.stored.Some?
  {
    var o := s.stored.value;
    s.(stored := Some(o.(deleting := true, generation := o.generation + 1)))
  }

  function Step(env: Env, s: Slot, a: Action, now: nat): Slot
    requires Enabled(env, s, a)
  {
    match a
    case Create(spec, others) => CreateStep(s, spec, others)
    case Edit(spec) => EditStep(s, spec)
    case Delete => DeleteStep(s)
    case SetFinalizers(fs) => s.(stored := Some(s.stored.value.(finalizers := fs)))
    case Vanish => s.(stored := None)
    case Start => StartStep(s, now)
    case EnsureFinalizer(r) => EnsureFinalizerStep(s, r, now)
    case Find(ref, t) =>
      var p := s.proc.value;
      s.(proc := Some(p.(pc := Resolving(p.pc.pending - {ref}, p.pc.found[ref := t]))))
    case GiveUp => s.(proc := None)
    case Apply(e) => ApplyStep(s, Recorded(env, s.proc.value.copy.status).value, e, now)
    case SaveState(iv, r) => SaveStateStep(env, s, iv, r, now)
    case SaveStatus(r) => SaveStatusStep(env, s, r, now)
    case RemoveFinalizer(r) => RemoveFinalizerStep(s, r)
    case Crash => Abandon(env, s)
  }
}
