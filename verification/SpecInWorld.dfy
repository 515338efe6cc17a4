/**
 Where the translator and the protocol meet: mapping a spec against the API server succeeds
 exactly when the protocol can find every reference in it.
 */
module SpecInWorld {
  import opened GoStrings
  import opened Cty
  import opened BlockSchema
  import opened References
  import opened AttributeMapping
  import opened SpecMapping
  import opened SpecReferences
  import Slot
  import World
  import Runs

  // ---------------------------------------------------------------- the references in a spec

  function AttributeReferences(t: Type, j: Json): set<Bytes> {
    match t
    case TString => if j.JString? && IsReference(j.text) then {j.text} else {}
    case TMap(e) => if j.JObject? then set k, r | k in j.fields && r in AttributeReferences(e, j.fields[k]) :: r else {}
    case TList(e) => if j.JArray? then set i, r | 0 <= i < |j.items| && r in AttributeReferences(e, j.items[i]) :: r
      else {}
    case TSet(e) => if j.JArray? then set i, r | 0 <= i < |j.items| && r in AttributeReferences(e, j.items[i]) :: r
      else {}
    case _ => {}
  }

  /** The texts with a backtick at the places of the schema where the mapping looks at strings. */
  function SpecTexts(b: Block, s: Spec): set<Bytes>
    decreases b, 1
  {
    (set a, r | a in b.attributes && a in s && r in AttributeReferences(b.attributes[a].attrType, s[a]) :: r)
    + (set n, r | n in b.blockTypes && n in s && r in BlockReferences(b.blockTypes[n], s[n]) :: r)
  }

  function BlockReferences(nb: NestedBlock, j: Json): set<Bytes>
    decreases nb, 0
  {
    if IsObjectProperty(nb) then SpecTexts(nb.block, Fields(j))
    else set i, r | 0 <= i < |Items(j)| && r in SpecTexts(nb.block, Fields(Items(j)[i])) :: r
  }

  predicate AllText(store: Store, references: set<Bytes>) {
    forall r :: r in references ==> Resolve(store, r).Text?
  }

  lemma {:induction false} AttributeResolvesIff(t: Type, j: Json, store: Store)
    ensures AllResolve(t, j, Against(store)) <==> AllText(store, AttributeReferences(t, j))
    decreases t
  {
    match t
    case TMap(e) => if j.JObject? { forall k | k in j.fields { AttributeResolvesIff(e, j.fields[k], store); } }
    case TList(e) => if j.JArray? { forall i | 0 <= i < |j.items| { AttributeResolvesIff(e, j.items[i], store); } }
    case TSet(e) => if j.JArray? { forall i | 0 <= i < |j.items| { AttributeResolvesIff(e, j.items[i], store); } }
    case _ =>
  }

  lemma {:induction false} SpecResolvesIff(b: Block, s: Spec, store: Store)
    ensures SpecResolves(b, s, Against(store)) <==> AllText(store, SpecTexts(b, s))
    decreases b, 1
  {
    forall a | a in b.attributes && a in s { AttributeResolvesIff(b.attributes[a].attrType, s[a], store); }
    forall n | n in b.blockTypes && n in s { BlockResolvesIff(b.blockTypes[n], s[n], store); }
  }

  lemma {:induction false} BlockResolvesIff(nb: NestedBlock, j: Json, store: Store)
    ensures BlockResolves(nb, j, Against(store)) <==> AllText(store, BlockReferences(nb, j))
    decreases nb, 0
  {
    if IsObjectProperty(nb) {
      SpecResolvesIff(nb.block, Fields(j), store);
    } else {
      forall i | 0 <= i < |Items(j)| { SpecResolvesIff(nb.block, Fields(Items(j)[i]), store); }
    }
  }

  // ---------------------------------------------------------------- the store of the protocol

  predicate HasString(resource: map<Bytes, Json>, property: Bytes) {
    var at := Get(JObject(resource), Split(property, '.'));
    at.Some? && at.value.JString?
  }

  /** A stored resource, as the protocol sees it. */
  ghost predicate Represents(resource: map<Bytes, Json>, o: Slot.Object) {
    && (IsCreated(resource) <==> o.status.provisioningState == Some("Created"))
    && forall property: Bytes :: HasString(resource, property) <==> Slot.Exposes(o, property)
  }

  /** What reads of the API server return, none of which fails. */
  ghost predicate StoreOf(store: Store, w: World.World) {
    forall k :: if World.SlotAt(w, k).stored.Some?
                then k in store && store[k].Found? && Represents(store[k].resource, World.SlotAt(w, k).stored.value)
                else k !in store
  }

  /** A text in six parts, and the reference that it is. */
  predicate WellFormed(text: Bytes) {
    IsReference(text) && |Parts(text)| == 6
  }

  function AsReference(text: Bytes): Slot.Reference
    requires WellFormed(text)
  {
    Slot.Reference(KeyOf(Parts(text)), Parts(text)[5])
  }

  ghost predicate CanFind(w: World.World, text: Bytes) {
    WellFormed(text) && exists t :: World.Finds(w, AsReference(text), t)
  }

  lemma TextIff(resource: map<Bytes, Json>, property: Bytes)
    ensures PropertyOf(resource, property).Text? <==> IsCreated(resource) && HasString(resource, property)
  {
    var at := Get(JObject(resource), Split(property, '.'));
    if HasString(resource, property) { PropertyIff(resource, property, at.value.text); }
    if PropertyOf(resource, property).Text? { PropertyIff(resource, property, PropertyOf(resource, property).text); }
  }

  lemma ResolvesInWorld(store: Store, w: World.World, text: Bytes)
    requires StoreOf(store, w) && IsReference(text)
    ensures Resolve(store, text).Text? <==> CanFind(w, text)
  {
    if WellFormed(text) {
      var r := AsReference(text);
      var stored := World.SlotAt(w, r.key).stored;
      if stored.Some? {
        var resource := store[r.key].resource;
        assert Represents(resource, stored.value);
        assert HasString(resource, r.property) <==> Slot.Exposes(stored.value, r.property);
        TextIff(resource, r.property);
        assert Slot.Resolves(stored.value, r.property) ==> World.Finds(w, r, Slot.Target(r.key, stored.value.serial));
      }
    }
  }

  lemma {:induction false} AttributeReferencesAre(t: Type, j: Json)
    ensures forall r :: r in AttributeReferences(t, j) ==> IsReference(r)
    decreases t
  {
    match t
    case TMap(e) => if j.JObject? { forall k | k in j.fields { AttributeReferencesAre(e, j.fields[k]); } }
    case TList(e) => if j.JArray? { forall i | 0 <= i < |j.items| { AttributeReferencesAre(e, j.items[i]); } }
    case TSet(e) => if j.JArray? { forall i | 0 <= i < |j.items| { AttributeReferencesAre(e, j.items[i]); } }
    case _ =>
  }

  lemma {:induction false} TextsAreReferences(b: Block, s: Spec)
    ensures forall r :: r in SpecTexts(b, s) ==> IsReference(r)
    decreases b, 1
  {
    forall a | a in b.attributes && a in s { AttributeReferencesAre(b.attributes[a].attrType, s[a]); }
    forall n | n in b.blockTypes && n in s
      ensures forall r :: r in BlockReferences(b.blockTypes[n], s[n]) ==> IsReference(r) {
      var nb := b.blockTypes[n];
      if IsObjectProperty(nb) {
        TextsAreReferences(nb.block, Fields(s[n]));
      } else {
        forall i | 0 <= i < |Items(s[n])| { TextsAreReferences(nb.block, Fields(Items(s[n])[i])); }
      }
    }
  }

  // ---------------------------------------------------------------- a spec in the protocol

  /** Paths to strings, down objects, by names that a property path can have. */
  function StringPaths(j: Json): set<seq<Bytes>> {
    match j
    case JString(_) => {[]}
    case JObject(fields) => set k, p | k in fields && '.' !in k && p in StringPaths(fields[k]) :: [k] + p
    case _ => {}
  }

  lemma {:induction false} PathsAreStrings(j: Json, path: seq<Bytes>)
    requires Apart(path, '.')
    ensures Get(j, path).Some? && Get(j, path).value.JString? <==> path in StringPaths(j)
    decreases |path|
  {
    if path != [] && j.JObject? {
      var k, rest := path[0], path[1..];
      assert path == [k] + rest && '.' !in k;
      assert forall p :: [k] + p == path ==> p == ([k] + p)[1..];
      assert path in StringPaths(j) <==> k in j.fields && rest in StringPaths(j.fields[k]);
      if k in j.fields { PathsAreStrings(j.fields[k], rest); }
    }
  }

  function SpecObject(s: Spec): map<Bytes, Json> {
    map["spec" := JObject(s)]
  }

  /** The string properties of a spec, as references write them. */
  function SpecStrings(s: Spec): set<string> {
    set p | p in StringPaths(JObject(SpecObject(s))) && p != [] :: Join(p, '.')
  }

  /** The spec of the protocol: the references that the mapping reads, and the string properties. */
  function ProtocolSpec(b: Block, s: Spec, body: string): Slot.Spec {
    Slot.Spec(set r | r in SpecTexts(b, s) && WellFormed(r) :: AsReference(r), SpecStrings(s), body)
  }

  /** A string property of it is what reading the property of the resource gives. */
  lemma ProtocolStrings(b: Block, s: Spec, body: string, property: Bytes)
    ensures property in ProtocolSpec(b, s, body).strings <==> HasString(SpecObject(s), property)
  {
    var path := Split(property, '.');
    SplitIsApart(property, '.');
    JoinSplit(property, '.');
    PathsAreStrings(JObject(SpecObject(s)), path);
    if property in SpecStrings(s) {
      var p :| p in StringPaths(JObject(SpecObject(s))) && p != [] && Join(p, '.') == property;
      PathsAreApart(JObject(SpecObject(s)), p);
      SplitJoin(p, '.');
    }
  }

  lemma {:induction false} PathsAreApart(j: Json, path: seq<Bytes>)
    requires path in StringPaths(j)
    ensures Apart(path, '.')
    decreases j
  {
    if j.JObject? {
      var k, p :| k in j.fields && '.' !in k && p in StringPaths(j.fields[k]) && path == [k] + p;
      PathsAreApart(j.fields[k], p);
    }
  }

  ghost predicate Findable(w: World.World, r: Slot.Reference) {
    exists t :: World.Finds(w, r, t)
  }

  /**
   The mapping succeeds exactly when the spec is acceptable as text, its references have six parts,
   and the protocol can find every reference of the spec.
   */
  lemma MappingFindsReferences(b: Block, s: Spec, body: string, store: Store, w: World.World)
    requires StoreOf(store, w)
    ensures SpecOk(b, s, Against(store)) <==>
            && SpecOk(b, s, Literal) && (forall text :: text in SpecTexts(b, s) ==> WellFormed(text))
            && forall r :: r in ProtocolSpec(b, s, body).references ==> Findable(w, r)
  {
    SpecOkIffResolved(b, s, Against(store));
    SpecResolvesIff(b, s, store);
    TextsAreReferences(b, s);
    forall text | text in SpecTexts(b, s)
      ensures Resolve(store, text).Text? <==> WellFormed(text) && Findable(w, AsReference(text))
    {
      ResolvesInWorld(store, w, text);
    }
    assert forall text :: text in SpecTexts(b, s) && WellFormed(text) ==>
             AsReference(text) in ProtocolSpec(b, s, body).references;
  }

  /** The first apply of such a spec used, for each reference text in it, the object that it names. */
  lemma AllTextsUsed(
    env: Slot.Env, run: seq<World.Event>, a: Slot.Target, b: Block, s: Spec, body: string, text: Bytes)
    requires Slot.ValidEnv(env) && World.Legal(env, run) && Runs.Applied(World.After(env, run), a)
    requires var l := World.SlotAt(World.After(env, run), a.key).log;
             a.serial in l.firstSpec && l.firstSpec[a.serial] == ProtocolSpec(b, s, body)
    requires text in SpecTexts(b, s) && WellFormed(text)
    ensures exists t: Slot.Target :: t.key == KeyOf(Parts(text)) && Runs.Uses(World.After(env, run), a, t)
  {
    assert AsReference(text) in ProtocolSpec(b, s, body).references;
    Runs.AllReferencesUsed(env, run, a, AsReference(text));
  }
}
