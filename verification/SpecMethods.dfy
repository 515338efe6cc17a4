/**
 mapCRDSpecValuesToTerraformConfig (reconcile.go:358-448): the two loops over the schema's maps,
 in an arbitrary order, and the loop over the items of an array-shaped block.
 */
module SpecMethods {
  import opened GoStrings
  import opened Cty
  import opened BlockSchema
  import opened References
  import opened AttributeMapping
  import opened AttributeMethods
  import opened SpecMapping
  import opened SpecTypes
  import opened ConfigMeaning

  /** The three results of the Go function. */
  datatype MapResult = MapResult(value: Option<Value>, statusMessage: string, error: Option<string>)

  function Fail(message: string): MapResult {
    MapResult(None, "", Some(message))
  }

  function Later(message: string): MapResult {
    MapResult(None, message, None)
  }

  /** One of three outcomes, the right value, or a failure that the spec and the store account for. */
  predicate Maps(b: Block, name: Bytes, s: Spec, store: Store, r: MapResult) {
    && OneOutcome(r.value, r.statusMessage, r.error)
    && (r.value.Some? ==>
          SpecOk(b, s, Against(store)) && Shaped(b, s) && r.value.value == ObjectV(Config(b, name, s, Against(store))))
    && (r.error.Some? ==> SpecMayFail(b, s, Against(store), Error))
    && (r.value.None? && r.error.None? ==> SpecMayFail(b, s, Against(store), Retry))
  }

  /** So any two visiting orders that both yield a value yield the same, and none fails if one may not. */
  lemma OutcomeIsDetermined(b: Block, name: Bytes, s: Spec, store: Store, r1: MapResult, r2: MapResult)
    requires Maps(b, name, s, store, r1) && Maps(b, name, s, store, r2)
    ensures r1.value == r2.value
    ensures r1.value.Some? <==> SpecOk(b, s, Against(store))
  {
    SpecOkOrFails(b, s, Against(store));
  }

  // ---------------------------------------------------------------- fields done so far

  predicate FieldsOk(b: Block, s: Spec, store: Store, done: set<Bytes>) {
    forall k :: k in done ==> FieldOk(b, s, Against(store), k)
  }

  function Partial(b: Block, name: Bytes, s: Spec, store: Store, done: set<Bytes>): map<Bytes, Value>
    requires FieldsOk(b, s, store, done)
  {
    map k | k in StartFields(b, name) ::
      if k in done then Field(b, name, s, Against(store), k) else StartFields(b, name)[k]
  }

  /** A field that the source leaves as it is, or assigns. */
  lemma FieldDone(b: Block, name: Bytes, s: Spec, store: Store, done: set<Bytes>, k: Bytes)
    requires FieldsOk(b, s, store, done) && k in StartFields(b, name) && FieldOk(b, s, Against(store), k)
    requires k !in done
    ensures FieldsOk(b, s, store, done + {k})
    ensures var v := Field(b, name, s, Against(store), k);
            && Partial(b, name, s, store, done + {k}) == Partial(b, name, s, store, done)[k := v]
            && (v == StartFields(b, name)[k] ==>
                  Partial(b, name, s, store, done + {k}) == Partial(b, name, s, store, done))
  {
  }

  lemma NothingDone(b: Block, name: Bytes, s: Spec, store: Store)
    ensures Partial(b, name, s, store, {}) == StartFields(b, name)
  {
  }

  lemma AllDone(b: Block, name: Bytes, s: Spec, store: Store)
    requires FieldsOk(b, s, store, b.attributes.Keys + b.blockTypes.Keys) && Shaped(b, s)
    ensures SpecOk(b, s, Against(store))
    ensures Partial(b, name, s, store, b.attributes.Keys + b.blockTypes.Keys) == Config(b, name, s, Against(store))
  {
  }

  /** Some fields from before, and of these names all that are not still to do. */
  function Done(before: set<Bytes>, names: set<Bytes>, todo: set<Bytes>): set<Bytes> {
    before + (names - todo)
  }

  lemma DoneEnds(before: set<Bytes>, names: set<Bytes>)
    ensures Done(before, names, names) == before && Done({}, names, {}) == names
    ensures Done(before, names, {}) == before + names
  {
  }

  lemma OneMore(before: set<Bytes>, names: set<Bytes>, todo: set<Bytes>, n: Bytes)
    requires n in todo && todo <= names && before !! names
    ensures n !in Done(before, names, todo)
    ensures Done(before, names, todo - {n}) == Done(before, names, todo) + {n}
  {
  }

  /** A failure that ends the mapping, or these fields done. */
  predicate Stops(r: MapResult) {
    r.error.Some? || r.statusMessage != ""
  }

  predicate Progress(
    b: Block, name: Bytes, s: Spec, store: Store, r: MapResult, done: set<Bytes>, fields: map<Bytes, Value>)
  {
    if Stops(r) then Maps(b, name, s, store, r) else Reached(b, name, s, store, done) == Some(fields)
  }

  /** The fields once these are done, if they can be. */
  function Reached(b: Block, name: Bytes, s: Spec, store: Store, done: set<Bytes>): Option<map<Bytes, Value>> {
    if FieldsOk(b, s, store, done) then Some(Partial(b, name, s, store, done)) else None
  }

  /** The display_name that every caller gives the outermost block. */
  const TOP: Bytes := "test1"

  const GO_ON := MapResult(None, "", None)

  // ---------------------------------------------------------------- the methods

  method MapCRDSpecValuesToTerraformConfig(b: Block, config: Value, s: Spec, store: Store, ghost name: Bytes)
    returns (r: MapResult)
    requires WellNamed(b) && Shaped(b, s) && config == ObjectV(StartFields(b, name))
    ensures Maps(b, name, s, store, r)
    ensures r.value.Some? ==> ObjectMeans(b, name, s, Against(store), r.value.value)
    decreases b, 5
  {
    var fields;
    r, fields := MapAttributes(b, config.fields, s, store, name);
    if Stops(r) { return; }
    r, fields := MapBlocks(b, fields, s, store, name);
    if Stops(r) { return; }
    AllDone(b, name, s, store);
    ConfigMeans(b, name, s, Against(store));
    r := MapResult(Some(ObjectV(fields)), "", None);
  }

  method MapAttributes(b: Block, start: map<Bytes, Value>, s: Spec, store: Store, ghost name: Bytes)
    returns (r: MapResult, fields: map<Bytes, Value>)
    requires WellNamed(b) && Shaped(b, s) && start == StartFields(b, name)
    ensures Progress(b, name, s, store, r, b.attributes.Keys, fields)
    decreases b, 4
  {
    r, fields := GO_ON, start;
    var todo := b.attributes.Keys;
    NothingDone(b, name, s, store);
    DoneEnds({}, todo);
    while todo != {} && !Stops(r)
      invariant todo <= b.attributes.Keys
      invariant !Stops(r) ==> r == GO_ON
      invariant Progress(b, name, s, store, r, Done({}, b.attributes.Keys, todo), fields)
      decreases |todo|
    {
      var k :| k in todo;
      OneMore({}, b.attributes.Keys, todo, k);
      r, fields := MapAttribute(b, fields, s, store, k, name, Done({}, b.attributes.Keys, todo));
      todo := todo - {k};
    }
    DoneEnds({}, b.attributes.Keys);
  }

  method MapAttribute(
    b: Block, before: map<Bytes, Value>, s: Spec, store: Store, k: Bytes, ghost name: Bytes, ghost done: set<Bytes>)
    returns (r: MapResult, fields: map<Bytes, Value>)
    requires Shaped(b, s) && k in b.attributes && k !in b.blockTypes && k !in done
    requires Reached(b, name, s, store, done) == Some(before)
    ensures Progress(b, name, s, store, r, done + {k}, fields) && (!Stops(r) ==> r == GO_ON)
  {
    r, fields := GO_ON, before;
    if k !in s {
      FieldDone(b, name, s, store, done, k);
      return;
    }
    var got := GetTerraformValueFromInterface(b.attributes[k].attrType, s[k], store);
    if got.error.Some? { return Fail("Error getting value"), fields; }
    if got.value.None? { return Later("Unable to retrieve value: " + got.statusMessage), fields; }
    FieldDone(b, name, s, store, done, k);
    if !Skipped(got.value.value) {
      fields := fields[k := got.value.value];
    }
  }

  method MapBlocks(b: Block, start: map<Bytes, Value>, s: Spec, store: Store, ghost name: Bytes)
    returns (r: MapResult, fields: map<Bytes, Value>)
    requires WellNamed(b) && Shaped(b, s) && Reached(b, name, s, store, b.attributes.Keys) == Some(start)
    ensures Progress(b, name, s, store, r, b.attributes.Keys + b.blockTypes.Keys, fields)
    decreases b, 4
  {
    r, fields := GO_ON, start;
    var todo := b.blockTypes.Keys;
    DoneEnds(b.attributes.Keys, todo);
    while todo != {} && !Stops(r)
      invariant todo <= b.blockTypes.Keys
      invariant !Stops(r) ==> r == GO_ON
      invariant Progress(b, name, s, store, r, Done(b.attributes.Keys, b.blockTypes.Keys, todo), fields)
      decreases |todo|
    {
      var n :| n in todo;
      OneMore(b.attributes.Keys, b.blockTypes.Keys, todo, n);
      r, fields := MapBlock(b, fields, s, store, n, name, Done(b.attributes.Keys, b.blockTypes.Keys, todo));
      todo := todo - {n};
    }
  }

  /** A failure inside a nested block is a failure of the block around it. */
  lemma NestedFailure(
    b: Block, name: Bytes, s: Spec, store: Store, done: set<Bytes>, n: Bytes, kind: Kind, message: string)
    requires FieldsOk(b, s, store, done) && b.attributes.Keys <= done
    requires n in b.blockTypes && n in s && BlockMayFail(b.blockTypes[n], s[n], Against(store), kind)
    ensures kind == Error ==> Maps(b, name, s, store, Fail(message))
    ensures kind == Retry && message != "" ==> Maps(b, name, s, store, Later(message))
  {
    assert AttributesOk(b, s, Against(store)) by {
      forall a | a in b.attributes && a in s ensures AttrOk(b.attributes[a].attrType, s[a], Against(store)) {
        assert FieldOk(b, s, Against(store), a);
      }
    }
  }

  /** One nested block of the schema, absent, object-shaped or array-shaped in the spec. */
  method MapBlock(
    b: Block, before: map<Bytes, Value>, s: Spec, store: Store, n: Bytes, ghost name: Bytes, ghost done: set<Bytes>)
    returns (r: MapResult, fields: map<Bytes, Value>)
    requires WellNamed(b) && Shaped(b, s) && n in b.blockTypes && n !in done && b.attributes.Keys <= done
    requires Reached(b, name, s, store, done) == Some(before)
    ensures Progress(b, name, s, store, r, done + {n}, fields) && (!Stops(r) ==> r == GO_ON)
    decreases b, 3
  {
    r, fields := GO_ON, before;
    if n !in s {
      FieldDone(b, name, s, store, done, n);
    } else if IsObjectProperty(b.blockTypes[n]) {
      r, fields := MapObjectBlock(b, before, s, store, n, name, done);
    } else {
      r, fields := MapArrayBlock(b, before, s, store, n, name, done);
    }
  }

  method MapObjectBlock(
    b: Block, before: map<Bytes, Value>, s: Spec, store: Store, n: Bytes, ghost name: Bytes, ghost done: set<Bytes>)
    returns (r: MapResult, fields: map<Bytes, Value>)
    requires WellNamed(b) && Shaped(b, s) && n in b.blockTypes && n in s && n !in done && b.attributes.Keys <= done
    requires IsObjectProperty(b.blockTypes[n]) && Reached(b, name, s, store, done) == Some(before)
    ensures Progress(b, name, s, store, r, done + {n}, fields) && (!Stops(r) ==> r == GO_ON)
    decreases b, 2
  {
    var nb := b.blockTypes[n];
    r, fields := GO_ON, before;
    assert BlockShaped(nb, s[n]);
    var nested := MapCRDSpecValuesToTerraformConfig(nb.block, ObjectV(StartFields(nb.block, n)), s[n].fields, store, n);
    if nested.error.Some? {
      NestedFailure(b, name, s, store, done, n, Error, nested.error.value);
      return Fail(nested.error.value), fields;
    }
    if nested.statusMessage != "" {
      NestedFailure(b, name, s, store, done, n, Retry, nested.statusMessage);
      return Later(nested.statusMessage), fields;
    }
    FieldDone(b, name, s, store, done, n);
    fields := fields[n := Unflatten(n, nested.value.value, nb)];
  }

  method MapArrayBlock(
    b: Block, before: map<Bytes, Value>, s: Spec, store: Store, n: Bytes, ghost name: Bytes, ghost done: set<Bytes>)
    returns (r: MapResult, fields: map<Bytes, Value>)
    requires WellNamed(b) && Shaped(b, s) && n in b.blockTypes && n in s && n !in done && b.attributes.Keys <= done
    requires !IsObjectProperty(b.blockTypes[n]) && Reached(b, name, s, store, done) == Some(before)
    ensures Progress(b, name, s, store, r, done + {n}, fields) && (!Stops(r) ==> r == GO_ON)
    decreases b, 2
  {
    var nb := b.blockTypes[n];
    r, fields := GO_ON, before;
    assert BlockShaped(nb, s[n]);
    var values;
    r, values := MapItems(nb.block, n, s[n].items, store);
    if r.error.Some? {
      NestedFailure(b, name, s, store, done, n, Error, r.error.value);
      return;
    }
    if r.statusMessage != "" {
      NestedFailure(b, name, s, store, done, n, Retry, r.statusMessage);
      return;
    }
    FieldDone(b, name, s, store, done, n);
    ItemsSameType(nb, n, s[n], store);
    if nb.nesting == List {
      fields := fields[n := ListVal(values)];
    } else if nb.nesting == Set {
      fields := fields[n := SetVal(values)];
    }
  }

  /** The items of an array-shaped block, in order, up to the first that fails. */
  method MapItems(b: Block, name: Bytes, items: seq<Json>, store: Store) returns (r: MapResult, values: seq<Value>)
    requires WellNamed(b) && forall i :: 0 <= i < |items| ==> items[i].JObject? && Shaped(b, items[i].fields)
    ensures r.error.Some? ==> r == Fail(r.error.value) && FirstItemFails(b, items, Against(store), Error)
    ensures r.error.None? && Stops(r) ==> r == Later(r.statusMessage) && FirstItemFails(b, items, Against(store), Retry)
    ensures !Stops(r) ==>
              && r == GO_ON && ItemsOk(b, items, Against(store), |items|)
              && values == ItemValues(b, name, items, Against(store))
    decreases b, 6
  {
    values := [];
    for i := 0 to |items|
      invariant |values| == i && ItemsOk(b, items, Against(store), i)
      invariant forall m :: 0 <= m < i ==> values[m] == ObjectV(Config(b, name, Fields(items[m]), Against(store)))
    {
      var item := MapCRDSpecValuesToTerraformConfig(b, ObjectV(StartFields(b, name)), items[i].fields, store, name);
      if item.error.Some? { return Fail(item.error.value), []; }
      if item.statusMessage != "" { return Later(item.statusMessage), []; }
      values := values + [item.value.value];
    }
    r := GO_ON;
  }

  /** cty.ListVal and cty.SetVal are called on values of one type. */
  lemma ItemsSameType(nb: NestedBlock, name: Bytes, j: Json, store: Store)
    requires WellNamed(nb.block) && !IsObjectProperty(nb) && BlockShaped(nb, j) && BlockOk(nb, j, Against(store))
    ensures nb.nesting != Map ==>
              j.items != [] && SameType(Members(ItemValues(nb.block, name, j.items, Against(store))))
  {
    if nb.nesting != Map {
      var values := ItemValues(nb.block, name, j.items, Against(store));
      forall i | 0 <= i < |values| ensures TypeOf(values[i]) == SuppliedType(nb.block, FirstItem(j)) {
        ConfigType(nb.block, name, Fields(j.items[i]), Against(store));
        SameTypeIffSameShape(nb.block, FirstItem(j), Fields(j.items[i]));
      }
    }
  }
}
