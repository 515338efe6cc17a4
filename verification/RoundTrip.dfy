/**
 From a spec to a configuration, through a provider that keeps what it was given, and back to the
 status: what the status shows at each place that the spec supplies is what the spec says there,
 with references resolved, and sensitive texts once decoded (reconcile.go:363-448, 719-926,
 964-1017).
 */
module RoundTrip {
  import opened GoStrings
  import opened Cty
  import opened BlockSchema
  import opened References
  import opened AttributeMapping
  import opened SpecMapping
  import opened PropertySearch
  import opened StateCodec
  import opened StatusMapping
  import opened StatusTyping
  import StatusMethods
  import Api = OpenApi

  // ---------------------------------------------------------------- flatten and unflatten

  /** Flattening undoes unflattening, for every nesting mode. */
  lemma FlattenUndoesUnflatten(name: Bytes, x: Value, nb: NestedBlock, flattened: StatusMethods.Flattened)
    requires IsObjectProperty(nb) && StatusMethods.FlattensTo(Unflatten(name, x, nb), nb, flattened)
    ensures !flattened.Panics? && StatusMethods.Inner(Unflatten(name, x, nb), flattened) == x
  {
    match nb.nesting
    case Set => assert |{x}| == 1;
    case Map => assert name in map[name := x];
    case _ =>
  }

  // ---------------------------------------------------------------- attributes

  /** The status has what the spec has: sets up to order and duplicates, sensitive texts once decoded. */
  predicate Same(codec: Codec, sensitive: bool, t: Type, want: Json, got: Json)
    decreases t, 0
  {
    match t
    case TString =>
      && want.JString? && got.JString?
      && if sensitive then DecodeAndDecrypt(codec, got.text) == Ok(want.text) else got.text == want.text
    case TBool => want.JBool? && got == want
    case TList(e) =>
      && want.JArray? && got.JArray? && |got.items| == |want.items|
      && forall i :: 0 <= i < |want.items| ==> Same(codec, sensitive, e, want.items[i], got.items[i])
    case TSet(e) =>
      && want.JArray? && got.JArray?
      && (forall i :: 0 <= i < |want.items| ==> IsShown(codec, sensitive, e, want.items[i], got.items))
      && (forall k :: 0 <= k < |got.items| ==> IsWanted(codec, sensitive, e, want.items, got.items[k]))
    case _ => false
  }

  predicate IsShown(codec: Codec, sensitive: bool, e: Type, want: Json, got: seq<Json>)
    decreases e, 1
  {
    exists k :: 0 <= k < |got| && Same(codec, sensitive, e, want, got[k])
  }

  predicate IsWanted(codec: Codec, sensitive: bool, e: Type, want: seq<Json>, got: Json)
    decreases e, 1
  {
    exists i :: 0 <= i < |want| && Same(codec, sensitive, e, want[i], got)
  }

  lemma {:induction false} AttributeReturns(codec: Codec, sensitive: bool, t: Type, j: Json, l: Lookups, got: Json)
    requires Listed(t) && AttrOk(t, j, l) && ShowsAttribute(codec, sensitive, AttrValue(t, j, l), got)
    ensures Same(codec, sensitive, t, Substitute(t, j, l), got)
    decreases t, 1
  {
    match t
    case TList(e) =>
      var values := AttrValues(e, j.items, l);
      assert AttrValue(t, j, l) == ListV(e, values);
      forall i | 0 <= i < |j.items| ensures Same(codec, sensitive, e, Substitute(t, j, l).items[i], got.items[i]) {
        assert ShowsAttribute(codec, sensitive, values[i], got.items[i]);
        AttributeReturns(codec, sensitive, e, j.items[i], l, got.items[i]);
      }
    case TSet(e) => SetReturns(codec, sensitive, t, j, l, got);
    case _ =>
  }

  lemma {:induction false} SetReturns(codec: Codec, sensitive: bool, t: Type, j: Json, l: Lookups, got: Json)
    requires t.TSet? && Listed(t) && AttrOk(t, j, l) && ShowsAttribute(codec, sensitive, AttrValue(t, j, l), got)
    ensures Same(codec, sensitive, t, Substitute(t, j, l), got)
    decreases t, 0
  {
    var v := AttrValue(t, j, l);
    var order: seq<Value> :| Enumerates(order, v.members) && ShowsInOrder(codec, sensitive, order, v, got.items);
    MembersReturn(codec, sensitive, t.elem, j.items, l, order, v, got.items);
  }

  /** A member and an item that it comes from. */
  predicate Pairs(values: seq<Value>, order: seq<Value>, i: int, k: int) {
    0 <= i < |values| && 0 <= k < |order| && values[i] == order[k]
  }

  ghost predicate HasMember(values: seq<Value>, order: seq<Value>, i: int) {
    exists k :: Pairs(values, order, i, k)
  }

  ghost predicate HasItem(values: seq<Value>, order: seq<Value>, k: int) {
    exists i :: Pairs(values, order, i, k)
  }

  lemma EveryonePaired(values: seq<Value>, order: seq<Value>)
    requires Enumerates(order, Members(values))
    ensures forall i :: 0 <= i < |values| ==> HasMember(values, order, i)
    ensures forall k :: 0 <= k < |order| ==> HasItem(values, order, k)
  {
    forall i | 0 <= i < |values| ensures HasMember(values, order, i) {
      assert values[i] in Members(values);
      var k :| 0 <= k < |order| && order[k] == values[i];
      assert Pairs(values, order, i, k);
    }
    forall k | 0 <= k < |order| ensures HasItem(values, order, k) {
      assert order[k] in Members(values);
      var i :| 0 <= i < |values| && values[i] == order[k];
      assert Pairs(values, order, i, k);
    }
  }

  lemma {:induction false} MembersReturn(
    codec: Codec, sensitive: bool, e: Type, items: seq<Json>, l: Lookups, order: seq<Value>, v: Value, got: seq<Json>)
    requires Listed(e) && (forall i :: 0 <= i < |items| ==> AttrOk(e, items[i], l))
    requires v == SetV(e, Members(AttrValues(e, items, l))) && Enumerates(order, v.members)
    requires ShowsInOrder(codec, sensitive, order, v, got)
    ensures Same(codec, sensitive, TSet(e), JArray(SubstituteAll(e, items, l)), JArray(got))
    decreases e, 2
  {
    var values, want := AttrValues(e, items, l), SubstituteAll(e, items, l);
    EveryonePaired(values, order);
    forall i, k | Pairs(values, order, i, k) ensures Same(codec, sensitive, e, want[i], got[k]) {
      MemberShown(codec, sensitive, order, v, got, k);
      AttributeReturns(codec, sensitive, e, items[i], l, got[k]);
    }
    AllPaired(codec, sensitive, e, values, order, want, got);
  }

  lemma MemberShown(codec: Codec, sensitive: bool, order: seq<Value>, v: Value, got: seq<Json>, k: nat)
    requires v.SetV? && Enumerates(order, v.members) && ShowsInOrder(codec, sensitive, order, v, got) && k < |order|
    ensures k < |got| && ShowsAttribute(codec, sensitive, order[k], got[k])
  {
  }

  lemma AllPaired(
    codec: Codec, sensitive: bool, e: Type, values: seq<Value>, order: seq<Value>, want: seq<Json>, got: seq<Json>)
    requires |want| == |values| && |got| == |order|
    requires forall i, k :: Pairs(values, order, i, k) ==> Same(codec, sensitive, e, want[i], got[k])
    requires forall i :: 0 <= i < |values| ==> HasMember(values, order, i)
    requires forall k :: 0 <= k < |order| ==> HasItem(values, order, k)
    ensures Same(codec, sensitive, TSet(e), JArray(want), JArray(got))
  {
    forall i | 0 <= i < |want| ensures IsShown(codec, sensitive, e, want[i], got) {
      var k :| HasMember(values, order, i) && Pairs(values, order, i, k);
      assert Same(codec, sensitive, e, want[i], got[k]);
    }
    forall k | 0 <= k < |got| ensures IsWanted(codec, sensitive, e, want, got[k]) {
      var i :| HasItem(values, order, k) && Pairs(values, order, i, k);
      assert Same(codec, sensitive, e, want[i], got[k]);
    }
  }

  // ---------------------------------------------------------------- blocks

  /** The names that a spec supplies as attributes or as blocks, but for those that the mapping drops. */
  predicate Supplies(c: Block, s: Spec, k: Bytes) {
    k in s && match Here(c, k)
              case AnAttribute(_) => true
              case ABlock(nb) => !Dropped(nb)
              case Nothing => false
  }

  /** The provider keeps what the configuration says; it may add to it whatever it likes. */
  ghost predicate Echoes(v: Value, c: Block, s: Spec, l: Lookups)
    decreases c, 1
  {
    v.ObjectV? && forall k :: Supplies(c, s, k) ==> k in v.fields && FieldEchoes(v.fields[k], c, s, l, k)
  }

  ghost predicate FieldEchoes(v: Value, c: Block, s: Spec, l: Lookups, k: Bytes)
    requires Supplies(c, s, k)
    decreases c, 0
  {
    match Here(c, k)
    case AnAttribute(attr) => AttrOk(attr.attrType, s[k], l) && v == AttrValue(attr.attrType, s[k], l)
    case ABlock(nb) => BlockEchoes(v, c.blockTypes[k], s[k], l)
  }

  /** The one object; or the items, in order in a list, all of them and no others in a set. */
  ghost predicate BlockEchoes(v: Value, nb: NestedBlock, j: Json, l: Lookups)
    decreases nb
  {
    if IsObjectProperty(nb) then
      exists name, x :: v == Unflatten(name, x, nb) && Echoes(x, nb.block, Fields(j), l)
    else if nb.nesting == List then
      && v.ListV? && |v.items| == |Items(j)|
      && forall i :: 0 <= i < |v.items| ==> Echoes(v.items[i], nb.block, Fields(Items(j)[i]), l)
    else
      && v.SetV?
      && (forall i :: 0 <= i < |Items(j)| ==> ItemEchoed(nb.block, Items(j)[i], l, v.members))
      && (forall m :: m in v.members ==> MemberEchoes(nb.block, Items(j), l, m))
  }

  ghost predicate ItemEchoed(b: Block, j: Json, l: Lookups, members: set<Value>)
    decreases b, 2
  {
    exists m :: m in members && Echoes(m, b, Fields(j), l)
  }

  ghost predicate MemberEchoes(b: Block, items: seq<Json>, l: Lookups, m: Value)
    decreases b, 2
  {
    exists i :: 0 <= i < |items| && Echoes(m, b, Fields(items[i]), l)
  }

  /** At every supplied place, the status has what the spec has. */
  ghost predicate Returns(codec: Codec, c: Block, s: Spec, l: Lookups, j: Json)
    decreases c, 1
  {
    j.JObject? && forall k :: Supplies(c, s, k) ==> k in j.fields && FieldReturns(codec, c, s, l, k, j.fields[k])
  }

  ghost predicate FieldReturns(codec: Codec, c: Block, s: Spec, l: Lookups, k: Bytes, j: Json)
    requires Supplies(c, s, k)
    decreases c, 0
  {
    match Here(c, k)
    case AnAttribute(attr) => Same(codec, attr.sensitive, attr.attrType, Substitute(attr.attrType, s[k], l), j)
    case ABlock(nb) =>
      if IsObjectProperty(nb) then Returns(codec, c.blockTypes[k].block, Fields(s[k]), l, j)
      else Counted(nb, Items(s[k]), j)
  }

  /** Of items in an array only their number comes back, of a set at least whether there are any. */
  predicate Counted(nb: NestedBlock, items: seq<Json>, j: Json) {
    && j.JArray? && Empties(j, |j.items|)
    && if nb.nesting == List then |j.items| == |items| else j.items == [] <==> items == []
  }

  // ---------------------------------------------------------------- configurations

  /** The configuration itself is such a state. */
  lemma {:induction false} ConfigEchoes(c: Block, name: Bytes, s: Spec, l: Lookups)
    requires WellNamed(c) && SpecOk(c, s, l) && Shaped(c, s)
    ensures Echoes(ObjectV(Config(c, name, s, l)), c, s, l)
    decreases c, 1
  {
    var config := Config(c, name, s, l);
    forall k | Supplies(c, s, k) ensures k in config && FieldEchoes(config[k], c, s, l, k) {
      assert config[k] == Field(c, name, s, l, k);
      if k in c.attributes {
        AttrValueType(c.attributes[k].attrType, s[k], l);
      } else {
        ConfigBlockEchoes(c.blockTypes[k], k, s[k], l);
      }
    }
  }

  lemma {:induction false} ConfigBlockEchoes(nb: NestedBlock, k: Bytes, j: Json, l: Lookups)
    requires WellNamed(nb.block) && !Dropped(nb) && BlockOk(nb, j, l) && BlockShaped(nb, j)
    ensures BlockEchoes(BlockValue(nb, k, j, l), nb, j, l)
    decreases nb
  {
    if IsObjectProperty(nb) {
      ConfigEchoes(nb.block, k, j.fields, l);
      assert BlockValue(nb, k, j, l) == Unflatten(k, ObjectV(Config(nb.block, k, j.fields, l)), nb);
    } else {
      ConfigItemsEcho(nb, k, j, l);
    }
  }

  lemma {:induction false} ConfigItemsEcho(nb: NestedBlock, k: Bytes, j: Json, l: Lookups)
    requires WellNamed(nb.block) && !Dropped(nb) && !IsObjectProperty(nb) && BlockOk(nb, j, l) && BlockShaped(nb, j)
    ensures BlockEchoes(BlockValue(nb, k, j, l), nb, j, l)
    decreases nb.block, 2
  {
    var values := ItemValues(nb.block, k, j.items, l);
    forall i | 0 <= i < |values| ensures Echoes(values[i], nb.block, Fields(Items(j)[i]), l) {
      ConfigEchoes(nb.block, k, Fields(j.items[i]), l);
    }
    if nb.nesting == Set { MembersEcho(nb.block, Items(j), l, values); }
  }

  lemma MembersEcho(b: Block, items: seq<Json>, l: Lookups, values: seq<Value>)
    requires |values| == |items|
    requires forall i :: 0 <= i < |values| ==> Echoes(values[i], b, Fields(items[i]), l)
    ensures forall i :: 0 <= i < |items| ==> ItemEchoed(b, items[i], l, Members(values))
    ensures forall m :: m in Members(values) ==> MemberEchoes(b, items, l, m)
  {
    forall i | 0 <= i < |items| ensures ItemEchoed(b, items[i], l, Members(values)) {
      assert values[i] in Members(values);
    }
  }

  // ---------------------------------------------------------------- the round trip

  /** What is shown of a state that keeps the configuration is what the spec says. */
  lemma {:induction false} StatusReturnsSpec(codec: Codec, c: Block, s: Spec, l: Lookups, v: Value, j: Json)
    requires UniqueNames(c) && Supported(c)
    requires Echoes(v, c, s, l) && ShowsObject(codec, v, c, j)
    ensures Returns(codec, c, s, l, j)
    decreases c, 1
  {
    forall k | Supplies(c, s, k) ensures k in j.fields && FieldReturns(codec, c, s, l, k, j.fields[k]) {
      assert FieldEchoes(v.fields[k], c, s, l, k);
      EchoIsShown(codec, c, s, l, v, j, k);
      match Here(c, k)
      case AnAttribute(attr) => AttributeReturns(codec, attr.sensitive, attr.attrType, s[k], l, j.fields[k]);
      case ABlock(nb) =>
        if IsObjectProperty(nb) {
          BlockReturns(codec, c.blockTypes[k], v.fields[k], s[k], l, j.fields[k]);
        } else {
          ItemsCounted(codec, nb, v.fields[k], s[k], l, j.fields[k]);
        }
    }
  }

  /** What is kept is not null, and what is not null does not vanish. */
  lemma EchoIsShown(codec: Codec, c: Block, s: Spec, l: Lookups, v: Value, j: Json, k: Bytes)
    requires UniqueNames(c) && Supplies(c, s, k)
    requires v.ObjectV? && k in v.fields && FieldEchoes(v.fields[k], c, s, l, k) && ShowsObject(codec, v, c, j)
    ensures k in j.fields && Shows(codec, v.fields[k], Here(c, k), j.fields[k])
  {
    match Here(c, k)
    case AnAttribute(attr) => AttrValueType(attr.attrType, s[k], l);
    case ABlock(nb) => BlockIsKept(nb, v.fields[k], s[k], l);
  }

  lemma BlockIsKept(nb: NestedBlock, v: Value, j: Json, l: Lookups)
    requires BlockEchoes(v, nb, j, l)
    ensures !v.NullV?
  {
  }

  lemma {:induction false} BlockReturns(codec: Codec, nb: NestedBlock, v: Value, j: Json, l: Lookups, got: Json)
    requires IsObjectProperty(nb) && UniqueNames(nb.block) && Supported(nb.block)
    requires BlockEchoes(v, nb, j, l) && ShowsBlock(codec, v, nb, got)
    ensures Returns(codec, nb.block, Fields(j), l, got)
    decreases nb
  {
    var name, x :| v == Unflatten(name, x, nb) && Echoes(x, nb.block, Fields(j), l);
    UnflattenedShown(codec, name, x, nb, got);
    StatusReturnsSpec(codec, nb.block, Fields(j), l, x, got);
  }

  lemma {:induction false} AllKept(items: seq<Value>)
    requires forall i :: 0 <= i < |items| ==> !items[i].NullV?
    ensures NonNull(items) == items
  {
    if items != [] { AllKept(items[..|items| - 1]); }
  }

  lemma ItemsCounted(codec: Codec, nb: NestedBlock, v: Value, j: Json, l: Lookups, got: Json)
    requires !IsObjectProperty(nb) && !Dropped(nb) && BlockEchoes(v, nb, j, l) && ShowsBlock(codec, v, nb, got)
    ensures Counted(nb, Items(j), got)
  {
    if v.ListV? {
      AllKept(v.items);
    } else {
      forall m | m in v.members ensures !m.NullV? { assert MemberEchoes(nb.block, Items(j), l, m); }
      assert NonNullMembers(v.members) == v.members;
      if Items(j) != [] { assert ItemEchoed(nb.block, Items(j)[0], l, v.members); }
      if v.members != {} {
        var m :| m in v.members;
        assert MemberEchoes(nb.block, Items(j), l, m);
      }
    }
  }

  lemma UnflattenedShown(codec: Codec, name: Bytes, x: Value, nb: NestedBlock, j: Json)
    requires IsObjectProperty(nb) && x.ObjectV? && ShowsBlock(codec, Unflatten(name, x, nb), nb, j)
    ensures ShowsObject(codec, x, nb.block, j)
  {
    match nb.nesting
    case List => assert [x][0] == x;
    case Set => assert |{x}| == 1;
    case Map => assert name in map[name := x];
    case _ =>
  }

  // ---------------------------------------------------------------- the whole status

  /** The part of an updated status that shows the value. */
  ghost function ShownPart(fields: map<Bytes, Value>, b: Block, after: map<Bytes, Json>): map<Bytes, Json> {
    map k | k in ShownKeys(fields, b) && k in after :: after[k]
  }

  lemma UpdatedShows(codec: Codec, v: Value, b: Block, before: map<Bytes, Json>, after: map<Bytes, Json>)
    requires v.ObjectV? && StatusMethods.StatusUpdated(codec, v.fields, b, before, after, v.fields.Keys)
    ensures ShowsObject(codec, v, b, JObject(ShownPart(v.fields, b, after)))
  {
  }

  lemma ReturnsInLarger(codec: Codec, c: Block, s: Spec, l: Lookups, part: map<Bytes, Json>, all: map<Bytes, Json>)
    requires Returns(codec, c, s, l, JObject(part)) && part.Keys <= all.Keys &&
               forall k :: k in part ==> all[k] == part[k]
    ensures Returns(codec, c, s, l, JObject(all))
  {
  }

  /**
   What an updated status shows of the value conforms to the schema of either side; and nothing that
   the schema requires is missing exactly if the value is filled.
   */
  lemma UpdatedConforms(
    root: Api.Schema, codec: Codec, v: Value, b: Block, before: map<Bytes, Json>, after: map<Bytes, Json>,
    side: Api.Side, complete: bool)
    requires PlainTypes(b) && UniqueNames(b) && FitsObject(root, v, b) && (complete ==> OneEntry(v, b))
    requires StatusMethods.StatusUpdated(codec, v.fields, b, before, after, v.fields.Keys)
    ensures Api.BlockTypesOk(b) && Api.BlockFollowable(b)
    ensures Api.Validates(complete, Api.BlockSchemaOn(b, side), JObject(ShownPart(v.fields, b, after))) <==>
            (complete ==> Filled(v, b, side))
  {
    UpdatedShows(codec, v, b, before, after);
    ObjectConforms(root, codec, v, b, JObject(ShownPart(v.fields, b, after)), side, complete);
  }

  /**
   The state that comes from a spec, written to a custom resource by a reconciler that was given
   the resource's own schema: there is no error, and the status has what the spec has.
   */
  method ShowEcho(
    name: Bytes, b: Block, codec: Codec, s: Spec, l: Lookups, v: Value, crd: StatusMethods.Unstructured)
    returns (error: Option<string>)
    requires Mappable(b) && Supported(b) && StatusMethods.MayHaveStatus(crd.content)
    requires v.ObjectV? && Echoes(v, b, s, l)
    modifies crd
    ensures FitsObject(RootOf(name, b), v, b) ==>
              && error.None? && "status" in crd.content && Returns(codec, b, s, l, crd.content["status"])
              && crd.content == old(crd.content)["status" := crd.content["status"]]
    ensures RefusesObject(RootOf(name, b), v, Some(b)) ==> error.Some? && crd.content == old(crd.content)
  {
    KnowsAlong(name, b, []);
    PlainIsDescribed(b);
    var r := StatusMethods.Reconciler(AsSchema(Api.RootSchema(name, b)), codec);
    ghost var before := StatusMethods.StatusFields(crd.content);
    error := StatusMethods.MapTerraformValuesToCRDStatus(r, b, v, crd);
    if RefusesObject(RootOf(name, b), v, Some(b)) {
      RefusedFields(RootOf(name, b), v, b);
    }
    if FitsObject(RootOf(name, b), v, b) {
      UpdatedReturns(codec, b, s, l, v, before, crd.content["status"].fields);
    }
  }

  lemma RefusedFields(root: Api.Schema, v: Value, b: Block)
    requires Knows(root, b) && RefusesObject(root, v, Some(b))
    ensures StatusMethods.FieldsRefused(root, v.fields, Some(b))
  {
    var k :| k in v.fields && RefusesField(root, v.fields[k], k, Some(b));
    assert StatusMethods.EntryRefused(root, v.fields[k], k, Some(b));
  }

  lemma UpdatedReturns(
    codec: Codec, b: Block, s: Spec, l: Lookups, v: Value, before: map<Bytes, Json>, after: map<Bytes, Json>)
    requires UniqueNames(b) && Supported(b) && Echoes(v, b, s, l)
    requires StatusMethods.StatusUpdated(codec, v.fields, b, before, after, v.fields.Keys)
    ensures Returns(codec, b, s, l, JObject(after))
  {
    UpdatedShows(codec, v, b, before, after);
    var part := ShownPart(v.fields, b, after);
    StatusReturnsSpec(codec, b, s, l, v, JObject(part));
    ReturnsInLarger(codec, b, s, l, part, after);
  }
}
