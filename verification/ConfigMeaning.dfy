/**
 What a configuration says, read off the spec and the schema: every attribute that is supplied has its
 value, every nested block has its contents, in order where there is one, and what is not supplied is
 null or empty (reconcile.go:350-448, 450-572, 964-986).
 */
module ConfigMeaning {
  import opened GoStrings
  import opened Cty
  import opened BlockSchema
  import opened References
  import opened AttributeMapping
  import opened SpecMapping

  // ---------------------------------------------------------------- attributes

  /** The text itself, or what the reference that it is resolves to. */
  predicate TextMeans(l: Lookups, given: Bytes, text: Bytes) {
    if l.Against? && given != [] && given[0] == '`' then Resolve(l.store, given) == Text(text) else text == given
  }

  /** The value of an attribute of this type says what the JSON value says. */
  predicate AttributeMeans(t: Type, j: Json, l: Lookups, v: Value)
    decreases t, 0
  {
    match t
    case TString => j.JString? && v.StringV? && TextMeans(l, j.text, v.text)
    case TBool => j.JBool? && v == BoolV(j.flag)
    case TList(e) =>
      && j.JArray? && v.ListV? && v.listElem == e && |v.items| == |j.items|
      && forall i :: 0 <= i < |j.items| ==> AttributeMeans(e, j.items[i], l, v.items[i])
    case TSet(e) =>
      && j.JArray? && v.SetV? && v.setElem == e
      && (forall i :: 0 <= i < |j.items| ==> IsMember(e, j.items[i], l, v.members))
      && (forall m :: m in v.members ==> IsGiven(e, j.items, l, m))
    case TMap(e) =>
      && j.JObject? && v.MapV? && v.mapElem == e && v.entries.Keys == j.fields.Keys
      && forall k :: k in j.fields ==> AttributeMeans(e, j.fields[k], l, v.entries[k])
    case _ => false
  }

  predicate IsMember(e: Type, j: Json, l: Lookups, members: set<Value>)
    decreases e, 1
  {
    exists m :: m in members && AttributeMeans(e, j, l, m)
  }

  predicate IsGiven(e: Type, items: seq<Json>, l: Lookups, m: Value)
    decreases e, 1
  {
    exists i :: 0 <= i < |items| && AttributeMeans(e, items[i], l, m)
  }

  lemma {:induction false} AttributeValueMeans(t: Type, j: Json, l: Lookups)
    requires AttrOk(t, j, l)
    ensures AttributeMeans(t, j, l, AttrValue(t, j, l))
    decreases t
  {
    match t
    case TList(e) => forall i | 0 <= i < |j.items| { AttributeValueMeans(e, j.items[i], l); }
    case TSet(e) =>
      var values := AttrValues(e, j.items, l);
      forall i | 0 <= i < |values| ensures AttributeMeans(e, j.items[i], l, values[i]) {
        AttributeValueMeans(e, j.items[i], l);
      }
      SetMeans(e, j.items, l, values);
    case TMap(e) => forall k | k in j.fields { AttributeValueMeans(e, j.fields[k], l); }
    case _ =>
  }

  lemma SetMeans(e: Type, items: seq<Json>, l: Lookups, values: seq<Value>)
    requires |values| == |items| && forall i :: 0 <= i < |values| ==> AttributeMeans(e, items[i], l, values[i])
    ensures AttributeMeans(TSet(e), JArray(items), l, SetV(e, Members(values)))
  {
    forall i | 0 <= i < |items| { ItemIsIn(e, items[i], l, values, i); }
    forall m | m in Members(values) { MemberIsFrom(e, items, l, values, m); }
  }

  lemma ItemIsIn(e: Type, j: Json, l: Lookups, values: seq<Value>, i: nat)
    requires i < |values| && AttributeMeans(e, j, l, values[i])
    ensures IsMember(e, j, l, Members(values))
  {
    assert values[i] in Members(values);
  }

  lemma MemberIsFrom(e: Type, items: seq<Json>, l: Lookups, values: seq<Value>, m: Value)
    requires |values| == |items| && forall i :: 0 <= i < |values| ==> AttributeMeans(e, items[i], l, values[i])
    requires m in Members(values)
    ensures IsGiven(e, items, l, m)
  {
    var i :| 0 <= i < |values| && values[i] == m;
  }

  // ---------------------------------------------------------------- what is not supplied

  /** The empty value of a block: null attributes, and blocks that are null or empty. */
  predicate IsEmptyBlock(b: Block, v: Value)
    decreases b
  {
    && v.ObjectV? && v.fields.Keys == b.attributes.Keys + b.blockTypes.Keys
    && (forall a :: a in b.attributes && a !in b.blockTypes ==> v.fields[a] == NullV(b.attributes[a].attrType))
    && (forall n :: n in b.blockTypes ==> IsEmptyNested(b.blockTypes[n], v.fields[n]))
  }

  predicate IsEmptyNested(nb: NestedBlock, v: Value)
    decreases nb
  {
    match nb.nesting
    case Single => v == NullV(ImpliedType(nb.block))
    case Group => IsEmptyBlock(nb.block, v)
    case List => v == ListV(ImpliedType(nb.block), [])
    case Set => v == SetV(ImpliedType(nb.block), {})
    case Map => v == MapV(ImpliedType(nb.block), map[])
  }

  lemma {:induction false} EmptyIsEmpty(b: Block)
    ensures IsEmptyBlock(b, EmptyValue(b))
    decreases b
  {
    forall n | n in b.blockTypes { EmptyNestedIsEmpty(b.blockTypes[n]); }
  }

  lemma {:induction false} EmptyNestedIsEmpty(nb: NestedBlock)
    ensures IsEmptyNested(nb, EmptyNested(nb))
    decreases nb
  {
    if nb.nesting == Group { EmptyIsEmpty(nb.block); }
  }

  // ---------------------------------------------------------------- blocks

  /** The object is what this spec of the block, under this name, says. */
  ghost predicate ObjectMeans(b: Block, name: Bytes, s: Spec, l: Lookups, v: Value)
    decreases b, 1
  {
    && v.ObjectV? && v.fields.Keys == b.attributes.Keys + b.blockTypes.Keys + {DISPLAY_NAME}
    && forall k :: k in v.fields ==> FieldMeans(b, name, s, l, k, v.fields[k])
  }

  ghost predicate FieldMeans(b: Block, name: Bytes, s: Spec, l: Lookups, k: Bytes, v: Value)
    decreases b, 0
  {
    if k in b.blockTypes then
      if k in s then BlockMeans(b.blockTypes[k], k, s[k], l, v)
      else if k == DISPLAY_NAME then v == StringV(name)
      else IsEmptyNested(b.blockTypes[k], v)
    else if k in b.attributes && k in s then AttributeMeans(b.attributes[k].attrType, s[k], l, v)
    else if k == DISPLAY_NAME then v == StringV(name)
    else k in b.attributes && v == NullV(b.attributes[k].attrType)
  }

  /**
   A block shown as an object is that object, alone in a collection if the nesting asks for one.
   The items of one shown as an array are all there: a list has them in order, a set in none.  A map
   shown as an array stays empty.
   */
  ghost predicate BlockMeans(nb: NestedBlock, name: Bytes, j: Json, l: Lookups, v: Value)
    decreases nb, 0
  {
    if IsObjectProperty(nb) then
      match nb.nesting
      case List => v.ListV? && |v.items| == 1 && ObjectMeans(nb.block, name, Fields(j), l, v.items[0])
      case Set =>
        v.SetV? && |v.members| == 1 && forall m :: m in v.members ==> ObjectMeans(nb.block, name, Fields(j), l, m)
      case Map => v.MapV? && v.entries.Keys == {name} && ObjectMeans(nb.block, name, Fields(j), l, v.entries[name])
      case _ => ObjectMeans(nb.block, name, Fields(j), l, v)
    else
      match nb.nesting
      case List =>
        v.ListV? && |v.items| == |Items(j)| &&
        forall i :: 0 <= i < |v.items| ==> ObjectMeans(nb.block, name, Fields(Items(j)[i]), l, v.items[i])
      case Set =>
        && v.SetV?
        && (forall i :: 0 <= i < |Items(j)| ==> ItemIsMember(nb.block, name, Items(j)[i], l, v.members))
        && (forall m :: m in v.members ==> MemberIsItem(nb.block, name, Items(j), l, m))
      case _ => IsEmptyNested(nb, v)
  }

  ghost predicate ItemIsMember(b: Block, name: Bytes, j: Json, l: Lookups, members: set<Value>)
    decreases b, 2
  {
    exists m :: m in members && ObjectMeans(b, name, Fields(j), l, m)
  }

  ghost predicate MemberIsItem(b: Block, name: Bytes, items: seq<Json>, l: Lookups, m: Value)
    decreases b, 2
  {
    exists i :: 0 <= i < |items| && ObjectMeans(b, name, Fields(items[i]), l, m)
  }

  // ---------------------------------------------------------------- the mapping

  /** Every configuration that the mapping makes says what the spec says. */
  lemma {:induction false} ConfigMeans(b: Block, name: Bytes, s: Spec, l: Lookups)
    requires WellNamed(b) && SpecOk(b, s, l) && Shaped(b, s)
    ensures ObjectMeans(b, name, s, l, ObjectV(Config(b, name, s, l)))
    decreases b, 1
  {
    var c := Config(b, name, s, l);
    forall k | k in c ensures FieldMeans(b, name, s, l, k, c[k]) {
      FieldValueMeans(b, name, s, l, k);
    }
  }

  lemma {:induction false} FieldValueMeans(b: Block, name: Bytes, s: Spec, l: Lookups, k: Bytes)
    requires WellNamed(b) && Shaped(b, s) && k in StartFields(b, name) && FieldOk(b, s, l, k)
    ensures FieldMeans(b, name, s, l, k, Field(b, name, s, l, k))
    decreases b, 0
  {
    if k in b.blockTypes && k in s {
      BlockValueMeans(b.blockTypes[k], k, s[k], l);
    } else if k in b.attributes && k in s {
      AttrValueType(b.attributes[k].attrType, s[k], l);
      AttributeValueMeans(b.attributes[k].attrType, s[k], l);
    } else {
      EmptyIsEmpty(b);
      assert k != DISPLAY_NAME ==> EmptyValue(b).fields[k] == StartFields(b, name)[k];
    }
  }

  lemma {:induction false} BlockValueMeans(nb: NestedBlock, name: Bytes, j: Json, l: Lookups)
    requires WellNamed(nb.block) && BlockOk(nb, j, l) && BlockShaped(nb, j)
    ensures BlockMeans(nb, name, j, l, BlockValue(nb, name, j, l))
    decreases nb, 0
  {
    if IsObjectProperty(nb) {
      ConfigMeans(nb.block, name, j.fields, l);
      UnflattenMeans(nb, name, j, l, ObjectV(Config(nb.block, name, j.fields, l)));
    } else if nb.nesting == Map {
      EmptyNestedIsEmpty(nb);
    } else {
      ItemsMean(nb, name, j, l);
    }
  }

  lemma UnflattenMeans(nb: NestedBlock, name: Bytes, j: Json, l: Lookups, x: Value)
    requires IsObjectProperty(nb) && ObjectMeans(nb.block, name, Fields(j), l, x)
    ensures BlockMeans(nb, name, j, l, Unflatten(name, x, nb))
  {
  }

  lemma {:induction false} ItemsMean(nb: NestedBlock, name: Bytes, j: Json, l: Lookups)
    requires WellNamed(nb.block) && !IsObjectProperty(nb) && nb.nesting != Map
    requires BlockOk(nb, j, l) && BlockShaped(nb, j)
    ensures BlockMeans(nb, name, j, l, BlockValue(nb, name, j, l))
    decreases nb.block, 2
  {
    var values := ItemValues(nb.block, name, j.items, l);
    forall i | 0 <= i < |values| ensures ObjectMeans(nb.block, name, Fields(Items(j)[i]), l, values[i]) {
      ConfigMeans(nb.block, name, Fields(j.items[i]), l);
    }
    if nb.nesting == Set { MembersMean(nb.block, name, Items(j), l, values); }
  }

  lemma MembersMean(b: Block, name: Bytes, items: seq<Json>, l: Lookups, values: seq<Value>)
    requires |values| == |items|
    requires forall i :: 0 <= i < |values| ==> ObjectMeans(b, name, Fields(items[i]), l, values[i])
    ensures forall i :: 0 <= i < |items| ==> ItemIsMember(b, name, items[i], l, Members(values))
    ensures forall m :: m in Members(values) ==> MemberIsItem(b, name, items, l, m)
  {
    forall i | 0 <= i < |items| ensures ItemIsMember(b, name, items[i], l, Members(values)) {
      assert values[i] in Members(values);
    }
  }
}
