/**
 From a spec to a Terraform configuration (reconcile.go:350-448), by recursion on the block
 schema: when the mapping succeeds and what it yields, whatever the order in which attributes
 and blocks are visited.
 */
module SpecMapping {
  import opened GoStrings
  import opened Cty
  import opened BlockSchema
  import opened References
  import opened AttributeMapping

  type Spec = map<Bytes, Json>

  // ---------------------------------------------------------------- JSON at the place of a block

  function Fields(j: Json): (s: Spec)
    ensures j.JObject? ==> s == j.fields
  {
    if j.JObject? then j.fields else map[]
  }

  function Items(j: Json): (s: seq<Json>)
    ensures j.JArray? ==> s == j.items
  {
    if j.JArray? then j.items else []
  }

  /** The spec of the first item of an array-shaped block. */
  function FirstItem(j: Json): Spec {
    if Items(j) != [] then Fields(Items(j)[0]) else map[]
  }

  // ---------------------------------------------------------------- the tree of supplied blocks

  function At(s: Spec, n: Bytes): Json {
    if n in s then s[n] else JNull
  }

  /** The spec of a supplied block; of its first item, if it is shown as an array. */
  function SpecAt(nb: NestedBlock, j: Json): Spec {
    if IsObjectProperty(nb) then Fields(j) else FirstItem(j)
  }

  /** A map of blocks that is shown as an array is dropped, so it does not matter if it is supplied. */
  predicate Dropped(nb: NestedBlock) {
    !IsObjectProperty(nb) && nb.nesting == Map
  }

  /** Supplying the block adds no display_name, because it and all that is supplied in it have one. */
  predicate Unmarked(b: Block, s: Spec)
    decreases b
  {
    DISPLAY_NAME in b.attributes.Keys + b.blockTypes.Keys &&
    forall n :: n in b.blockTypes && n in s && !Dropped(b.blockTypes[n]) ==>
      Unmarked(b.blockTypes[n].block, SpecAt(b.blockTypes[n], s[n]))
  }

  /** The same nested blocks are supplied in both, but for those where it makes no difference. */
  predicate SameShape(b: Block, s: Spec, t: Spec)
    decreases b, 1
  {
    forall n :: n in b.blockTypes ==> BlockSameShape(b.blockTypes[n], n in s, n in t, At(s, n), At(t, n))
  }

  predicate BlockSameShape(nb: NestedBlock, given1: bool, given2: bool, j: Json, k: Json)
    decreases nb, 0
  {
    if Dropped(nb) then true
    else if given1 && given2 then SameShape(nb.block, SpecAt(nb, j), SpecAt(nb, k))
    else (given1 ==> Unmarked(nb.block, SpecAt(nb, j))) && (given2 ==> Unmarked(nb.block, SpecAt(nb, k)))
  }

  /**
   What the Go code takes for granted, and panics without: objects and arrays where the schema
   has blocks, no empty collections, and items of an array-shaped block of one shape.
   */
  predicate Shaped(b: Block, s: Spec)
    decreases b, 1
  {
    && (forall a :: a in b.attributes && a in s ==> Constructible(b.attributes[a].attrType, s[a]))
    && (forall n :: n in b.blockTypes && n in s ==> BlockShaped(b.blockTypes[n], s[n]))
  }

  predicate BlockShaped(nb: NestedBlock, j: Json)
    decreases nb, 0
  {
    if IsObjectProperty(nb) then j.JObject? && Shaped(nb.block, j.fields)
    else
      && j.JArray?
      && (forall i :: 0 <= i < |j.items| ==> j.items[i].JObject? && Shaped(nb.block, j.items[i].fields))
      && (nb.nesting != Map ==>
         j.items != [] && forall i :: 0 <= i < |j.items| ==> SameShape(nb.block, FirstItem(j), Fields(j.items[i])))
  }

  // ---------------------------------------------------------------- success

  predicate SpecOk(b: Block, s: Spec, l: Lookups)
    decreases b, 2
  {
    AttributesOk(b, s, l) && forall n :: n in b.blockTypes && n in s ==> BlockOk(b.blockTypes[n], s[n], l)
  }

  predicate AttributesOk(b: Block, s: Spec, l: Lookups) {
    forall a :: a in b.attributes && a in s ==> AttrOk(b.attributes[a].attrType, s[a], l)
  }

  predicate BlockOk(nb: NestedBlock, j: Json, l: Lookups)
    decreases nb, 0
  {
    if IsObjectProperty(nb) then SpecOk(nb.block, Fields(j), l) else ItemsOk(nb.block, Items(j), l, |Items(j)|)
  }

  predicate ItemsOk(b: Block, items: seq<Json>, l: Lookups, n: nat)
    requires n <= |items|
    decreases b, 3
  {
    forall i :: 0 <= i < n ==> SpecOk(b, Fields(items[i]), l)
  }

  // ---------------------------------------------------------------- the configuration

  /** The two checks after an attribute is mapped; AttributeMapping.AttrValueType: never taken. */
  predicate Skipped(v: Value) {
    v.NullV? || IsEmpty(v)
  }

  function Unflatten(name: Bytes, v: Value, nb: NestedBlock): Value {
    match nb.nesting
    case List => ListV(TypeOf(v), [v])
    case Set => SetV(TypeOf(v), {v})
    case Map => MapV(TypeOf(v), map[name := v])
    case _ => v
  }

  function Config(b: Block, name: Bytes, s: Spec, l: Lookups): map<Bytes, Value>
    requires SpecOk(b, s, l) && Shaped(b, s)
    decreases b, 2
  {
    map k | k in StartFields(b, name) :: Field(b, name, s, l, k)
  }

  predicate FieldOk(b: Block, s: Spec, l: Lookups, k: Bytes) {
    k in s ==>
      && (k in b.attributes ==> AttrOk(b.attributes[k].attrType, s[k], l))
      && (k in b.blockTypes ==> BlockOk(b.blockTypes[k], s[k], l) && BlockShaped(b.blockTypes[k], s[k]))
  }

  function Field(b: Block, name: Bytes, s: Spec, l: Lookups, k: Bytes): Value
    requires k in StartFields(b, name) && FieldOk(b, s, l, k)
    decreases b, 1
  {
    if k in b.blockTypes && k in s then BlockValue(b.blockTypes[k], k, s[k], l)
    else if k in b.attributes && k in s && !Skipped(AttrValue(b.attributes[k].attrType, s[k], l)) then
      AttrValue(b.attributes[k].attrType, s[k], l)
    else StartFields(b, name)[k]
  }

  function BlockValue(nb: NestedBlock, name: Bytes, j: Json, l: Lookups): Value
    requires BlockOk(nb, j, l) && BlockShaped(nb, j)
    decreases nb, 0
  {
    if IsObjectProperty(nb) then Unflatten(name, ObjectV(Config(nb.block, name, j.fields, l)), nb)
    else if nb.nesting == Map then EmptyNested(nb)
    else
      var values := ItemValues(nb.block, name, j.items, l);
      if nb.nesting == List then ListV(TypeOf(values[0]), values) else SetV(TypeOf(values[0]), Members(values))
  }

  function ItemValues(b: Block, name: Bytes, items: seq<Json>, l: Lookups): (r: seq<Value>)
    requires ItemsOk(b, items, l, |items|) && forall i :: 0 <= i < |items| ==> Shaped(b, Fields(items[i]))
    ensures |r| == |items|
    decreases b, 3
  {
    seq(|items|, i requires 0 <= i < |items| => ObjectV(Config(b, name, Fields(items[i]), l)))
  }

  // ---------------------------------------------------------------- failure

  predicate SpecMayFail(b: Block, s: Spec, l: Lookups, kind: Kind)
    decreases b, 2
  {
    || (exists a :: a in b.attributes && a in s && AttrMayFail(b.attributes[a].attrType, s[a], l, kind))
    || (AttributesOk(b, s, l) &&
       exists n :: n in b.blockTypes && n in s && BlockMayFail(b.blockTypes[n], s[n], l, kind))
  }

  predicate BlockMayFail(nb: NestedBlock, j: Json, l: Lookups, kind: Kind)
    decreases nb, 0
  {
    if IsObjectProperty(nb) then SpecMayFail(nb.block, Fields(j), l, kind)
    else FirstItemFails(nb.block, Items(j), l, kind)
  }

  predicate FirstItemFails(b: Block, items: seq<Json>, l: Lookups, kind: Kind)
    decreases b, 3
  {
    exists i :: 0 <= i < |items| && SpecMayFail(b, Fields(items[i]), l, kind) && ItemsOk(b, items, l, i)
  }

  /** At every depth, success excludes failure and no failure means success. */
  lemma {:induction false} SpecOkOrFails(b: Block, s: Spec, l: Lookups)
    ensures SpecOk(b, s, l) <==> !SpecMayFail(b, s, l, Error) && !SpecMayFail(b, s, l, Retry)
    decreases b, 2
  {
    forall a | a in b.attributes && a in s { OkOrFails(b.attributes[a].attrType, s[a], l); }
    forall n | n in b.blockTypes && n in s { BlockOkOrFails(b.blockTypes[n], s[n], l); }
  }

  lemma {:induction false} BlockOkOrFails(nb: NestedBlock, j: Json, l: Lookups)
    ensures BlockOk(nb, j, l) <==> !BlockMayFail(nb, j, l, Error) && !BlockMayFail(nb, j, l, Retry)
    decreases nb, 0
  {
    if IsObjectProperty(nb) {
      SpecOkOrFails(nb.block, Fields(j), l);
    } else {
      ItemsOkOrFail(nb.block, Items(j), l, |Items(j)|);
    }
  }

  lemma {:induction false} ItemsOkOrFail(b: Block, items: seq<Json>, l: Lookups, n: nat)
    requires n <= |items|
    ensures ItemsOk(b, items, l, n) || FirstItemFails(b, items, l, Error) || FirstItemFails(b, items, l, Retry)
    ensures ItemsOk(b, items, l, |items|) ==> !FirstItemFails(b, items, l, Error) && !FirstItemFails(b, items, l, Retry)
    decreases b, 3, n
  {
    forall i | 0 <= i < |items| { SpecOkOrFails(b, Fields(items[i]), l); }
    if n > 0 {
      ItemsOkOrFail(b, items, l, n - 1);
    }
  }
}
