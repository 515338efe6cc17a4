/**
 From a Terraform value to the status of an object: which values can be shown (Fits), what is
 shown for them (Shows), and that it conforms to the schema generated from the same block
 (reconcile.go:719-926).
 */
module StatusMapping {
  import opened GoStrings
  import opened Cty
  import opened BlockSchema
  import opened PropertySearch
  import opened StateCodec
  import Api = OpenApi

  // ---------------------------------------------------------------- values that can be shown

  /** No property anywhere has this name. */
  predicate Unknown(root: Api.Schema, k: Bytes) {
    Matches(root, k) == {}
  }

  /** A value of the attribute's type; keys of a map do not name properties. */
  predicate FitsAttribute(root: Api.Schema, v: Value, t: Type)
    decreases t
  {
    v == NullV(t) ||
    match t
    case TString => v.StringV?
    case TBool => v.BoolV?
    case TNumber => v.NumberV?
    case TList(e) => v.ListV? && v.listElem == e &&
      forall i :: 0 <= i < |v.items| ==> FitsAttribute(root, v.items[i], e)
    case TSet(e) => v.SetV? && v.setElem == e && forall m :: m in v.members ==> FitsAttribute(root, m, e)
    case TMap(e) => v.MapV? && v.mapElem == e && forall k :: k in v.entries ==> Unknown(root, k)
    case _ => false
  }

  lemma FitsHasType(root: Api.Schema, v: Value, t: Type)
    requires FitsAttribute(root, v, t)
    ensures TypeOf(v) == t
  {
  }

  ghost predicate FitsObject(root: Api.Schema, v: Value, c: Block)
    decreases v, 0
  {
    v.ObjectV? && forall k :: k in v.fields ==> FitsField(root, v.fields[k], Seek(c, k), k)
  }

  ghost predicate FitsField(root: Api.Schema, v: Value, f: Found, k: Bytes)
    decreases v, 2
  {
    match f
    case AnAttribute(attr) => FitsAttribute(root, v, attr.attrType)
    case ABlock(nb) => FitsBlock(root, v, nb)
    case Nothing => Unknown(root, k)
  }

  /** Collections that are to be flattened are not null, and array-shaped maps are not supported. */
  ghost predicate FitsBlock(root: Api.Schema, v: Value, nb: NestedBlock)
    decreases v, 1
  {
    if IsObjectProperty(nb) then
      match nb.nesting
      case List => v.ListV? && (|v.items| == 1 ==> FitsObject(root, v.items[0], nb.block))
      case Set => v.SetV? && (|v.members| == 1 ==> forall m :: m in v.members ==> FitsObject(root, m, nb.block))
      case Map =>
        v.MapV? && forall k :: k in v.entries ==> v.entries[k].NullV? || FitsObject(root, v.entries[k], nb.block)
      case _ => (v.NullV? && v.nullType.TObject?) || FitsObject(root, v, nb.block)
    else
      match nb.nesting
      case List => NullArray(v) || (v.ListV? && forall i :: 0 <= i < |v.items| ==> FitsItem(root, v.items[i]))
      case Set => NullArray(v) || (v.SetV? && forall m :: m in v.members ==> FitsItem(root, m))
      case _ => false
  }

  predicate NullArray(v: Value) {
    v.NullV? && (v.nullType.TList? || v.nullType.TSet?)
  }

  /** An item of an array-shaped block. */
  predicate FitsItem(root: Api.Schema, v: Value) {
    (v.NullV? && v.nullType.TObject?) || (v.ObjectV? && forall k :: k in v.fields ==> Unknown(root, k))
  }

  // ---------------------------------------------------------------- values that are never shown

  /** No order of maps and sets lets the mapping of this field succeed; without a block it panics. */
  ghost predicate RefusesField(root: Api.Schema, v: Value, k: Bytes, c: Option<Block>)
    decreases v, 2
  {
    !Unknown(root, k) && (c.None? || !Declares(c.value, k) || Refuses(root, v, Seek(c.value, k)))
  }

  ghost predicate RefusesObject(root: Api.Schema, v: Value, c: Option<Block>)
    decreases v, 0
  {
    v.ObjectV? && exists k :: k in v.fields && RefusesField(root, v.fields[k], k, c)
  }

  ghost predicate Refuses(root: Api.Schema, v: Value, f: Found)
    decreases v, 1
  {
    match f
    case Nothing => RefusesObject(root, v, None)
    case AnAttribute(_) =>
      (match v
       case ListV(_, items) => exists i :: 0 <= i < |items| && Refuses(root, items[i], f)
       case SetV(_, members) => exists m :: m in members && Refuses(root, m, f)
       case MapV(_, entries) => exists k :: k in entries && !Unknown(root, k)
       case _ => false)
    case ABlock(nb) =>
      if IsObjectProperty(nb) then
        match nb.nesting
        case List => NullCollection(v) || (v.ListV? && |v.items| == 1 && RefusesElement(root, v.items[0], nb.block))
        case Set => NullCollection(v) ||
          (v.SetV? && |v.members| == 1 && forall m :: m in v.members ==> RefusesElement(root, m, nb.block))
        case Map =>
          NullCollection(v) || (v.MapV? && v.entries != map[]
                       && forall k :: k in v.entries ==> RefusesObject(root, v.entries[k], Some(nb.block)))
        case _ => RefusesObject(root, v, Some(nb.block))
      else
        match v
        case ListV(_, items) => exists i :: 0 <= i < |items| && RefusesObject(root, items[i], None)
        case SetV(_, members) => exists m :: m in members && RefusesObject(root, m, None)
        case MapV(_, _) => true
        case NullV(t) => t.TMap?
        case _ => false
  }

  predicate NullCollection(v: Value) {
    v.NullV? && IsCollection(v.nullType)
  }

  /** The one element of a flattened list or set: null has no zero value there. */
  ghost predicate RefusesElement(root: Api.Schema, v: Value, c: Block)
    decreases v, 1
  {
    v.NullV? || RefusesObject(root, v, Some(c))
  }

  // ---------------------------------------------------------------- what is shown

  /** All members, each once, in some order. */
  predicate Enumerates(order: seq<Value>, members: set<Value>) {
    |order| == |members| && (forall i :: 0 <= i < |order| ==> order[i] in members) &&
      forall m :: m in members ==> m in order
  }

  /** Null gives the zero value of the type; the entries of a map are dropped. */
  ghost predicate ShowsAttribute(codec: Codec, sensitive: bool, v: Value, j: Json)
    decreases v, 1
  {
    match v
    case NullV(t) => j == Zero(t) && j != JNull
    case StringV(s) =>
      if sensitive then j.JString? && DecodeAndDecrypt(codec, j.text) == Ok(s) else j == JString(s)
    case BoolV(flag) => j == JBool(flag)
    case NumberV(x) => j == JNumber(x)
    case ListV(_, items) =>
      j.JArray? && |j.items| == |items| &&
        forall i :: 0 <= i < |items| ==> ShowsAttribute(codec, sensitive, items[i], j.items[i])
    case SetV(_, members) =>
      j.JArray? && exists order: seq<Value> :: Enumerates(order, members) &&
                     ShowsInOrder(codec, sensitive, order, v, j.items)
    case MapV(_, _) => j == JObject(map[])
    case ObjectV(_) => false
  }

  ghost predicate ShowsInOrder(codec: Codec, sensitive: bool, order: seq<Value>, v: Value, items: seq<Json>)
    requires v.SetV?
    decreases v, 0
  {
    |items| == |order| &&
      forall i :: 0 <= i < |order| && order[i] in v.members ==> ShowsAttribute(codec, sensitive, order[i], items[i])
  }

  function Zero(t: Type): Json {
    match t
    case TString => JString("")
    case TBool => JBool(false)
    case TNumber => JNumber(0.0)
    case TList(_) => JArray([])
    case TSet(_) => JArray([])
    case TMap(_) => JObject(map[])
    case _ => JNull
  }

  /** A null object is not shown at all. */
  predicate Vanishes(v: Value, f: Found) {
    f.ABlock? && IsObjectProperty(f.nb) && v.NullV?
  }

  ghost function ShownKeys(fields: map<Bytes, Value>, c: Block): set<Bytes> {
    set k | k in fields && Reaches(c, k) && !Vanishes(fields[k], Seek(c, k))
  }

  ghost predicate ShowsObject(codec: Codec, v: Value, c: Block, j: Json)
    decreases v, 0
  {
    && v.ObjectV? && j.JObject? && j.fields.Keys == ShownKeys(v.fields, c)
    && forall k :: k in j.fields ==> Shows(codec, v.fields[k], Seek(c, k), j.fields[k])
  }

  ghost predicate Shows(codec: Codec, v: Value, f: Found, j: Json)
    decreases v, 2
  {
    match f
    case AnAttribute(attr) => ShowsAttribute(codec, attr.sensitive, v, j)
    case ABlock(nb) => ShowsBlock(codec, v, nb, j)
    case Nothing => j == if v.NullV? then JNull else NO_FIELDS
  }

  const NO_FIELDS := JObject(map[])

  ghost predicate ShowsBlock(codec: Codec, v: Value, nb: NestedBlock, j: Json)
    decreases v, 1
  {
    if IsObjectProperty(nb) then
      match v
      case ListV(_, items) => if |items| == 1 then ShowsObject(codec, items[0], nb.block, j) else j == NO_FIELDS
      case SetV(_, members) => if |members| == 1
        then exists m :: m in members && ShowsObject(codec, m, nb.block, j) else j == NO_FIELDS
      case MapV(_, entries) =>
        if entries == map[] then j == NO_FIELDS
        else exists k :: k in entries && ShowsEntry(codec, entries[k], nb.block, j)
      case NullV(_) => j == JNull
      case ObjectV(_) => ShowsObject(codec, v, nb.block, j)
      case _ => false
    else
      match v
      case ListV(_, items) => Empties(j, |NonNull(items)|)
      case SetV(_, members) => Empties(j, |NonNullMembers(members)|)
      case NullV(_) => Empties(j, 0)
      case _ => false
  }

  /** The entry of a map that is shown as an object: null gives an empty object there. */
  ghost predicate ShowsEntry(codec: Codec, v: Value, c: Block, j: Json)
    decreases v, 1
  {
    if v.NullV? then j == NO_FIELDS else ShowsObject(codec, v, c, j)
  }

  /** Null items are skipped. */
  function NonNull(items: seq<Value>): seq<Value> {
    if items == [] then []
    else NonNull(items[..|items| - 1]) + if items[|items| - 1].NullV? then [] else [items[|items| - 1]]
  }

  function NonNullMembers(members: set<Value>): set<Value> {
    set m | m in members && !m.NullV?
  }

  /** The contents of array-shaped blocks are dropped, and only their number is shown. */
  predicate Empties(j: Json, n: nat) {
    j.JArray? && |j.items| == n && forall i :: 0 <= i < n ==> j.items[i] == NO_FIELDS
  }

  // ---------------------------------------------------------------- conformance

  /** The schema of a supported type requires nothing, so validation is complete or not alike. */
  lemma {:induction false} AttributeConforms(
    root: Api.Schema, codec: Codec, sensitive: bool, v: Value, t: Type, j: Json, complete: bool)
    requires Flat(t) && FitsAttribute(root, v, t) && ShowsAttribute(codec, sensitive, v, j)
    ensures Api.TypeOk(t) && Api.Followable(t) && t != Api.EMPTY_OBJECT
    ensures Api.Validates(complete, Api.TypeSchema(t).value, j)
    decreases t
  {
    FlatIsDescribed(t);
    if v.ListV? {
      forall i | 0 <= i < |v.items| {
        AttributeConforms(root, codec, sensitive, v.items[i], t.elem, j.items[i], complete);
      }
    } else if v.SetV? {
      var order: seq<Value> :| Enumerates(order, v.members) && ShowsInOrder(codec, sensitive, order, v, j.items);
      forall i | 0 <= i < |order| {
        AttributeConforms(root, codec, sensitive, order[i], t.elem, j.items[i], complete);
      }
    }
  }

  // ---------------------------------------------------------------- nothing required is missing

  /** The schema of this side of the block requires nothing. */
  predicate NothingRequired(c: Block, side: Api.Side)
    requires Api.BlockTypesOk(c) && Api.BlockFollowable(c)
  {
    Api.BlockSchemaOn(c, side).required == {}
  }

  /**
   All that this side requires is in the value and is shown: here, and in every block that is
   shown as an object.  Where an empty object is shown instead, nothing may be required.
   */
  ghost predicate Filled(v: Value, c: Block, side: Api.Side)
    requires PlainTypes(c)
    decreases v, 0
  {
    PlainIsDescribed(c);
    && v.ObjectV?
    && (forall k :: k in Api.BlockSchemaOn(c, side).required ==> k in v.fields && !Vanishes(v.fields[k], Here(c, k)))
    && (forall n :: n in c.blockTypes && n in v.fields ==> BlockFilled(v.fields[n], c.blockTypes[n], side))
  }

  ghost predicate BlockFilled(v: Value, nb: NestedBlock, side: Api.Side)
    requires PlainTypes(nb.block)
    decreases v, 1
  {
    PlainIsDescribed(nb.block);
    match v
    case ListV(_, items) =>
      if IsObjectProperty(nb) && |items| == 1 then Filled(items[0], nb.block, side)
      else (!IsObjectProperty(nb) && NonNull(items) == []) || NothingRequired(nb.block, side)
    case SetV(_, members) =>
      if IsObjectProperty(nb) && |members| == 1 then forall m :: m in members ==> Filled(m, nb.block, side)
      else (!IsObjectProperty(nb) && NonNullMembers(members) == {}) || NothingRequired(nb.block, side)
    case MapV(_, entries) =>
      if entries == map[] then NothingRequired(nb.block, side)
      else forall k :: k in entries ==>
             if entries[k].NullV? then NothingRequired(nb.block, side) else Filled(entries[k], nb.block, side)
    case NullV(_) => true
    case _ => Filled(v, nb.block, side)
  }

  /** A map of blocks that is shown as an object has one entry at most: its MaxItems is 1. */
  predicate OneEntry(v: Value, c: Block)
    decreases v, 0
  {
    v.ObjectV? ==> forall n :: n in c.blockTypes && n in v.fields ==> BlockOneEntry(v.fields[n], c.blockTypes[n])
  }

  predicate BlockOneEntry(v: Value, nb: NestedBlock)
    decreases v, 1
  {
    match v
    case ListV(_, items) => forall i :: 0 <= i < |items| ==> OneEntry(items[i], nb.block)
    case SetV(_, members) => forall m :: m in members ==> OneEntry(m, nb.block)
    case MapV(_, entries) => |entries| <= 1 && forall k :: k in entries ==> OneEntry(entries[k], nb.block)
    case _ => OneEntry(v, nb.block)
  }

  lemma EmptyConforms(c: Block, side: Api.Side, complete: bool)
    requires PlainTypes(c)
    ensures Api.BlockTypesOk(c) && Api.BlockFollowable(c)
    ensures Api.Validates(complete, Api.BlockSchemaOn(c, side), NO_FIELDS) <==> !complete || NothingRequired(c, side)
  {
    PlainIsDescribed(c);
  }

  // ---------------------------------------------------------------- conformance

  lemma RequiredIsDeclared(c: Block, side: Api.Side, k: Bytes)
    requires Api.BlockTypesOk(c) && Api.BlockFollowable(c) && k in Api.BlockSchemaOn(c, side).required
    ensures Here(c, k) != Nothing
  {
  }

  /** What is required is shown, if and only if it is in the value and does not vanish. */
  lemma RequiredShown(codec: Codec, v: Value, c: Block, j: Json, side: Api.Side)
    requires PlainTypes(c) && Api.BlockTypesOk(c) && Api.BlockFollowable(c) && ShowsObject(codec, v, c, j)
    ensures Api.BlockSchemaOn(c, side).required <= j.fields.Keys <==>
            forall k :: k in Api.BlockSchemaOn(c, side).required ==> k in v.fields && !Vanishes(v.fields[k], Here(c, k))
  {
    forall k | k in Api.BlockSchemaOn(c, side).required
      ensures k in j.fields <==> k in v.fields && !Vanishes(v.fields[k], Here(c, k))
    {
      RequiredIsDeclared(c, side, k);
    }
  }

  /** What the schema of a side says of one shown field. */
  ghost predicate FieldValid(c: Block, side: Api.Side, complete: bool, j: Json, k: Bytes)
    requires Api.BlockTypesOk(c) && Api.BlockFollowable(c) && j.JObject? && k in j.fields
  {
    var s := Api.BlockSchemaOn(c, side);
    k in s.properties ==> Api.Validates(complete, s.properties[k], j.fields[k])
  }

  lemma ObjectValidIff(c: Block, side: Api.Side, complete: bool, j: Json)
    requires Api.BlockTypesOk(c) && Api.BlockFollowable(c) && j.JObject?
    ensures Api.Validates(complete, Api.BlockSchemaOn(c, side), j) <==>
            && (complete ==> Api.BlockSchemaOn(c, side).required <= j.fields.Keys)
            && forall k :: k in j.fields ==> FieldValid(c, side, complete, j, k)
  {
  }

  /** A shown block below is filled, as far as it is to be. */
  ghost predicate FieldFilled(v: Value, c: Block, side: Api.Side, k: Bytes)
    requires PlainTypes(c)
  {
    k in c.blockTypes ==> BlockFilled(v, c.blockTypes[k], side)
  }

  lemma FilledIff(v: Value, c: Block, side: Api.Side, codec: Codec, j: Json)
    requires PlainTypes(c) && UniqueNames(c) && ShowsObject(codec, v, c, j)
    ensures Api.BlockTypesOk(c) && Api.BlockFollowable(c)
    ensures Filled(v, c, side) <==>
            && Api.BlockSchemaOn(c, side).required <= j.fields.Keys
            && forall k :: k in j.fields ==> FieldFilled(v.fields[k], c, side, k)
  {
    PlainIsDescribed(c);
    RequiredShown(codec, v, c, j, side);
    forall n | n in c.blockTypes && n in v.fields && n !in j.fields
      ensures BlockFilled(v.fields[n], c.blockTypes[n], side) {
      HiddenIsFilled(v.fields, c, side, n);
    }
  }

  /** A block that is not shown is null. */
  lemma HiddenIsFilled(fields: map<Bytes, Value>, c: Block, side: Api.Side, n: Bytes)
    requires PlainTypes(c) && UniqueNames(c) && n in c.blockTypes && n in fields && n !in ShownKeys(fields, c)
    ensures BlockFilled(fields[n], c.blockTypes[n], side)
  {
    assert Here(c, n) == ABlock(c.blockTypes[n]);
  }

  /**
   What is shown for a block's value has, at all depths, the kinds of the schema of either side;
   and it is admitted, required names included, exactly if the value is filled.
   */
  lemma {:induction false} ObjectConforms(
    root: Api.Schema, codec: Codec, v: Value, c: Block, j: Json, side: Api.Side, complete: bool)
    requires PlainTypes(c) && UniqueNames(c) && FitsObject(root, v, c) && ShowsObject(codec, v, c, j)
    requires complete ==> OneEntry(v, c)
    ensures Api.BlockTypesOk(c) && Api.BlockFollowable(c)
    ensures Api.Validates(complete, Api.BlockSchemaOn(c, side), j) <==> (complete ==> Filled(v, c, side))
    decreases v, 1
  {
    FilledIff(v, c, side, codec, j);
    ObjectValidIff(c, side, complete, j);
    forall k | k in j.fields
      ensures FieldValid(c, side, complete, j, k) <==> (complete ==> FieldFilled(v.fields[k], c, side, k))
    {
      FieldConforms(root, codec, v, c, j, side, k, complete);
    }
  }

  lemma {:induction false} FieldConforms(
    root: Api.Schema, codec: Codec, v: Value, c: Block, j: Json, side: Api.Side, k: Bytes, complete: bool)
    requires PlainTypes(c) && UniqueNames(c) && FitsObject(root, v, c) && ShowsObject(codec, v, c, j)
    requires k in j.fields && (complete ==> OneEntry(v, c))
    ensures Api.BlockTypesOk(c) && Api.BlockFollowable(c)
    ensures FieldValid(c, side, complete, j, k) <==> (complete ==> FieldFilled(v.fields[k], c, side, k))
    decreases v, 0
  {
    PlainIsDescribed(c);
    assert FitsField(root, v.fields[k], Seek(c, k), k);
    FieldProperty(c, side, complete, j, k);
    if k in c.blockTypes {
      BlockConforms(root, codec, v.fields[k], c.blockTypes[k], j.fields[k], side, complete);
    } else if k in c.attributes {
      var attr := c.attributes[k];
      AttributeConforms(root, codec, attr.sensitive, v.fields[k], attr.attrType, j.fields[k], complete);
    }
  }

  /** What validity of a field comes down to. */
  lemma FieldProperty(c: Block, side: Api.Side, complete: bool, j: Json, k: Bytes)
    requires PlainTypes(c) && UniqueNames(c) && Api.BlockTypesOk(c) && Api.BlockFollowable(c)
    requires j.JObject? && k in j.fields
    ensures k in c.blockTypes ==>
              (FieldValid(c, side, complete, j, k) <==>
               Api.Validates(complete, Api.NestedSchema(c.blockTypes[k], side), j.fields[k]))
    ensures k in c.attributes ==>
              && Flat(c.attributes[k].attrType) && Api.TypeOk(c.attributes[k].attrType)
              && Api.Followable(c.attributes[k].attrType) && c.attributes[k].attrType != Api.EMPTY_OBJECT
              && (Api.Validates(complete, Api.TypeSchema(c.attributes[k].attrType).value, j.fields[k]) ==>
                    FieldValid(c, side, complete, j, k))
    ensures Here(c, k) == Nothing ==> FieldValid(c, side, complete, j, k)
  {
    MatchesOwn(c, side, k);
    if k in c.blockTypes { Api.BlockProperty(c, side, k); }
    if k in c.attributes { FlatIsDescribed(c.attributes[k].attrType); }
  }

  lemma {:induction false} BlockConforms(
    root: Api.Schema, codec: Codec, v: Value, nb: NestedBlock, j: Json, side: Api.Side, complete: bool)
    requires PlainTypes(nb.block) && UniqueNames(nb.block) && !(IsObjectProperty(nb) && v.NullV?)
    requires FitsBlock(root, v, nb) && ShowsBlock(codec, v, nb, j) && (complete ==> BlockOneEntry(v, nb))
    ensures Api.BlockTypesOk(nb.block) && Api.BlockFollowable(nb.block)
    ensures Api.Validates(complete, Api.NestedSchema(nb, side), j) <==> (complete ==> BlockFilled(v, nb, side))
    decreases v, 2
  {
    EmptyConforms(nb.block, side, complete);
    if !IsObjectProperty(nb) {
      ItemsConform(v, nb, j, side, complete);
    } else {
      match v
      case ListV(_, items) => if |items| == 1 { ObjectConforms(root, codec, items[0], nb.block, j, side, complete); }
      case SetV(_, members) => if |members| == 1 { MemberConforms(root, codec, v, nb, j, side, complete); }
      case MapV(_, entries) => if entries != map[] { EntryConforms(root, codec, v, nb, j, side, complete); }
      case ObjectV(_) => ObjectConforms(root, codec, v, nb.block, j, side, complete);
      case _ =>
    }
  }

  lemma ItemsConform(v: Value, nb: NestedBlock, j: Json, side: Api.Side, complete: bool)
    requires PlainTypes(nb.block) && !IsObjectProperty(nb)
    requires match v
             case ListV(_, items) => Empties(j, |NonNull(items)|)
             case SetV(_, members) => Empties(j, |NonNullMembers(members)|)
             case NullV(_) => Empties(j, 0)
             case _ => false
    ensures Api.BlockTypesOk(nb.block) && Api.BlockFollowable(nb.block)
    ensures Api.Validates(complete, Api.NestedSchema(nb, side), j) <==> (complete ==> BlockFilled(v, nb, side))
  {
    EmptyConforms(nb.block, side, complete);
    var s := Api.BlockSchemaOn(nb.block, side);
    assert Api.Validates(complete, Api.ArraySchema(Some(s)), j) <==>
           forall i :: 0 <= i < |j.items| ==> Api.ValidatesIf(complete, Some(s), j.items[i]);
    if j.items != [] { assert j.items[0] == NO_FIELDS; }
  }

  lemma OnlyMember(members: set<Value>, m: Value)
    requires |members| == 1 && m in members
    ensures members == {m}
  {
    assert |members - {m}| == 0;
  }

  lemma {:induction false} MemberConforms(
    root: Api.Schema, codec: Codec, v: Value, nb: NestedBlock, j: Json, side: Api.Side, complete: bool)
    requires PlainTypes(nb.block) && UniqueNames(nb.block) && IsObjectProperty(nb) && v.SetV? && |v.members| == 1
    requires FitsBlock(root, v, nb) && ShowsBlock(codec, v, nb, j) && (complete ==> BlockOneEntry(v, nb))
    ensures Api.BlockTypesOk(nb.block) && Api.BlockFollowable(nb.block)
    ensures Api.Validates(complete, Api.BlockSchemaOn(nb.block, side), j) <==> (complete ==> BlockFilled(v, nb, side))
    decreases v, 0
  {
    var m :| m in v.members && ShowsObject(codec, m, nb.block, j);
    OnlyMember(v.members, m);
    ObjectConforms(root, codec, m, nb.block, j, side, complete);
  }

  lemma OnlyEntry(entries: map<Bytes, Value>, k: Bytes)
    requires |entries| <= 1 && k in entries
    ensures entries.Keys == {k}
  {
    assert |entries.Keys| == |entries|;
    assert |entries.Keys - {k}| == 0;
  }

  lemma {:induction false} EntryConforms(
    root: Api.Schema, codec: Codec, v: Value, nb: NestedBlock, j: Json, side: Api.Side, complete: bool)
    requires PlainTypes(nb.block) && UniqueNames(nb.block) && IsObjectProperty(nb) && v.MapV? && v.entries != map[]
    requires FitsBlock(root, v, nb) && ShowsBlock(codec, v, nb, j) && (complete ==> BlockOneEntry(v, nb))
    ensures Api.BlockTypesOk(nb.block) && Api.BlockFollowable(nb.block)
    ensures Api.Validates(complete, Api.BlockSchemaOn(nb.block, side), j) <==> (complete ==> BlockFilled(v, nb, side))
    decreases v, 0
  {
    var k :| k in v.entries && ShowsEntry(codec, v.entries[k], nb.block, j);
    if complete { OnlyEntry(v.entries, k); }
    if v.entries[k].NullV? {
      EmptyConforms(nb.block, side, complete);
    } else {
      ObjectConforms(root, codec, v.entries[k], nb.block, j, side, complete);
    }
  }
}
