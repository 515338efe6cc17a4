/**
 OpenAPI schemas, and what create.go generates for a Terraform type and for a block: one object
 schema for the spec and one for the status (create.go:99-249, 406-440).
 */
module OpenApi {
  import opened GoStrings
  import opened Cty
  import opened BlockSchema

  datatype Schema = Schema(
    kind: Bytes, format: Bytes, properties: map<Bytes, Schema>, required: set<Bytes>,
    items: Option<Schema>, additional: Option<Schema>)

  const STRING: Bytes := "string"
  const BOOLEAN: Bytes := "boolean"
  const NUMBER: Bytes := "number"
  const OBJECT: Bytes := "object"
  const ARRAY: Bytes := "array"

  function Primitive(kind: Bytes, format: Bytes): Schema {
    Schema(kind, format, map[], {}, None, None)
  }

  function ObjectSchema(properties: map<Bytes, Schema>, required: set<Bytes>): Schema {
    Schema(OBJECT, "", properties, required, None, None)
  }

  function ArraySchema(items: Option<Schema>): Schema {
    Schema(ARRAY, "", map[], {}, items, None)
  }

  function MapSchema(values: Option<Schema>): Schema {
    Schema(OBJECT, "", map[], {}, None, values)
  }

  // ---------------------------------------------------------------- types

  /** The type is described all the way down; the one that is not is the dynamic type. */
  predicate TypeOk(t: Type) {
    match t
    case TDynamic => false
    case TList(e) => TypeOk(e)
    case TSet(e) => TypeOk(e)
    case TMap(e) => TypeOk(e)
    case TObject(types) => forall a :: a in types ==> TypeOk(types[a])
    case _ => true
  }

  const EMPTY_OBJECT := TObject(map[])

  /** No object has an attribute of the empty object type: its missing schema would be followed. */
  predicate Followable(t: Type) {
    match t
    case TList(e) => Followable(e)
    case TSet(e) => Followable(e)
    case TMap(e) => Followable(e)
    case TObject(types) => forall a :: a in types ==> types[a] != EMPTY_OBJECT && Followable(types[a])
    case _ => true
  }

  /** None for the empty object type, which is skipped. */
  function TypeSchema(t: Type): (r: Option<Schema>)
    requires TypeOk(t) && Followable(t)
    ensures r.None? <==> t == EMPTY_OBJECT
    decreases t, 1
  {
    match t
    case TString => Some(Primitive(STRING, ""))
    case TBool => Some(Primitive(BOOLEAN, ""))
    case TNumber => Some(Primitive(NUMBER, "double"))
    case TMap(e) => Some(MapSchema(TypeSchema(e)))
    case TList(e) => Some(ArraySchema(TypeSchema(e)))
    case TSet(e) => Some(ArraySchema(TypeSchema(e)))
    case TObject(types) => if types == map[] then None else Some(ObjectSchema(TypeProperties(t, types.Keys), {}))
  }

  function TypeProperties(t: Type, names: set<Bytes>): map<Bytes, Schema>
    requires t.TObject? && TypeOk(t) && Followable(t) && names <= t.attributes.Keys
    decreases t, 0
  {
    map a | a in names :: TypeSchema(t.attributes[a]).value
  }

  // ---------------------------------------------------------------- blocks

  predicate BlockTypesOk(b: Block) {
    && (forall a :: a in b.attributes ==> TypeOk(b.attributes[a].attrType))
    && (forall n :: n in b.blockTypes ==> BlockTypesOk(b.blockTypes[n].block))
  }

  predicate BlockFollowable(b: Block) {
    && (forall a :: a in b.attributes ==> Followable(b.attributes[a].attrType))
    && (forall n :: n in b.blockTypes ==> BlockFollowable(b.blockTypes[n].block))
  }

  datatype Side = Spec | Status

  /** Computed attributes go to the status, the others to the spec. */
  function SideOf(a: Attribute): Side {
    if a.computed then Status else Spec
  }

  /** Attributes that give a property on one side. */
  function OwnAttributes(b: Block, side: Side, names: set<Bytes>): set<Bytes> {
    set a | a in names && a in b.attributes && SideOf(b.attributes[a]) == side &&
      b.attributes[a].attrType != EMPTY_OBJECT
  }

  function RequiredAttributes(b: Block, side: Side, names: set<Bytes>): set<Bytes> {
    set a | a in names && a in b.attributes && SideOf(b.attributes[a]) == side && b.attributes[a].required
  }

  function RequiredBlocks(b: Block, names: set<Bytes>): set<Bytes> {
    set n | n in names && n in b.blockTypes && IsRequired(b.blockTypes[n])
  }

  predicate AttributesOk(b: Block, names: set<Bytes>) {
    forall a :: a in names && a in b.attributes ==>
      TypeOk(b.attributes[a].attrType) && Followable(b.attributes[a].attrType)
  }

  predicate BlocksOk(b: Block, names: set<Bytes>) {
    forall n :: n in names && n in b.blockTypes ==>
      BlockTypesOk(b.blockTypes[n].block) && BlockFollowable(b.blockTypes[n].block)
  }

  function AttributeProperties(b: Block, side: Side, names: set<Bytes>): map<Bytes, Schema>
    requires AttributesOk(b, names)
  {
    map a | a in OwnAttributes(b, side, names) :: TypeSchema(b.attributes[a].attrType).value
  }

  function BlockProperties(b: Block, side: Side, names: set<Bytes>): map<Bytes, Schema>
    requires BlocksOk(b, names) && names <= b.blockTypes.Keys
    decreases b, 0
  {
    map n | n in names :: NestedSchema(b.blockTypes[n], side)
  }

  function NestedSchema(nb: NestedBlock, side: Side): Schema
    requires BlockTypesOk(nb.block) && BlockFollowable(nb.block)
    decreases nb
  {
    if IsObjectProperty(nb) then BlockSchemaOn(nb.block, side) else ArraySchema(Some(BlockSchemaOn(nb.block, side)))
  }

  /** The schema of one side: nested blocks overwrite attributes of the same name. */
  function BlockSchemaOn(b: Block, side: Side): Schema
    requires BlockTypesOk(b) && BlockFollowable(b)
    decreases b, 1
  {
    ObjectSchema(AttributeProperties(b, side, b.attributes.Keys) + BlockProperties(b, side, b.blockTypes.Keys),
                 RequiredAttributes(b, side, b.attributes.Keys) + RequiredBlocks(b, b.blockTypes.Keys))
  }

  // ---------------------------------------------------------------- validation

  /**
   Validation by a schema without nullable: every value that has a schema is of its kind, at all
   depths; if it is to be complete, nothing required is missing.
   */
  predicate Validates(complete: bool, s: Schema, j: Json)
    decreases j, 1, 0
  {
    if s.kind == STRING then j.JString?
    else if s.kind == BOOLEAN then j.JBool?
    else if s.kind == NUMBER then j.JNumber?
    else if s.kind == ARRAY then
      j.JArray? && forall i :: 0 <= i < |j.items| ==> ValidatesIf(complete, s.items, j.items[i])
    else
      && j.JObject? && (complete ==> s.required <= j.fields.Keys)
      && forall k :: k in j.fields ==>
           if k in s.properties then Validates(complete, s.properties[k], j.fields[k])
           else ValidatesIf(complete, s.additional, j.fields[k])
  }

  predicate ValidatesIf(complete: bool, s: Option<Schema>, j: Json)
    decreases j, 1, 1
  {
    s.Some? ==> Validates(complete, s.value, j)
  }

  /** What a type says of a JSON value; of the empty object type it says nothing. */
  predicate JsonFits(t: Type, j: Json)
    decreases t
  {
    match t
    case TString => j.JString?
    case TBool => j.JBool?
    case TNumber => j.JNumber?
    case TList(e) => j.JArray? && forall i :: 0 <= i < |j.items| ==> JsonFits(e, j.items[i])
    case TSet(e) => j.JArray? && forall i :: 0 <= i < |j.items| ==> JsonFits(e, j.items[i])
    case TMap(e) => j.JObject? && forall k :: k in j.fields ==> JsonFits(e, j.fields[k])
    case TObject(types) =>
      types != map[] ==> j.JObject? && forall a :: a in types && a in j.fields ==> JsonFits(types[a], j.fields[a])
    case TDynamic => false
  }

  lemma ObjectMeaning(complete: bool, properties: map<Bytes, Schema>, j: Json)
    ensures Validates(complete, ObjectSchema(properties, {}), j) <==>
            && j.JObject?
            && forall k :: k in properties && k in j.fields ==> Validates(complete, properties[k], j.fields[k])
  {
  }

  /** The schema of a type admits exactly the values that fit the type. */
  lemma {:induction false} TypeMeaning(complete: bool, t: Type, j: Json)
    requires TypeOk(t) && Followable(t)
    ensures ValidatesIf(complete, TypeSchema(t), j) <==> JsonFits(t, j)
    decreases t
  {
    match t
    case TList(e) => if j.JArray? { forall i | 0 <= i < |j.items| { TypeMeaning(complete, e, j.items[i]); } }
    case TSet(e) => if j.JArray? { forall i | 0 <= i < |j.items| { TypeMeaning(complete, e, j.items[i]); } }
    case TMap(e) => if j.JObject? { forall k | k in j.fields { TypeMeaning(complete, e, j.fields[k]); } }
    case TObject(types) =>
      if types != map[] {
        ObjectMeaning(complete, TypeProperties(t, types.Keys), j);
        if j.JObject? { forall a | a in types && a in j.fields { TypeMeaning(complete, types[a], j.fields[a]); } }
      }
    case _ =>
  }

  // ---------------------------------------------------------------- the two sides

  /** Down a path of nested blocks. */
  function BlockAt(b: Block, path: seq<Bytes>): Option<Block>
    decreases |path|
  {
    if path == [] then Some(b)
    else if path[0] in b.blockTypes then BlockAt(b.blockTypes[path[0]].block, path[1..])
    else None
  }

  /** Down a path of properties, through arrays to their items. */
  function SchemaAt(s: Schema, path: seq<Bytes>): Option<Schema>
    decreases |path|
  {
    if path == [] then Some(s)
    else if path[0] !in s.properties then None
    else
      var p := s.properties[path[0]];
      SchemaAt(if p.kind == ARRAY && p.items.Some? then p.items.value else p, path[1..])
  }

  lemma {:induction false} SubBlock(b: Block, path: seq<Bytes>)
    requires BlockAt(b, path).Some?
    ensures BlockTypesOk(b) ==> BlockTypesOk(BlockAt(b, path).value)
    ensures BlockFollowable(b) ==> BlockFollowable(BlockAt(b, path).value)
    decreases |path|
  {
    if path != [] { SubBlock(b.blockTypes[path[0]].block, path[1..]); }
  }

  /** A nested block gives a property on either side; the two agree on its shape. */
  lemma BlockProperty(b: Block, side: Side, n: Bytes)
    requires BlockTypesOk(b) && BlockFollowable(b) && n in b.blockTypes
    ensures n in BlockSchemaOn(b, side).properties
    ensures BlockSchemaOn(b, side).properties[n] == NestedSchema(b.blockTypes[n], side)
    ensures BlockSchemaOn(b, side).properties[n].kind == if IsObjectProperty(b.blockTypes[n]) then OBJECT else ARRAY
  {
  }

  /** At the place of a nested block, either side has the schema of that block. */
  lemma {:induction false} BlocksOnBothSides(b: Block, side: Side, path: seq<Bytes>)
    requires BlockTypesOk(b) && BlockFollowable(b) && BlockAt(b, path).Some?
    ensures BlockTypesOk(BlockAt(b, path).value) && BlockFollowable(BlockAt(b, path).value)
    ensures SchemaAt(BlockSchemaOn(b, side), path) == Some(BlockSchemaOn(BlockAt(b, path).value, side))
    decreases |path|
  {
    SubBlock(b, path);
    if path != [] {
      BlockProperty(b, side, path[0]);
      BlocksOnBothSides(b.blockTypes[path[0]].block, side, path[1..]);
    }
  }

  function Other(side: Side): Side {
    if side == Spec then Status else Spec
  }

  /** What a name in a block means for the schemas of the two sides at the place of that block. */
  predicate Partitioned(c: Block, side: Side, k: Bytes, here: Schema, there: Schema) {
    && (k in c.attributes && k !in c.blockTypes ==>
          && (k in here.properties <==> SideOf(c.attributes[k]) == side && c.attributes[k].attrType != EMPTY_OBJECT)
          && !(k in here.properties && k in there.properties)
          && (k in here.required <==> SideOf(c.attributes[k]) == side && c.attributes[k].required))
    && (k in c.blockTypes && k !in c.attributes ==>
          && k in here.properties && k in there.properties
          && here.properties[k].kind == there.properties[k].kind
          && (here.properties[k].kind == OBJECT <==> IsObjectProperty(c.blockTypes[k]))
          && (k in here.required <==> c.blockTypes[k].minItems >= 1))
    && (k !in c.blockTypes && k !in c.attributes ==> k !in here.properties && k !in here.required)
  }

  lemma PartitionedHere(c: Block, side: Side, k: Bytes)
    requires BlockTypesOk(c) && BlockFollowable(c)
    ensures Partitioned(c, side, k, BlockSchemaOn(c, side), BlockSchemaOn(c, Other(side)))
  {
    if k in c.blockTypes {
      BlockProperty(c, side, k);
      BlockProperty(c, Other(side), k);
    }
  }

  /**
   Schema partition, at any nested block: an attribute is a property of exactly the side that
   "computed" says, unless its type is the empty object; a nested block is one of both, with the
   same shape; required lists say what the schema demands; and there is nothing else.
   */
  lemma Partition(b: Block, path: seq<Bytes>, side: Side, k: Bytes)
    requires BlockTypesOk(b) && BlockFollowable(b) && BlockAt(b, path).Some?
    ensures var here, there := SchemaAt(BlockSchemaOn(b, side), path), SchemaAt(BlockSchemaOn(b, Other(side)), path);
            here.Some? && there.Some? && Partitioned(BlockAt(b, path).value, side, k, here.value, there.value)
  {
    BlocksOnBothSides(b, side, path);
    BlocksOnBothSides(b, Other(side), path);
    PartitionedHere(BlockAt(b, path).value, side, k);
  }

  /** The schema of an attribute is the one of its type, wherever the attribute is. */
  lemma AttributeSchema(b: Block, path: seq<Bytes>, a: Bytes)
    requires BlockTypesOk(b) && BlockFollowable(b) && BlockAt(b, path).Some?
    requires a in BlockAt(b, path).value.attributes && a !in BlockAt(b, path).value.blockTypes
    ensures var attr := BlockAt(b, path).value.attributes[a];
            && TypeOk(attr.attrType) && Followable(attr.attrType)
            && SchemaAt(BlockSchemaOn(b, SideOf(attr)), path).Some?
            && var here := SchemaAt(BlockSchemaOn(b, SideOf(attr)), path).value;
            && (if a in here.properties then Some(here.properties[a]) else None) == TypeSchema(attr.attrType)
  {
    BlocksOnBothSides(b, SideOf(BlockAt(b, path).value.attributes[a]), path);
  }

  /** A path in a generated schema that leaves the nested blocks does so through an attribute. */
  lemma {:induction false} NothingElse(b: Block, side: Side, path: seq<Bytes>)
    requires BlockTypesOk(b) && BlockFollowable(b)
    requires BlockAt(b, path).None? && SchemaAt(BlockSchemaOn(b, side), path).Some?
    ensures exists n :: 0 <= n < |path| && LeavesAt(b, side, path, n)
    decreases |path|
  {
    if path[0] in b.blockTypes {
      BlockProperty(b, side, path[0]);
      NothingElse(b.blockTypes[path[0]].block, side, path[1..]);
      LeavesDeeper(b, side, path);
    } else {
      assert LeavesAt(b, side, path, 0);
    }
  }

  lemma LeavesDeeper(b: Block, side: Side, path: seq<Bytes>)
    requires path != [] && path[0] in b.blockTypes
    requires exists n :: 0 <= n < |path| - 1 && LeavesAt(b.blockTypes[path[0]].block, side, path[1..], n)
    ensures exists n :: 0 <= n < |path| && LeavesAt(b, side, path, n)
  {
    var n :| 0 <= n < |path| - 1 && LeavesAt(b.blockTypes[path[0]].block, side, path[1..], n);
    assert path[..n + 1][1..] == path[1..][..n];
    assert LeavesAt(b, side, path, n + 1);
  }

  predicate LeavesAt(b: Block, side: Side, path: seq<Bytes>, n: nat)
    requires n < |path|
  {
    && BlockAt(b, path[..n]).Some?
    && path[n] in BlockAt(b, path[..n]).value.attributes
    && SideOf(BlockAt(b, path[..n]).value.attributes[path[n]]) == side
  }

  // ---------------------------------------------------------------- a whole resource

  const TFOPERATOR: Bytes := "_tfoperator"

  /** What the operator itself keeps in the status. */
  const OPERATOR_NAMES: set<Bytes> := {
    "provisioningState", "tfState", "lastAppliedGeneration", "providerName", "providerVersion", "providerChecksumSHA256"
  }

  const OPERATOR_SCHEMA := ObjectSchema(map k: Bytes | k in OPERATOR_NAMES :: Primitive(STRING, ""), {})

  /** The root schema of a resource: its name as description, and two properties. */
  datatype Root = Root(description: Bytes, spec: Schema, status: Schema)

  function RootSchema(name: Bytes, b: Block): Root
    requires BlockTypesOk(b) && BlockFollowable(b)
  {
    var status := BlockSchemaOn(b, Status);
    Root(name, BlockSchemaOn(b, Spec), status.(properties := status.properties[TFOPERATOR := OPERATOR_SCHEMA]))
  }

  /** The source adds _tfoperator to a map that is nil, and panics, unless the status has a property. */
  lemma StatusHasProperties(b: Block)
    requires BlockTypesOk(b) && BlockFollowable(b)
    ensures BlockSchemaOn(b, Status).properties != map[] <==>
            || b.blockTypes != map[]
            || exists a :: a in b.attributes && b.attributes[a].computed && b.attributes[a].attrType != EMPTY_OBJECT
  {
    if n :| n in b.blockTypes {
      BlockProperty(b, Status, n);
    } else if a :| a in b.attributes && b.attributes[a].computed && b.attributes[a].attrType != EMPTY_OBJECT {
      assert a in AttributeProperties(b, Status, b.attributes.Keys);
    } else {
      assert OwnAttributes(b, Status, b.attributes.Keys) == {};
    }
  }
}
