/**
 The loops of create.go that fill in the schemas of spec and status, over the maps of a Terraform
 schema in an arbitrary order (create.go:99-249).
 */
module OpenApiMethods {
  import opened GoStrings
  import opened Cty
  import opened BlockSchema
  import opened OpenApi

  /** An object schema that is being filled in: what a pointer to a Schema is passed around for. */
  class OpenSchema {
    var properties: map<Bytes, Schema>
    var required: set<Bytes>

    /** getOpenAPIObjectSchema */
    constructor ()
      ensures properties == map[] && required == {}
    {
      properties, required := map[], {};
    }

    function Value(): Schema
      reads this
    {
      ObjectSchema(properties, required)
    }
  }

  /** The names that are not still to do. */
  function Done(names: set<Bytes>, todo: set<Bytes>): set<Bytes> {
    names - todo
  }

  lemma DoneEnds(names: set<Bytes>)
    ensures Done(names, names) == {} && Done(names, {}) == names
  {
  }

  lemma OneMore(names: set<Bytes>, todo: set<Bytes>, k: Bytes)
    requires todo <= names && k in todo
    ensures Done(names, todo - {k}) == Done(names, todo) + {k}
  {
  }

  method GetOpenAPISchemaFromTerraformType(t: Type) returns (r: Result<Option<Schema>>)
    requires Followable(t)
    ensures r.Ok? <==> TypeOk(t)
    ensures r.Ok? ==> r.value == TypeSchema(t)
    decreases t, 1
  {
    match t
    case TString => r := Ok(Some(Primitive(STRING, "")));
    case TBool => r := Ok(Some(Primitive(BOOLEAN, "")));
    case TNumber => r := Ok(Some(Primitive(NUMBER, "double")));
    case TMap(e) =>
      r := GetOpenAPISchemaFromTerraformType(e);
      if r.Ok? { r := Ok(Some(MapSchema(r.value))); }
    case TList(e) =>
      r := GetOpenAPISchemaFromTerraformType(e);
      if r.Ok? { r := Ok(Some(ArraySchema(r.value))); }
    case TSet(e) =>
      r := GetOpenAPISchemaFromTerraformType(e);
      if r.Ok? { r := Ok(Some(ArraySchema(r.value))); }
    case TObject(types) =>
      if types == map[] { return Ok(None); }
      r := ObjectTypeSchema(t);
    case TDynamic => r := Err("unknown terraform attribute");
  }

  method ObjectTypeSchema(t: Type) returns (r: Result<Option<Schema>>)
    requires t.TObject? && t != EMPTY_OBJECT && Followable(t)
    ensures r.Ok? <==> TypeOk(t)
    ensures r.Ok? ==> r.value == TypeSchema(t)
    decreases t, 0
  {
    var properties: map<Bytes, Schema>, todo := map[], t.attributes.Keys;
    while todo != {}
      invariant todo <= t.attributes.Keys && properties.Keys == t.attributes.Keys - todo
      invariant forall a :: a in properties ==>
                  TypeOk(t.attributes[a]) && properties[a] == TypeSchema(t.attributes[a]).value
      decreases |todo|
    {
      var a :| a in todo;
      var schema := GetOpenAPISchemaFromTerraformType(t.attributes[a]);
      if schema.Err? { return schema; }
      properties, todo := properties[a := schema.value.value], todo - {a};
    }
    assert properties == TypeProperties(t, t.attributes.Keys);
    r := Ok(Some(ObjectSchema(properties, {})));
  }

  /** mapTerraformAttributeToOpenAPISchema: one attribute, into the schema of its side. */
  method MapTerraformAttributeToOpenAPISchema(
    parent: OpenSchema, name: Bytes, attr: Attribute) returns (error: Option<string>)
    requires Followable(attr.attrType)
    modifies parent`properties
    ensures error.None? <==> TypeOk(attr.attrType)
    ensures error.None? ==>
              parent.properties == match TypeSchema(attr.attrType)
                                   case None => old(parent.properties)
                                   case Some(s) => old(parent.properties)[name := s]
  {
    var schema := GetOpenAPISchemaFromTerraformType(attr.attrType);
    if schema.Err? { return Some(schema.error); }
    if schema.value.Some? {
      parent.properties := parent.properties[name := schema.value.value];
    }
    error := None;
  }

  /** What one attribute adds to a side: a property, if it is on that side and not skipped. */
  lemma OneAttribute(b: Block, k: Bytes, side: Side)
    requires k in b.attributes && AttributesOk(b, {k})
    ensures SideOf(b.attributes[k]) == side ==>
              AttributeProperties(b, side, {k}) ==
              match TypeSchema(b.attributes[k].attrType)
              case None => map[]
              case Some(s) => map[k := s]
    ensures SideOf(b.attributes[k]) != side ==> AttributeProperties(b, side, {k}) == map[]
  {
  }

  lemma OneRequired(b: Block, k: Bytes, side: Side)
    requires k in b.attributes
    ensures RequiredAttributes(b, side, {k}) ==
            if SideOf(b.attributes[k]) == side && b.attributes[k].required then {k} else {}
  {
  }

  /** The schema of a side before and after the attributes of these names are added to it. */
  predicate Extended(before: Schema, after: Schema, b: Block, side: Side, names: set<Bytes>) {
    && AttributesOk(b, names)
    && after.properties == before.properties + AttributeProperties(b, side, names)
    && after.required == before.required + RequiredAttributes(b, side, names)
  }

  lemma ExtendedByOneMore(s0: Schema, s1: Schema, s2: Schema, b: Block, side: Side, names: set<Bytes>, k: Bytes)
    requires Extended(s0, s1, b, side, names) && Extended(s1, s2, b, side, {k})
    ensures Extended(s0, s2, b, side, names + {k})
  {
    PropertiesOfOneMore(b, side, names, k);
    RequiredOfOneMore(b, side, names, k);
    AddTwice(s0.properties, AttributeProperties(b, side, names), AttributeProperties(b, side, {k}));
  }

  lemma PropertiesOfOneMore(b: Block, side: Side, names: set<Bytes>, k: Bytes)
    requires AttributesOk(b, names) && AttributesOk(b, {k})
    ensures AttributesOk(b, names + {k})
    ensures AttributeProperties(b, side, names + {k}) ==
              AttributeProperties(b, side, names) + AttributeProperties(b, side, {k})
  {
  }

  lemma RequiredOfOneMore(b: Block, side: Side, names: set<Bytes>, k: Bytes)
    ensures RequiredAttributes(b, side, names + {k}) ==
              RequiredAttributes(b, side, names) + RequiredAttributes(b, side, {k})
  {
  }

  lemma ExtendedByOne(before: Schema, after: Schema, b: Block, side: Side, k: Bytes)
    requires k in b.attributes && AttributesOk(b, {k})
    requires var attr := b.attributes[k];
             if SideOf(attr) != side then after == before
             else
               && after.required == before.required + (if attr.required then {k} else {})
               && after.properties == (match TypeSchema(attr.attrType)
                                       case None => before.properties
                                       case Some(s) => before.properties[k := s])
    ensures Extended(before, after, b, side, {k})
  {
    OneAttribute(b, k, side);
    OneRequired(b, k, side);
  }

  method MapAttribute(status: OpenSchema, spec: OpenSchema, b: Block, k: Bytes) returns (error: Option<string>)
    requires status != spec && k in b.attributes && Followable(b.attributes[k].attrType)
    modifies status, spec
    ensures error.None? <==> AttributesOk(b, {k})
    ensures error.None? ==> Extended(old(status.Value()), status.Value(), b, Status, {k})
    ensures error.None? ==> Extended(old(spec.Value()), spec.Value(), b, Spec, {k})
  {
    var attr := b.attributes[k];
    if attr.computed {
      if attr.required { status.required := status.required + {k}; }
      error := MapTerraformAttributeToOpenAPISchema(status, k, attr);
    } else {
      if attr.required { spec.required := spec.required + {k}; }
      error := MapTerraformAttributeToOpenAPISchema(spec, k, attr);
    }
    if error.None? {
      ExtendedByOne(old(status.Value()), status.Value(), b, Status, k);
      ExtendedByOne(old(spec.Value()), spec.Value(), b, Spec, k);
    }
  }

  method MapAttributes(status: OpenSchema, spec: OpenSchema, b: Block) returns (error: Option<string>)
    requires status != spec && BlockFollowable(b)
    modifies status, spec
    ensures error.None? <==> AttributesOk(b, b.attributes.Keys)
    ensures error.None? ==> Extended(old(status.Value()), status.Value(), b, Status, b.attributes.Keys)
    ensures error.None? ==> Extended(old(spec.Value()), spec.Value(), b, Spec, b.attributes.Keys)
  {
    var todo := b.attributes.Keys;
    error := None;
    NoneAdded(status.Value(), b, Status);
    NoneAdded(spec.Value(), b, Spec);
    DoneEnds(todo);
    while todo != {} && error.None?
      invariant todo <= b.attributes.Keys
      invariant error.None? ==> Extended(old(status.Value()), status.Value(), b, Status, Done(b.attributes.Keys, todo))
      invariant error.None? ==> Extended(old(spec.Value()), spec.Value(), b, Spec, Done(b.attributes.Keys, todo))
      invariant error.Some? ==> !AttributesOk(b, b.attributes.Keys)
      decreases |todo|
    {
      var k :| k in todo;
      ghost var status1, spec1 := status.Value(), spec.Value();
      error := MapAttribute(status, spec, b, k);
      if error.None? {
        ExtendedByOneMore(old(status.Value()), status1, status.Value(), b, Status, Done(b.attributes.Keys, todo), k);
        ExtendedByOneMore(old(spec.Value()), spec1, spec.Value(), b, Spec, Done(b.attributes.Keys, todo), k);
      }
      OneMore(b.attributes.Keys, todo, k);
      todo := todo - {k};
    }
    DoneEnds(b.attributes.Keys);
  }

  lemma NoneAdded(s: Schema, b: Block, side: Side)
    ensures Extended(s, s, b, side, {})
  {
    assert AttributeProperties(b, side, {}) == map[];
  }

  // ---------------------------------------------------------------- nested blocks

  predicate BlocksAdded(before: Schema, after: Schema, b: Block, side: Side, names: set<Bytes>) {
    && names <= b.blockTypes.Keys && BlocksOk(b, names)
    && after.properties == before.properties + BlockProperties(b, side, names)
    && after.required == before.required + RequiredBlocks(b, names)
  }

  lemma NoBlockAdded(s: Schema, b: Block, side: Side)
    ensures BlocksAdded(s, s, b, side, {})
  {
    assert BlockProperties(b, side, {}) == map[];
  }

  lemma OneMoreBlock(s0: Schema, s1: Schema, s2: Schema, b: Block, side: Side, names: set<Bytes>, n: Bytes)
    requires BlocksAdded(s0, s1, b, side, names) && BlocksAdded(s1, s2, b, side, {n})
    ensures BlocksAdded(s0, s2, b, side, names + {n})
  {
    BlockPropertiesOfOneMore(b, side, names, n);
    RequiredBlocksOfOneMore(b, names, n);
    AddTwice(s0.properties, BlockProperties(b, side, names), BlockProperties(b, side, {n}));
  }

  lemma BlockPropertiesOfOneMore(b: Block, side: Side, names: set<Bytes>, n: Bytes)
    requires n in b.blockTypes && names <= b.blockTypes.Keys && BlocksOk(b, names) && BlocksOk(b, {n})
    ensures BlocksOk(b, names + {n})
    ensures BlockProperties(b, side, names + {n}) == BlockProperties(b, side, names) + BlockProperties(b, side, {n})
  {
  }

  lemma RequiredBlocksOfOneMore(b: Block, names: set<Bytes>, n: Bytes)
    ensures RequiredBlocks(b, names + {n}) == RequiredBlocks(b, names) + RequiredBlocks(b, {n})
  {
  }

  lemma OneBlock(before: Schema, after: Schema, b: Block, side: Side, n: Bytes)
    requires n in b.blockTypes && BlocksOk(b, {n})
    requires after.properties == before.properties[n := NestedSchema(b.blockTypes[n], side)]
    requires after.required == before.required + (if IsRequired(b.blockTypes[n]) then {n} else {})
    ensures BlocksAdded(before, after, b, side, {n})
  {
    assert BlockProperties(b, side, {n}) == map[n := NestedSchema(b.blockTypes[n], side)];
  }

  /** mapTerraformBlockToOpenAPISchema: fills in the schemas of the status and of the spec. */
  method MapTerraformBlockToOpenAPISchema(
    status: OpenSchema, spec: OpenSchema, b: Block) returns (error: Option<string>)
    requires status != spec && BlockFollowable(b)
    modifies status, spec
    ensures error.None? <==> BlockTypesOk(b)
    ensures error.None? ==> Holds(old(status.Value()), status.Value(), b, Status)
    ensures error.None? ==> Holds(old(spec.Value()), spec.Value(), b, Spec)
    decreases b, 2
  {
    error := MapAttributes(status, spec, b);
    if error.Some? { return; }
    ghost var status1, spec1 := status.Value(), spec.Value();
    error := MapBlocks(status, spec, b);
    if error.None? {
      BlockHeld(old(status.Value()), status1, status.Value(), b, Status);
      BlockHeld(old(spec.Value()), spec1, spec.Value(), b, Spec);
    }
  }

  /** All that the block gives this side has been added. */
  predicate Holds(before: Schema, after: Schema, b: Block, side: Side) {
    && BlockTypesOk(b) && BlockFollowable(b)
    && after.properties == before.properties + BlockSchemaOn(b, side).properties
    && after.required == before.required + BlockSchemaOn(b, side).required
  }

  lemma BlockHeld(s0: Schema, s1: Schema, s2: Schema, b: Block, side: Side)
    requires Extended(s0, s1, b, side, b.attributes.Keys) && BlocksAdded(s1, s2, b, side, b.blockTypes.Keys)
    ensures Holds(s0, s2, b, side)
  {
    AllTypesOk(b);
    AddTwice(s0.properties, AttributeProperties(b, side, b.attributes.Keys),
      BlockProperties(b, side, b.blockTypes.Keys));
  }

  lemma AllTypesOk(b: Block)
    requires AttributesOk(b, b.attributes.Keys) && BlocksOk(b, b.blockTypes.Keys)
    ensures BlockTypesOk(b) && BlockFollowable(b)
  {
  }

  lemma AddTwice(a: map<Bytes, Schema>, b: map<Bytes, Schema>, c: map<Bytes, Schema>)
    ensures a + b + c == a + (b + c)
  {
  }

  method MapBlocks(status: OpenSchema, spec: OpenSchema, b: Block) returns (error: Option<string>)
    requires status != spec && BlockFollowable(b)
    modifies status, spec
    ensures error.None? ==> BlocksAdded(old(status.Value()), status.Value(), b, Status, b.blockTypes.Keys)
    ensures error.None? ==> BlocksAdded(old(spec.Value()), spec.Value(), b, Spec, b.blockTypes.Keys)
    ensures error.Some? ==> !BlocksOk(b, b.blockTypes.Keys)
    decreases b, 1
  {
    var todo := b.blockTypes.Keys;
    error := None;
    NoBlockAdded(status.Value(), b, Status);
    NoBlockAdded(spec.Value(), b, Spec);
    DoneEnds(todo);
    while todo != {} && error.None?
      invariant todo <= b.blockTypes.Keys
      invariant error.None? ==>
                  BlocksAdded(old(status.Value()), status.Value(), b, Status, Done(b.blockTypes.Keys, todo))
      invariant error.None? ==> BlocksAdded(old(spec.Value()), spec.Value(), b, Spec, Done(b.blockTypes.Keys, todo))
      invariant error.Some? ==> !BlocksOk(b, b.blockTypes.Keys)
      decreases |todo|
    {
      var n :| n in todo;
      ghost var status1, spec1 := status.Value(), spec.Value();
      error := MapBlock(status, spec, b, n);
      if error.None? {
        OneMoreBlock(old(status.Value()), status1, status.Value(), b, Status, Done(b.blockTypes.Keys, todo), n);
        OneMoreBlock(old(spec.Value()), spec1, spec.Value(), b, Spec, Done(b.blockTypes.Keys, todo), n);
      }
      OneMore(b.blockTypes.Keys, todo, n);
      todo := todo - {n};
    }
    DoneEnds(b.blockTypes.Keys);
  }

  method MapBlock(status: OpenSchema, spec: OpenSchema, b: Block, n: Bytes) returns (error: Option<string>)
    requires status != spec && n in b.blockTypes && BlockFollowable(b.blockTypes[n].block)
    modifies status, spec
    ensures error.None? ==> BlocksAdded(old(status.Value()), status.Value(), b, Status, {n})
    ensures error.None? ==> BlocksAdded(old(spec.Value()), spec.Value(), b, Spec, {n})
    ensures error.Some? ==> !BlocksOk(b, {n})
    decreases b, 0
  {
    var nb := b.blockTypes[n];
    var nestedStatus := new OpenSchema();
    var nestedSpec := new OpenSchema();
    error := MapTerraformBlockToOpenAPISchema(nestedStatus, nestedSpec, nb.block);
    if error.Some? { return; }
    NewSchema(nestedStatus.Value(), nb.block, Status);
    NewSchema(nestedSpec.Value(), nb.block, Spec);
    AddBlock(status, b, Status, n, nestedStatus.Value());
    AddBlock(spec, b, Spec, n, nestedSpec.Value());
  }

  /** A nested block becomes a property of one side, as an object or wrapped in an array. */
  method AddBlock(parent: OpenSchema, b: Block, ghost side: Side, n: Bytes, nested: Schema)
    requires n in b.blockTypes && BlocksOk(b, {n}) && nested == BlockSchemaOn(b.blockTypes[n].block, side)
    modifies parent
    ensures BlocksAdded(old(parent.Value()), parent.Value(), b, side, {n})
  {
    var nb := b.blockTypes[n];
    if IsRequired(nb) {
      parent.required := parent.required + {n};
    }
    if IsObjectProperty(nb) {
      parent.properties := parent.properties[n := nested];
    } else {
      parent.properties := parent.properties[n := ArraySchema(Some(nested))];
    }
    OneBlock(old(parent.Value()), parent.Value(), b, side, n);
  }

  /** A schema that starts out empty ends up as the schema of its side. */
  lemma NewSchema(s: Schema, b: Block, side: Side)
    requires Holds(ObjectSchema(map[], {}), s, b, side) && s == ObjectSchema(s.properties, s.required)
    ensures s == BlockSchemaOn(b, side)
  {
    assert map[] + BlockSchemaOn(b, side).properties == BlockSchemaOn(b, side).properties;
  }

  // ---------------------------------------------------------------- all resources

  /** Longer names are not valid names of custom resources. */
  const MAX_NAME := 63

  /** The resource can be turned into schemas without following a nil pointer or writing to a nil map. */
  predicate Generates(b: Block) {
    BlockFollowable(b) && (BlockTypesOk(b) ==> BlockSchemaOn(b, Status).properties != map[])
  }

  method CreateRoot(name: Bytes, b: Block) returns (r: Result<Root>)
    requires Generates(b)
    ensures r.Ok? <==> BlockTypesOk(b)
    ensures r.Ok? ==> r.value == RootSchema(name, b)
  {
    var status := new OpenSchema();
    var spec := new OpenSchema();
    var error := MapTerraformBlockToOpenAPISchema(status, spec, b);
    if error.Some? { return Err(error.value); }
    NewSchema(status.Value(), b, Status);
    NewSchema(spec.Value(), b, Spec);
    status.properties := status.properties[TFOPERATOR := OPERATOR_SCHEMA];
    r := Ok(Root(name, spec.Value(), status.Value()));
  }

  function Installable(resources: map<Bytes, Block>): set<Bytes> {
    set n | n in resources && |n| <= 63
  }

  /** One schema for each resource of these names, in some order. */
  predicate RootsOf(roots: seq<Root>, resources: map<Bytes, Block>, names: set<Bytes>) {
    && (forall i :: 0 <= i < |roots| ==>
          var n := roots[i].description;
          n in names && n in resources && BlockTypesOk(resources[n]) && BlockFollowable(resources[n]) &&
            roots[i] == RootSchema(n, resources[n]))
    && (forall i, j :: 0 <= i < j < |roots| ==> roots[i].description != roots[j].description)
    && (forall n :: n in names ==> exists i :: 0 <= i < |roots| && roots[i].description == n)
  }

  /** createK8sCRDsFromTerraformProvider up to the installation: all resources or an error. */
  method CreateRoots(resources: map<Bytes, Block>) returns (r: Result<seq<Root>>)
    requires forall n :: n in Installable(resources) ==> Generates(resources[n])
    ensures r.Ok? <==> forall n :: n in Installable(resources) ==> BlockTypesOk(resources[n])
    ensures r.Ok? ==> RootsOf(r.value, resources, Installable(resources))
  {
    var roots, todo := [], resources.Keys;
    while todo != {}
      invariant todo <= resources.Keys
      invariant RootsOf(roots, resources, Installable(resources) - todo)
      invariant forall n :: n in Installable(resources) - todo ==> BlockTypesOk(resources[n])
      decreases |todo|
    {
      var n :| n in todo;
      if |n| <= MAX_NAME {
        var root := CreateRoot(n, resources[n]);
        if root.Err? { return Err(root.error); }
        OneMoreRoot(roots, resources, Installable(resources) - todo, n);
        roots := roots + [root.value];
      }
      OneLess(Installable(resources), todo, n);
      todo := todo - {n};
    }
    DoneEnds(Installable(resources));
    assert Installable(resources) - {} == Installable(resources);
    r := Ok(roots);
  }

  lemma OneLess(names: set<Bytes>, todo: set<Bytes>, n: Bytes)
    requires n in todo
    ensures names - (todo - {n}) == (names - todo) + if n in names then {n} else {}
  {
  }

  lemma OneMoreRoot(roots: seq<Root>, resources: map<Bytes, Block>, names: set<Bytes>, n: Bytes)
    requires RootsOf(roots, resources, names) && n !in names && n in resources
    requires BlockTypesOk(resources[n]) && BlockFollowable(resources[n])
    ensures RootsOf(roots + [RootSchema(n, resources[n])], resources, names + {n})
  {
    var all := roots + [RootSchema(n, resources[n])];
    assert all[|roots|].description == n;
    forall m | m in names ensures exists i :: 0 <= i < |all| && all[i].description == m {
      var i :| 0 <= i < |roots| && roots[i].description == m;
      assert all[i].description == m;
    }
  }
}
