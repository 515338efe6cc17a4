/**
 The search by bare name: walkOpenAPISchemaProperties visits every property of the whole schema,
 but no array items (reconcile.go:656-669), and getTerraformAttributeOrNestedBlockFromBlock
 looks through a whole block tree (reconcile.go:671-690).  When no name is declared twice, both
 find what a lookup along the path would find, in whatever order maps are visited.
 */
module PropertySearch {
  import opened GoStrings
  import opened Cty
  import opened BlockSchema
  import Api = OpenApi

  // ---------------------------------------------------------------- names declared in a block tree

  predicate Declares(b: Block, k: Bytes) {
    k in b.attributes || k in b.blockTypes || exists n :: n in b.blockTypes && Declares(b.blockTypes[n].block, k)
  }

  /** No name is declared twice. */
  ghost predicate UniqueNames(b: Block) {
    && b.attributes.Keys !! b.blockTypes.Keys
    && (forall n :: n in b.blockTypes ==> UniqueNames(b.blockTypes[n].block))
    && (forall n, k :: n in b.blockTypes && Declares(b.blockTypes[n].block, k) ==>
          k !in b.attributes && k !in b.blockTypes)
    && (forall n, m, k ::
          (&& n in b.blockTypes && m in b.blockTypes
           && Declares(b.blockTypes[n].block, k) && Declares(b.blockTypes[m].block, k)) ==> n == m)
  }

  /** What a search may find. */
  datatype Found = AnAttribute(attr: Attribute) | ABlock(nb: NestedBlock) | Nothing

  /** Somewhere in the tree the name is declared like this. */
  predicate Occurs(b: Block, k: Bytes, f: Found) {
    || (k in b.attributes && f == AnAttribute(b.attributes[k]))
    || (k in b.blockTypes && f == ABlock(b.blockTypes[k]))
    || (exists n :: n in b.blockTypes && Occurs(b.blockTypes[n].block, k, f))
  }

  lemma {:induction false} OccursIsDeclared(b: Block, k: Bytes, f: Found)
    requires Occurs(b, k, f)
    ensures Declares(b, k) && f != Nothing
  {
    if !(k in b.attributes && f == AnAttribute(b.attributes[k])) &&
      !(k in b.blockTypes && f == ABlock(b.blockTypes[k])) {
      var n :| n in b.blockTypes && Occurs(b.blockTypes[n].block, k, f);
      OccursIsDeclared(b.blockTypes[n].block, k, f);
    }
  }

  /** With unique names a search can find only one thing. */
  lemma {:induction false} OccursOnce(b: Block, k: Bytes, f: Found, g: Found)
    requires UniqueNames(b) && Occurs(b, k, f) && Occurs(b, k, g)
    ensures f == g
  {
    OccursHereOrBelow(b, k, f);
    OccursHereOrBelow(b, k, g);
    if k !in b.attributes && k !in b.blockTypes {
      var n :| n in b.blockTypes && Occurs(b.blockTypes[n].block, k, f);
      var m :| m in b.blockTypes && Occurs(b.blockTypes[m].block, k, g);
      OccursIsDeclared(b.blockTypes[n].block, k, f);
      OccursIsDeclared(b.blockTypes[m].block, k, g);
      OccursOnce(b.blockTypes[n].block, k, f, g);
    }
  }

  lemma OccursHereOrBelow(b: Block, k: Bytes, f: Found)
    requires UniqueNames(b) && Occurs(b, k, f)
    ensures k in b.attributes ==> f == AnAttribute(b.attributes[k])
    ensures k in b.blockTypes ==> f == ABlock(b.blockTypes[k])
  {
    if n :| n in b.blockTypes && Occurs(b.blockTypes[n].block, k, f) {
      OccursIsDeclared(b.blockTypes[n].block, k, f);
    }
  }

  /** getTerraformAttributeOrNestedBlockFromBlock */
  method GetTerraformAttributeOrNestedBlockFromBlock(key: Bytes, b: Block) returns (f: Found)
    ensures f == Nothing <==> !Declares(b, key)
    ensures f != Nothing ==> Occurs(b, key, f)
    decreases b
  {
    if key in b.attributes { return AnAttribute(b.attributes[key]); }
    var todo := b.blockTypes.Keys;
    while todo != {}
      invariant todo <= b.blockTypes.Keys
      invariant forall n :: n in b.blockTypes && n !in todo ==> n != key && !Declares(b.blockTypes[n].block, key)
      decreases |todo|
    {
      var n :| n in todo;
      if n == key { return ABlock(b.blockTypes[n]); }
      var nested := GetTerraformAttributeOrNestedBlockFromBlock(key, b.blockTypes[n].block);
      if nested != Nothing { return nested; }
      todo := todo - {n};
    }
    f := Nothing;
  }

  /** A name declared by the block itself is found there. */
  function Here(b: Block, k: Bytes): Found {
    if k in b.attributes then AnAttribute(b.attributes[k])
    else if k in b.blockTypes then ABlock(b.blockTypes[k])
    else Nothing
  }

  // ---------------------------------------------------------------- properties of a name

  /** Every schema that a walk over the properties meets under this name. */
  function Matches(s: Api.Schema, key: Bytes): set<Api.Schema>
    decreases s, 1
  {
    (if key in s.properties then {s.properties[key]} else {}) + MatchesBelow(s, key)
  }

  function MatchesBelow(s: Api.Schema, key: Bytes): set<Api.Schema>
    decreases s, 0
  {
    set n, p | n in s.properties && p in Matches(s.properties[n], key) :: p
  }

  /** Types made of primitives and collections: no objects. */
  predicate Flat(t: Type) {
    match t
    case TObject(_) => false
    case TDynamic => false
    case TList(e) => Flat(e)
    case TSet(e) => Flat(e)
    case TMap(e) => Flat(e)
    case _ => true
  }

  predicate PlainTypes(b: Block) {
    && (forall a :: a in b.attributes ==> Flat(b.attributes[a].attrType))
    && (forall n :: n in b.blockTypes ==> PlainTypes(b.blockTypes[n].block))
  }

  lemma {:induction false} FlatIsDescribed(t: Type)
    requires Flat(t)
    ensures Api.TypeOk(t) && Api.Followable(t) && t != Api.EMPTY_OBJECT
    ensures Api.TypeSchema(t).value.properties == map[]
  {
    match t
    case TList(e) => FlatIsDescribed(e);
    case TSet(e) => FlatIsDescribed(e);
    case TMap(e) => FlatIsDescribed(e);
    case _ =>
  }

  lemma {:induction false} PlainIsDescribed(b: Block)
    requires PlainTypes(b)
    ensures Api.BlockTypesOk(b) && Api.BlockFollowable(b)
  {
    forall a | a in b.attributes { FlatIsDescribed(b.attributes[a].attrType); }
    forall n | n in b.blockTypes { PlainIsDescribed(b.blockTypes[n].block); }
  }

  /** What a name that the block itself declares has as a property on a side. */
  function HereOn(b: Block, side: Api.Side, k: Bytes): set<Api.Schema>
    requires Api.BlockTypesOk(b) && Api.BlockFollowable(b)
  {
    match Here(b, k)
    case Nothing => {}
    case ABlock(nb) => {Api.NestedSchema(b.blockTypes[k], side)}
    case AnAttribute(attr) =>
      if Api.SideOf(attr) == side && attr.attrType != Api.EMPTY_OBJECT then {Api.TypeSchema(attr.attrType).value}
        else {}
  }

  lemma MatchesOwn(b: Block, side: Api.Side, k: Bytes)
    requires PlainTypes(b) && UniqueNames(b)
    ensures Api.BlockTypesOk(b) && Api.BlockFollowable(b)
    ensures var s := Api.BlockSchemaOn(b, side);
            (if k in s.properties then {s.properties[k]} else {}) == HereOn(b, side, k)
  {
    PlainIsDescribed(b);
    if k in b.blockTypes { Api.BlockProperty(b, side, k); }
  }

  /** Below a property there is only what a nested block, shown as an object, has below. */
  lemma MatchesUnder(b: Block, side: Api.Side, n: Bytes, k: Bytes)
    requires PlainTypes(b) && UniqueNames(b) && Api.BlockTypesOk(b) && Api.BlockFollowable(b)
    requires n in Api.BlockSchemaOn(b, side).properties
    ensures Matches(Api.BlockSchemaOn(b, side).properties[n], k) ==
            if n in b.blockTypes && IsObjectProperty(b.blockTypes[n])
              then Matches(Api.BlockSchemaOn(b.blockTypes[n].block, side), k) else {}
  {
    if n in b.blockTypes {
      Api.BlockProperty(b, side, n);
    } else {
      Api.PartitionedHere(b, side, n);
      FlatIsDescribed(b.attributes[n].attrType);
    }
  }

  lemma {:induction false} MatchesNothing(b: Block, side: Api.Side, k: Bytes)
    requires PlainTypes(b) && UniqueNames(b) && !Declares(b, k)
    ensures Api.BlockTypesOk(b) && Api.BlockFollowable(b) && Matches(Api.BlockSchemaOn(b, side), k) == {}
    decreases b
  {
    MatchesOwn(b, side, k);
    forall n | n in Api.BlockSchemaOn(b, side).properties
      ensures Matches(Api.BlockSchemaOn(b, side).properties[n], k) == {}
    {
      MatchesUnder(b, side, n, k);
      if n in b.blockTypes { MatchesNothing(b.blockTypes[n].block, side, k); }
    }
  }

  lemma MatchesHere(b: Block, side: Api.Side, k: Bytes)
    requires PlainTypes(b) && UniqueNames(b) && Here(b, k) != Nothing
    ensures Api.BlockTypesOk(b) && Api.BlockFollowable(b) &&
              Matches(Api.BlockSchemaOn(b, side), k) == HereOn(b, side, k)
  {
    MatchesOwn(b, side, k);
    forall n | n in Api.BlockSchemaOn(b, side).properties
      ensures Matches(Api.BlockSchemaOn(b, side).properties[n], k) == {}
    {
      MatchesUnder(b, side, n, k);
      if n in b.blockTypes { MatchesNothing(b.blockTypes[n].block, side, k); }
    }
  }

  lemma OnlyBelow(s: Api.Schema, n: Bytes, k: Bytes)
    requires n in s.properties && k !in s.properties
    requires forall m :: m in s.properties && m != n ==> Matches(s.properties[m], k) == {}
    ensures Matches(s, k) == Matches(s.properties[n], k)
  {
  }

  lemma MatchesElsewhere(b: Block, side: Api.Side, n: Bytes, m: Bytes, k: Bytes)
    requires PlainTypes(b) && UniqueNames(b) && n in b.blockTypes && Declares(b.blockTypes[n].block, k) && m != n
    ensures Api.BlockTypesOk(b) && Api.BlockFollowable(b)
    ensures m in Api.BlockSchemaOn(b, side).properties ==> Matches(Api.BlockSchemaOn(b, side).properties[m], k) == {}
  {
    PlainIsDescribed(b);
    if m in Api.BlockSchemaOn(b, side).properties {
      MatchesUnder(b, side, m, k);
      if m in b.blockTypes { MatchesNothing(b.blockTypes[m].block, side, k); }
    }
  }

  /** A name declared inside one nested block is met inside that block only. */
  lemma MatchesInside(b: Block, side: Api.Side, n: Bytes, k: Bytes)
    requires PlainTypes(b) && UniqueNames(b) && n in b.blockTypes && IsObjectProperty(b.blockTypes[n]) &&
               Declares(b.blockTypes[n].block, k)
    ensures Api.BlockTypesOk(b) && Api.BlockFollowable(b) && Api.BlockTypesOk(b.blockTypes[n].block) &&
              Api.BlockFollowable(b.blockTypes[n].block)
    ensures Matches(Api.BlockSchemaOn(b, side), k) == Matches(Api.BlockSchemaOn(b.blockTypes[n].block, side), k)
  {
    MatchesOwn(b, side, k);
    Api.BlockProperty(b, side, n);
    MatchesUnder(b, side, n, k);
    forall m | m != n { MatchesElsewhere(b, side, n, m, k); }
    OnlyBelow(Api.BlockSchemaOn(b, side), n, k);
  }

  // ---------------------------------------------------------------- the root schema

  function AsSchema(root: Api.Root): Api.Schema {
    Api.ObjectSchema(map["spec" := root.spec, "status" := root.status], {})
  }

  /** Names of properties that no block declares. */
  predicate Reserved(k: Bytes) {
    k == "spec" || k == "status" || k == Api.TFOPERATOR || k in Api.OPERATOR_NAMES
  }

  /** A resource whose status can be mapped: supported types, and no name declared twice or reserved. */
  ghost predicate Mappable(b: Block) {
    PlainTypes(b) && UniqueNames(b) && forall k :: Declares(b, k) ==> !Reserved(k)
  }

  lemma OperatorMatches(k: Bytes)
    requires !Reserved(k)
    ensures Matches(Api.OPERATOR_SCHEMA, k) == {}
  {
    forall n | n in Api.OPERATOR_SCHEMA.properties ensures Matches(Api.OPERATOR_SCHEMA.properties[n], k) == {} {
      assert Api.OPERATOR_SCHEMA.properties[n] == Api.Primitive(Api.STRING, "");
    }
  }

  lemma MatchesStatus(s: Api.Schema, k: Bytes)
    requires Api.TFOPERATOR !in s.properties && !Reserved(k)
    ensures Matches(s.(properties := s.properties[Api.TFOPERATOR := Api.OPERATOR_SCHEMA]), k) == Matches(s, k)
  {
    OperatorMatches(k);
    var t := s.(properties := s.properties[Api.TFOPERATOR := Api.OPERATOR_SCHEMA]);
    assert MatchesBelow(t, k) == MatchesBelow(s, k) by {
      forall p | p in MatchesBelow(s, k) ensures p in MatchesBelow(t, k) {
        var n :| n in s.properties && p in Matches(s.properties[n], k);
        assert n in t.properties && p in Matches(t.properties[n], k);
      }
    }
  }

  /** In the whole schema a name is met where the spec and the status have it. */
  lemma MatchesRoot(name: Bytes, b: Block, k: Bytes)
    requires Mappable(b) && !Reserved(k)
    ensures Api.BlockTypesOk(b) && Api.BlockFollowable(b)
    ensures Matches(AsSchema(Api.RootSchema(name, b)), k) ==
            Matches(Api.BlockSchemaOn(b, Api.Spec), k) + Matches(Api.BlockSchemaOn(b, Api.Status), k)
  {
    PlainIsDescribed(b);
    var root := Api.RootSchema(name, b);
    Api.PartitionedHere(b, Api.Status, Api.TFOPERATOR);
    assert !Declares(b, Api.TFOPERATOR);
    MatchesStatus(Api.BlockSchemaOn(b, Api.Status), k);
    TwoBelow(AsSchema(root), "spec", "status", k);
  }

  lemma TwoBelow(s: Api.Schema, n: Bytes, m: Bytes, k: Bytes)
    requires s.properties.Keys == {n, m} && k != n && k != m
    ensures Matches(s, k) == Matches(s.properties[n], k) + Matches(s.properties[m], k)
  {
  }

  // ---------------------------------------------------------------- along a path

  /** Down nested blocks that are shown as objects. */
  predicate Walkable(b: Block, path: seq<Bytes>)
    decreases |path|
  {
    path != [] ==>
      && path[0] in b.blockTypes && IsObjectProperty(b.blockTypes[path[0]])
      && Walkable(b.blockTypes[path[0]].block, path[1..])
  }

  function Down(b: Block, path: seq<Bytes>): Block
    requires Walkable(b, path)
    decreases |path|
  {
    if path == [] then b else Down(b.blockTypes[path[0]].block, path[1..])
  }

  lemma {:induction false} DownIsBlockAt(b: Block, path: seq<Bytes>)
    requires Walkable(b, path)
    ensures Api.BlockAt(b, path) == Some(Down(b, path))
    decreases |path|
  {
    if path != [] { DownIsBlockAt(b.blockTypes[path[0]].block, path[1..]); }
  }

  lemma {:induction false} DownOneMore(b: Block, path: seq<Bytes>, n: Bytes)
    requires Walkable(b, path) && n in Down(b, path).blockTypes && IsObjectProperty(Down(b, path).blockTypes[n])
    ensures Walkable(b, path + [n]) && Down(b, path + [n]) == Down(b, path).blockTypes[n].block
    decreases |path|
  {
    if path != [] {
      DownOneMore(b.blockTypes[path[0]].block, path[1..], n);
      assert (path + [n])[1..] == path[1..] + [n];
    }
  }

  lemma {:induction false} DownKeeps(b: Block, path: seq<Bytes>)
    requires Walkable(b, path) && PlainTypes(b) && UniqueNames(b)
    ensures PlainTypes(Down(b, path)) && UniqueNames(Down(b, path))
    ensures forall k :: Declares(Down(b, path), k) ==> Declares(b, k)
    decreases |path|
  {
    if path != [] { DownKeeps(b.blockTypes[path[0]].block, path[1..]); }
  }

  /** What a block at a path declares is met at that path only. */
  lemma {:induction false} MatchesAlong(b: Block, side: Api.Side, path: seq<Bytes>, k: Bytes)
    requires Walkable(b, path) && PlainTypes(b) && UniqueNames(b) && Declares(Down(b, path), k)
    ensures Api.BlockTypesOk(b) && Api.BlockFollowable(b)
    ensures Api.BlockTypesOk(Down(b, path)) && Api.BlockFollowable(Down(b, path))
    ensures Matches(Api.BlockSchemaOn(b, side), k) == Matches(Api.BlockSchemaOn(Down(b, path), side), k)
    decreases |path|
  {
    PlainIsDescribed(b);
    if path != [] {
      MatchesAlong(b.blockTypes[path[0]].block, side, path[1..], k);
      DownKeeps(b.blockTypes[path[0]].block, path[1..]);
      MatchesInside(b, side, path[0], k);
    }
  }

  lemma HereIsDeclared(b: Block, k: Bytes)
    requires Here(b, k) != Nothing
    ensures Declares(b, k)
  {
  }

  /**
   The search by bare name is the lookup along the path: whatever name a reachable block declares,
   the walk over the whole schema meets exactly what that block has under it in spec and status.
   */
  lemma BareNameIsPath(name: Bytes, b: Block, path: seq<Bytes>, k: Bytes)
    requires Mappable(b) && Walkable(b, path) && Here(Down(b, path), k) != Nothing
    ensures PlainTypes(Down(b, path)) && UniqueNames(Down(b, path))
    ensures Api.BlockTypesOk(b) && Api.BlockFollowable(b)
    ensures Api.BlockTypesOk(Down(b, path)) && Api.BlockFollowable(Down(b, path))
    ensures Matches(AsSchema(Api.RootSchema(name, b)), k) ==
              HereOn(Down(b, path), Api.Spec, k) + HereOn(Down(b, path), Api.Status, k)
  {
    var c := Down(b, path);
    HereIsDeclared(c, k);
    DownKeeps(b, path);
    MatchesRoot(name, b, k);
    MatchesAlong(b, Api.Spec, path, k);
    MatchesAlong(b, Api.Status, path, k);
    MatchesHere(c, Api.Spec, k);
    MatchesHere(c, Api.Status, k);
  }

  function PropertyAt(s: Api.Schema, path: seq<Bytes>, k: Bytes): set<Api.Schema> {
    match Api.SchemaAt(s, path)
    case None => {}
    case Some(here) => if k in here.properties then {here.properties[k]} else {}
  }

  /** And that is what following the path in the schema of a side gives. */
  lemma HereIsPropertyAt(b: Block, side: Api.Side, path: seq<Bytes>, k: Bytes)
    requires Mappable(b) && Walkable(b, path)
    ensures Api.BlockTypesOk(b) && Api.BlockFollowable(b)
    ensures Api.BlockTypesOk(Down(b, path)) && Api.BlockFollowable(Down(b, path))
    ensures HereOn(Down(b, path), side, k) == PropertyAt(Api.BlockSchemaOn(b, side), path, k)
  {
    PlainIsDescribed(b);
    DownKeeps(b, path);
    DownIsBlockAt(b, path);
    Api.BlocksOnBothSides(b, side, path);
    MatchesOwn(Down(b, path), side, k);
  }

  lemma MatchesInArray(c: Block, side: Api.Side, n: Bytes, k: Bytes)
    requires PlainTypes(c) && UniqueNames(c) && n in c.blockTypes && !IsObjectProperty(c.blockTypes[n]) &&
               Declares(c.blockTypes[n].block, k)
    ensures Api.BlockTypesOk(c) && Api.BlockFollowable(c) && Matches(Api.BlockSchemaOn(c, side), k) == {}
  {
    MatchesOwn(c, side, k);
    forall m | m in Api.BlockSchemaOn(c, side).properties
      ensures Matches(Api.BlockSchemaOn(c, side).properties[m], k) == {}
    {
      if m == n { MatchesUnder(c, side, m, k); } else { MatchesElsewhere(c, side, n, m, k); }
    }
  }

  /** Names inside an array-shaped block are not met at all: the walk does not enter items. */
  lemma NamesInArraysAreNotMet(name: Bytes, b: Block, path: seq<Bytes>, n: Bytes, k: Bytes)
    requires Mappable(b) && Walkable(b, path)
    requires n in Down(b, path).blockTypes && !IsObjectProperty(Down(b, path).blockTypes[n]) &&
               Declares(Down(b, path).blockTypes[n].block, k)
    ensures Api.BlockTypesOk(b) && Api.BlockFollowable(b)
    ensures Matches(AsSchema(Api.RootSchema(name, b)), k) == {}
  {
    var c := Down(b, path);
    assert Declares(c, k);
    DownKeeps(b, path);
    MatchesRoot(name, b, k);
    MatchesAlong(b, Api.Spec, path, k);
    MatchesAlong(b, Api.Status, path, k);
    MatchesInArray(c, Api.Spec, n, k);
    MatchesInArray(c, Api.Status, n, k);
  }

  // ---------------------------------------------------------------- what a search in a block finds

  /** The name is declared by the block, or by one below it that is reached through objects. */
  predicate Reaches(c: Block, k: Bytes) {
    Here(c, k) != Nothing
    || exists n :: n in c.blockTypes && IsObjectProperty(c.blockTypes[n]) && Reaches(c.blockTypes[n].block, k)
  }

  /** What the search finds among these. */
  ghost function Seek(c: Block, k: Bytes): (f: Found)
    ensures f != Nothing <==> Reaches(c, k)
  {
    if Here(c, k) != Nothing then Here(c, k)
    else if n :| n in c.blockTypes && IsObjectProperty(c.blockTypes[n]) && Reaches(c.blockTypes[n].block, k) then
      Seek(c.blockTypes[n].block, k)
    else Nothing
  }

  lemma {:induction false} ReachedIsDeclared(c: Block, k: Bytes)
    requires Reaches(c, k)
    ensures Declares(c, k)
  {
    if Here(c, k) == Nothing {
      var n :| n in c.blockTypes && IsObjectProperty(c.blockTypes[n]) && Reaches(c.blockTypes[n].block, k);
      ReachedIsDeclared(c.blockTypes[n].block, k);
    }
  }

  /** With unique names there is one block to look into. */
  lemma SeekBelow(c: Block, n: Bytes, k: Bytes)
    requires UniqueNames(c) && n in c.blockTypes && IsObjectProperty(c.blockTypes[n]) &&
               Reaches(c.blockTypes[n].block, k)
    ensures Reaches(c, k) && Here(c, k) == Nothing && Seek(c, k) == Seek(c.blockTypes[n].block, k)
  {
    ReachedIsDeclared(c.blockTypes[n].block, k);
    forall m | m in c.blockTypes && Reaches(c.blockTypes[m].block, k) ensures m == n {
      ReachedIsDeclared(c.blockTypes[m].block, k);
    }
  }

  lemma {:induction false} SeekOccurs(c: Block, k: Bytes)
    requires UniqueNames(c) && Reaches(c, k)
    ensures Occurs(c, k, Seek(c, k))
  {
    if Here(c, k) == Nothing {
      var n :| n in c.blockTypes && IsObjectProperty(c.blockTypes[n]) && Reaches(c.blockTypes[n].block, k);
      SeekBelow(c, n, k);
      SeekOccurs(c.blockTypes[n].block, k);
    }
  }

  /** So the search through the whole tree finds it too. */
  lemma SeekIsFound(c: Block, k: Bytes, f: Found)
    requires UniqueNames(c) && Reaches(c, k) && Occurs(c, k, f)
    ensures f == Seek(c, k)
  {
    SeekOccurs(c, k);
    OccursOnce(c, k, f, Seek(c, k));
  }

  predicate PlainFound(f: Found) {
    (f.AnAttribute? ==> Flat(f.attr.attrType)) && (f.ABlock? ==> PlainTypes(f.nb.block))
  }

  lemma {:induction false} SeekIsPlain(c: Block, k: Bytes)
    requires PlainTypes(c) && UniqueNames(c)
    ensures PlainFound(Seek(c, k))
  {
    if Reaches(c, k) && Here(c, k) == Nothing {
      var n :| n in c.blockTypes && IsObjectProperty(c.blockTypes[n]) && Reaches(c.blockTypes[n].block, k);
      SeekBelow(c, n, k);
      SeekIsPlain(c.blockTypes[n].block, k);
    }
  }

  /** All properties generated for what was found. */
  ghost function Generated(f: Found): set<Api.Schema>
    requires PlainFound(f)
  {
    match f
    case AnAttribute(attr) => FlatIsDescribed(attr.attrType); {Api.TypeSchema(attr.attrType).value}
    case ABlock(nb) =>
      PlainIsDescribed(nb.block);
      {Api.NestedSchema(nb, Api.Spec), Api.NestedSchema(nb, Api.Status)}
    case Nothing => {}
  }

  lemma GeneratedOnSides(c: Block, k: Bytes)
    requires PlainTypes(c) && UniqueNames(c) && Api.BlockTypesOk(c) && Api.BlockFollowable(c)
    ensures PlainFound(Here(c, k))
    ensures HereOn(c, Api.Spec, k) + HereOn(c, Api.Status, k) == Generated(Here(c, k))
  {
    if k in c.attributes { FlatIsDescribed(c.attributes[k].attrType); }
  }

  /** The properties met under a name are those generated for what the search finds. */
  ghost predicate Meets(root: Api.Schema, c: Block, k: Bytes) {
    PlainFound(Seek(c, k)) && (Reaches(c, k) ==> Matches(root, k) == Generated(Seek(c, k)))
  }

  /** And a name that is declared in array-shaped blocks only is not met. */
  ghost predicate MeetsNoItems(root: Api.Schema, c: Block, k: Bytes) {
    Declares(c, k) && !Reaches(c, k) ==> Matches(root, k) == {}
  }

  /** So it is for this block and for all those below it that are shown as objects. */
  ghost predicate Knows(root: Api.Schema, c: Block) {
    && PlainTypes(c) && UniqueNames(c)
    && (forall k :: Meets(root, c, k) && MeetsNoItems(root, c, k))
    && (forall n :: n in c.blockTypes && IsObjectProperty(c.blockTypes[n]) ==> Knows(root, c.blockTypes[n].block))
  }

  lemma {:induction false} MeetsAlong(name: Bytes, b: Block, path: seq<Bytes>, k: Bytes)
    requires Mappable(b) && Walkable(b, path)
    ensures Api.BlockTypesOk(b) && Api.BlockFollowable(b)
    ensures Meets(AsSchema(Api.RootSchema(name, b)), Down(b, path), k)
    decreases Down(b, path)
  {
    PlainIsDescribed(b);
    var c := Down(b, path);
    DownKeeps(b, path);
    SeekIsPlain(c, k);
    if Here(c, k) != Nothing {
      BareNameIsPath(name, b, path, k);
      GeneratedOnSides(c, k);
    } else if Reaches(c, k) {
      var n :| n in c.blockTypes && IsObjectProperty(c.blockTypes[n]) && Reaches(c.blockTypes[n].block, k);
      SeekBelow(c, n, k);
      DownOneMore(b, path, n);
      MeetsAlong(name, b, path + [n], k);
    }
  }

  lemma {:induction false} MeetsNoItemsAlong(name: Bytes, b: Block, path: seq<Bytes>, k: Bytes)
    requires Mappable(b) && Walkable(b, path)
    ensures Api.BlockTypesOk(b) && Api.BlockFollowable(b)
    ensures MeetsNoItems(AsSchema(Api.RootSchema(name, b)), Down(b, path), k)
    decreases Down(b, path)
  {
    PlainIsDescribed(b);
    var c := Down(b, path);
    if Declares(c, k) && !Reaches(c, k) {
      var n :| n in c.blockTypes && Declares(c.blockTypes[n].block, k);
      if IsObjectProperty(c.blockTypes[n]) {
        DownOneMore(b, path, n);
        MeetsNoItemsAlong(name, b, path + [n], k);
      } else {
        NamesInArraysAreNotMet(name, b, path, n, k);
      }
    }
  }

  lemma {:induction false} KnowsAlong(name: Bytes, b: Block, path: seq<Bytes>)
    requires Mappable(b) && Walkable(b, path)
    ensures Api.BlockTypesOk(b) && Api.BlockFollowable(b)
    ensures Knows(AsSchema(Api.RootSchema(name, b)), Down(b, path))
    decreases Down(b, path)
  {
    PlainIsDescribed(b);
    var c := Down(b, path);
    DownKeeps(b, path);
    forall k { MeetsAlong(name, b, path, k); }
    forall k { MeetsNoItemsAlong(name, b, path, k); }
    forall n | n in c.blockTypes && IsObjectProperty(c.blockTypes[n])
      ensures Knows(AsSchema(Api.RootSchema(name, b)), c.blockTypes[n].block)
    {
      DownOneMore(b, path, n);
      KnowsAlong(name, b, path + [n]);
    }
  }

  /** The schema that the resource of this name is installed with. */
  ghost function RootOf(name: Bytes, b: Block): Api.Schema
    requires PlainTypes(b)
  {
    PlainIsDescribed(b);
    AsSchema(Api.RootSchema(name, b))
  }
}
