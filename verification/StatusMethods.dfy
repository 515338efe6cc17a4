/**
 getOpenAPIValueFromTerraformValue, getCRDValueFromTerraformValue, the walk with its callback, and
 mapTerraformValuesToCRDStatus (reconcile.go:656-669, 719-926), with Go maps and cty sets visited
 in an arbitrary order and an arbitrary vector for each encryption.
 */
module StatusMethods {
  import opened GoStrings
  import opened Cty
  import opened BlockSchema
  import opened PropertySearch
  import opened StateCodec
  import opened StatusMapping
  import Api = OpenApi

  /** The parts of a TerraformReconciler that the mapping uses. */
  datatype Reconciler = Reconciler(openAPISchema: Api.Schema, codec: Codec)

  /** A JSON value (JNull for Go's nil), an error, or a run-time panic. */
  datatype Outcome = Shown(j: Json) | Error(message: string) | Panic

  // ---------------------------------------------------------------- contracts

  /** The schema, the value and its place belong together, so that the mapping must succeed. */
  ghost predicate Ready(root: Api.Schema, v: Value, f: Found, p: Api.Schema) {
    match f
    case AnAttribute(attr) => ReadyAttribute(root, v, p)
    case ABlock(nb) => ReadyBlock(root, v, nb, p)
    case Nothing => FitsItem(root, v) && p.kind == Api.OBJECT
  }

  ghost predicate ReadyAttribute(root: Api.Schema, v: Value, p: Api.Schema) {
    var t := TypeOf(v);
    Flat(t) && FitsAttribute(root, v, t) && Api.TypeOk(t) && Api.Followable(t) && Api.TypeSchema(t) == Some(p)
  }

  ghost predicate ReadyBlock(root: Api.Schema, v: Value, nb: NestedBlock, p: Api.Schema) {
    && PlainTypes(nb.block) && (IsObjectProperty(nb) ==> Knows(root, nb.block)) && FitsBlock(root, v, nb)
    && p.kind == (if IsObjectProperty(nb) then Api.OBJECT else Api.ARRAY)
    && (!IsObjectProperty(nb) ==> p.items.Some? && p.items.value.kind == Api.OBJECT)
  }

  /** The value is of a kind that cannot be shown at this place. */
  ghost predicate Refused(root: Api.Schema, v: Value, f: Found, p: Api.Schema) {
    && Refuses(root, v, f)
    && (f.ABlock? ==> if IsObjectProperty(f.nb) then Knows(root, f.nb.block) else p.kind == Api.ARRAY)
  }

  ghost predicate Succeeds(codec: Codec, v: Value, f: Found, o: Outcome) {
    o.Shown? && Shows(codec, v, f, o.j)
  }

  /** A value that comes back has a kind that the property allows: mismatches are reported. */
  predicate KindAgrees(p: Api.Schema, o: Outcome) {
    o.Shown? ==>
      match o.j
      case JNull => true
      case JString(_) => p.kind == Api.STRING
      case JBool(_) => p.kind == Api.BOOLEAN || p.kind == Api.STRING
      case JNumber(_) => p.kind == Api.NUMBER
      case JArray(_) => p.kind == Api.ARRAY
      case JObject(_) => p.kind == Api.OBJECT
  }

  // ---------------------------------------------------------------- primitives

  method PrimitiveValue(r: Reconciler, v: Value, sensitive: bool, p: Api.Schema) returns (o: Outcome)
    requires TypeOf(v) == TString || TypeOf(v) == TBool || TypeOf(v) == TNumber
    ensures ReadyAttribute(r.openAPISchema, v, p) ==> o.Shown? && ShowsAttribute(r.codec, sensitive, v, o.j)
    ensures KindAgrees(p, o)
  {
    match TypeOf(v)
    case TString =>
      if p.kind != Api.STRING { return Error("Cannot map key, only able to map to openapi type string"); }
      if v.NullV? { return Shown(JString("")); }
      var text := v.text;
      if sensitive {
        var iv: Vector := *;
        var encrypted;
        text, encrypted := EncryptAndEncodeString(r.codec, iv, text);
      }
      o := Shown(JString(text));
    case TNumber =>
      if p.kind != Api.NUMBER { return Error("Cannot map key, only able to map to openapi type number"); }
      if v.NullV? { return Shown(JNumber(0.0)); }
      if p.format != "float" && p.format != "double" { return Error("Unsupported number format"); }
      o := Shown(JNumber(v.number));
    case TBool =>
      if p.kind != Api.BOOLEAN && p.kind != Api.STRING {
        return Error("Cannot map key, only able to map to openapi type [boolean, string]");
      }
      if v.NullV? { return Shown(JBool(false)); }
      o := Shown(JBool(v.flag));
  }

  // ---------------------------------------------------------------- flatten

  /** The value and whether it was flattened, in one; or a panic of cty. */
  datatype Flattened = Kept | One(x: Value) | Panics

  const EMPTY_OBJECT_VAL := ObjectV(map[])

  /** What flattening may give: the only element, any entry of a map, or an empty object. */
  ghost predicate FlattensTo(v: Value, nb: NestedBlock, o: Flattened) {
    if !IsObjectProperty(nb) || nb.nesting == Single || nb.nesting == Group then o == Kept
    else if nb.nesting == Map then
      if !v.MapV? then o == Panics
      else if v.entries == map[] then o == One(EMPTY_OBJECT_VAL)
      else exists k :: k in v.entries && o == One(v.entries[k])
    else
      match v
      case ListV(_, items) => o == One(if |items| == 1 then items[0] else EMPTY_OBJECT_VAL)
      case SetV(_, members) => if |members| == 1
        then exists m :: m in members && o == One(m) else o == One(EMPTY_OBJECT_VAL)
      case _ => o == Panics
  }

  method FlattenTerraformCollectionValue(v: Value, nb: NestedBlock) returns (o: Flattened)
    ensures FlattensTo(v, nb, o)
  {
    if !IsObjectProperty(nb) || nb.nesting == Single || nb.nesting == Group { return Kept; }
    if nb.nesting == Map {
      if !v.MapV? { return Panics; }
      if v.entries == map[] { return One(EMPTY_OBJECT_VAL); }
      var k :| k in v.entries;
      return One(v.entries[k]);
    }
    if !v.ListV? && !v.SetV? { return Panics; }
    var items := AsValueSlice(v);
    o := One(if |items| == 1 then items[0] else EMPTY_OBJECT_VAL);
  }

  /** The elements of a list in order, of a set in any order. */
  method AsValueSlice(v: Value) returns (items: seq<Value>)
    requires v.ListV? || v.SetV?
    ensures v.ListV? ==> items == v.items
    ensures v.SetV? ==> Enumerates(items, v.members)
  {
    if v.ListV? { return v.items; }
    var todo := v.members;
    items := [];
    while todo != {}
      invariant todo <= v.members && Enumerates(items, v.members - todo)
      decreases |todo|
    {
      var m :| m in todo;
      OneMoreMember(items, v.members, todo, m);
      items, todo := items + [m], todo - {m};
    }
    assert v.members - {} == v.members;
  }

  lemma OneMoreMember(items: seq<Value>, members: set<Value>, todo: set<Value>, m: Value)
    requires m in todo && todo <= members && Enumerates(items, members - todo)
    ensures Enumerates(items + [m], members - (todo - {m}))
  {
    assert members - (todo - {m}) == (members - todo) + {m};
    assert (items + [m])[|items|] == m;
  }

  // ---------------------------------------------------------------- values

  function ElementPlace(f: Found): Found {
    if f.AnAttribute? then f else Nothing
  }

  predicate RequiresFlattening(f: Found) {
    f.ABlock? && IsObjectProperty(f.nb)
  }

  /** getOpenAPIValueFromTerraformValue */
  method GetOpenAPIValueFromTerraformValue(r: Reconciler, v: Value, f: Found, p: Api.Schema) returns (o: Outcome)
    ensures Ready(r.openAPISchema, v, f, p) ==> Succeeds(r.codec, v, f, o)
    ensures Refused(r.openAPISchema, v, f, p) ==> !o.Shown?
    ensures f.AnAttribute? && v.MapV? && p.kind == Api.OBJECT ==> o == MapOutcome(r.openAPISchema, v.entries)
    ensures KindAgrees(p, o)
    decreases v, 5
  {
    var ty := TypeOf(v);
    if ty == TString || ty == TNumber || ty == TBool {
      PrimitivePlace(r.openAPISchema, v, f, p);
      PrimitiveNotRefused(r.openAPISchema, v, f);
      o := PrimitiveValue(r, v, f.AnAttribute? && f.attr.sensitive, p);
    } else if (ty.TList? || ty.TSet?) && !RequiresFlattening(f) {
      o := ArrayValue(r, v, f, p);
    } else {
      o := ObjectValue(r, v, f, p);
    }
  }

  /** A map is shown without its entries, unless a key is the name of some property: that panics. */
  ghost function MapOutcome(root: Api.Schema, entries: map<Bytes, Value>): Outcome {
    if forall k :: k in entries ==> Unknown(root, k) then Shown(NO_FIELDS) else Panic
  }

  lemma PrimitiveNotRefused(root: Api.Schema, v: Value, f: Found)
    requires TypeOf(v) == TString || TypeOf(v) == TBool || TypeOf(v) == TNumber
    ensures !Refuses(root, v, f)
  {
    match f
    case Nothing => assert !RefusesObject(root, v, None);
    case AnAttribute(_) =>
    case ABlock(nb) => assert !RefusesObject(root, v, Some(nb.block));
  }

  lemma PrimitivePlace(root: Api.Schema, v: Value, f: Found, p: Api.Schema)
    requires TypeOf(v) == TString || TypeOf(v) == TBool || TypeOf(v) == TNumber
    ensures Ready(root, v, f, p) ==> f.AnAttribute? && ReadyAttribute(root, v, p)
  {
    if f.ABlock? {
      assert FitsObject(root, v, f.nb.block) ==> v.ObjectV?;
    }
  }

  method ArrayValue(r: Reconciler, v: Value, f: Found, p: Api.Schema) returns (o: Outcome)
    requires (TypeOf(v).TList? || TypeOf(v).TSet?) && !RequiresFlattening(f)
    ensures Ready(r.openAPISchema, v, f, p) ==> Succeeds(r.codec, v, f, o)
    ensures Refused(r.openAPISchema, v, f, p) ==> !o.Shown?
    ensures KindAgrees(p, o)
    decreases v, 4
  {
    ArrayReady(r.openAPISchema, v, f, p);
    ArrayRefused(r.openAPISchema, v, f);
    if p.kind != Api.ARRAY { return Error("Cannot map key, only able to map to openapi type array"); }
    if v.NullV? { return Shown(JArray([])); }
    var items := AsValueSlice(v);
    o := ArrayItems(r, items, ElementPlace(f), p.items, v);
    if o.Shown? { ArrayShown(r.codec, v, f, items, o.j); }
  }

  ghost predicate AllReady(root: Api.Schema, items: seq<Value>, f: Found, p: Option<Api.Schema>) {
    p.Some? && forall i :: 0 <= i < |items| ==> Ready(root, items[i], f, p.value)
  }

  /** The elements that are not skipped: attributes show null, items of a block do not. */
  function NotSkipped(items: seq<Value>, f: Found): seq<Value> {
    if f.Nothing? then NonNull(items) else items
  }

  ghost predicate AllShown(codec: Codec, items: seq<Value>, f: Found, shown: seq<Json>) {
    |shown| == |items| && forall i :: 0 <= i < |items| ==> shown[i] != JNull && Shows(codec, items[i], f, shown[i])
  }

  lemma ArrayReady(root: Api.Schema, v: Value, f: Found, p: Api.Schema)
    requires (TypeOf(v).TList? || TypeOf(v).TSet?) && !RequiresFlattening(f)
    ensures Ready(root, v, f, p) ==> p.kind == Api.ARRAY && !f.Nothing?
    ensures Ready(root, v, f, p) && v.ListV? ==> AllReady(root, v.items, ElementPlace(f), p.items)
    ensures Ready(root, v, f, p) && v.SetV? ==>
              p.items.Some? && forall m :: m in v.members ==> Ready(root, m, ElementPlace(f), p.items.value)
  {
    if Ready(root, v, f, p) && f.AnAttribute? {
      var e := TypeOf(v).elem;
      forall m | FitsAttribute(root, m, e) ensures ReadyAttribute(root, m, p.items.value) {
        FitsHasType(root, m, e);
        FlatIsDescribed(e);
      }
    }
  }

  ghost predicate SomeRefused(root: Api.Schema, items: seq<Value>, f: Found) {
    exists i :: 0 <= i < |items| && Refuses(root, items[i], f)
  }

  /** An array is refused for one of its elements, in whatever order they come. */
  lemma ArrayRefused(root: Api.Schema, v: Value, f: Found)
    requires (TypeOf(v).TList? || TypeOf(v).TSet?) && !RequiresFlattening(f)
    ensures Refuses(root, v, f) ==> v.ListV? || v.SetV?
    ensures Refuses(root, v, f) && v.ListV? ==> SomeRefused(root, v.items, ElementPlace(f))
    ensures Refuses(root, v, f) && v.SetV? ==>
              forall items :: Enumerates(items, v.members) ==> SomeRefused(root, items, ElementPlace(f))
  {
    if f.Nothing? { assert !RefusesObject(root, v, None); }
    if f.ABlock? && !IsObjectProperty(f.nb) {
      assert forall m :: RefusesObject(root, m, None) ==> Refuses(root, m, Nothing);
    }
    if Refuses(root, v, f) && v.SetV? {
      var m :| m in v.members && Refuses(root, m, ElementPlace(f));
      forall items | Enumerates(items, v.members) ensures SomeRefused(root, items, ElementPlace(f)) {
        var i :| 0 <= i < |items| && items[i] == m;
      }
    }
  }

  lemma ArrayShown(codec: Codec, v: Value, f: Found, items: seq<Value>, j: Json)
    requires v.ListV? || v.SetV?
    requires v.ListV? ==> items == v.items
    requires v.SetV? ==> Enumerates(items, v.members)
    ensures j.JArray? && AllShown(codec, NotSkipped(items, ElementPlace(f)), ElementPlace(f), j.items)
            && !f.Nothing? && !RequiresFlattening(f) ==>
              Shows(codec, v, f, j)
  {
    if f.ABlock? {
      AllNonNull(items);
      if v.SetV? { NonNullCount(items, v.members); }
    }
  }

  lemma {:induction false} AllNonNull(items: seq<Value>)
    ensures forall i :: 0 <= i < |NonNull(items)| ==> !NonNull(items)[i].NullV?
  {
    if items != [] { AllNonNull(items[..|items| - 1]); }
  }

  lemma {:induction false} SmallSet(items: seq<Value>, members: set<Value>)
    requires forall m :: m in members ==> m in items
    ensures |members| <= |items|
    decreases |items|
  {
    if items == [] {
      assert members == {};
    } else {
      var last, rest := items[|items| - 1], items[..|items| - 1];
      forall m | m in members - {last} ensures m in rest {
        var i :| 0 <= i < |items| && items[i] == m;
        assert rest[i] == m;
      }
      SmallSet(rest, members - {last});
    }
  }

  /** As many items are kept, in any order of a set, as it has members that are not null. */
  lemma {:induction false} NonNullCount(items: seq<Value>, members: set<Value>)
    requires Enumerates(items, members)
    ensures |NonNull(items)| == |NonNullMembers(members)|
    decreases |items|
  {
    if items == [] {
      assert members == {};
    } else {
      var last, rest := items[|items| - 1], items[..|items| - 1];
      var others := members - {last};
      forall m | m in others ensures m in rest {
        var i :| 0 <= i < |items| && items[i] == m;
        assert rest[i] == m;
      }
      if last in rest { SmallSet(rest, members); }
      NonNullCount(rest, others);
      assert NonNullMembers(members) == NonNullMembers(others) + if last.NullV? then {} else {last};
    }
  }

  method ArrayItems(
    r: Reconciler, items: seq<Value>, f: Found, p: Option<Api.Schema>, ghost v: Value) returns (o: Outcome)
    requires f.Nothing? || f.AnAttribute?
    requires forall i :: 0 <= i < |items| ==> items[i] < v
    ensures o.Shown? ==> o.j.JArray?
    ensures AllReady(r.openAPISchema, items, f, p) ==> o.Shown? && AllShown(r.codec, NotSkipped(items, f), f, o.j.items)
    ensures SomeRefused(r.openAPISchema, items, f) ==> !o.Shown?
    decreases v, 3
  {
    var arr := [];
    ghost var ready := AllReady(r.openAPISchema, items, f, p);
    NoneKept(r.codec, items, f);
    for i := 0 to |items|
      invariant ready ==> AllShown(r.codec, NotSkipped(items[..i], f), f, arr)
      invariant forall m :: 0 <= m < i ==> !Refuses(r.openAPISchema, items[m], f)
    {
      if p.None? { return Panic; }
      var val := GetOpenAPIValueFromTerraformValue(r, items[i], f, p.value);
      if !val.Shown? { return val; }
      if ready { OneMoreKept(r.codec, items, i, f, arr, val.j); }
      if val.j != JNull {
        arr := arr + [val.j];
      }
    }
    assert items[..|items|] == items;
    o := Shown(JArray(arr));
  }

  lemma NoneKept(codec: Codec, items: seq<Value>, f: Found)
    ensures AllShown(codec, NotSkipped(items[..0], f), f, [])
  {
  }

  /** One more element: skipped if it shows nil, which is only a null item of a block. */
  lemma OneMoreKept(codec: Codec, items: seq<Value>, i: nat, f: Found, arr: seq<Json>, j: Json)
    requires i < |items| && !f.ABlock? && AllShown(codec, NotSkipped(items[..i], f), f, arr) &&
               Shows(codec, items[i], f, j)
    ensures AllShown(codec, NotSkipped(items[..i + 1], f), f, if j != JNull then arr + [j] else arr)
  {
    assert items[..i + 1][..i] == items[..i];
    assert items[..i + 1] == items[..i] + [items[i]];
    if f.AnAttribute? { assert ShowsAttribute(codec, f.attr.sensitive, items[i], j); }
  }

  method ObjectValue(r: Reconciler, v: Value, f: Found, p: Api.Schema) returns (o: Outcome)
    requires !TypeOf(v).TString? && !TypeOf(v).TNumber? && !TypeOf(v).TBool?
    requires (TypeOf(v).TList? || TypeOf(v).TSet?) ==> RequiresFlattening(f)
    ensures Ready(r.openAPISchema, v, f, p) ==> Succeeds(r.codec, v, f, o)
    ensures Refused(r.openAPISchema, v, f, p) ==> !o.Shown?
    ensures f.AnAttribute? && v.MapV? && p.kind == Api.OBJECT ==> o == MapOutcome(r.openAPISchema, v.entries)
    ensures KindAgrees(p, o)
    decreases v, 4, 1
  {
    var flattened := Kept;
    if f.ABlock? { flattened := FlattenTerraformCollectionValue(v, f.nb); }
    if Ready(r.openAPISchema, v, f, p) { FlattenedReady(r.openAPISchema, v, f, p, flattened); }
    if flattened.Panics? { return Panic; }
    o := FlattenedValue(r, v, f, p, flattened);
  }

  /** An object or a map, once it is flattened if it has to be. */
  method FlattenedValue(r: Reconciler, v: Value, f: Found, p: Api.Schema, flattened: Flattened) returns (o: Outcome)
    requires ObjectShaped(v, f) && Flattens(v, f, flattened) && !flattened.Panics?
    ensures Ready(r.openAPISchema, v, f, p) ==> Succeeds(r.codec, v, f, o)
    ensures Refused(r.openAPISchema, v, f, p) ==> !o.Shown?
    ensures f.AnAttribute? && v.MapV? && p.kind == Api.OBJECT ==> o == MapOutcome(r.openAPISchema, v.entries)
    ensures KindAgrees(p, o)
    decreases v, 4, 0
  {
    var x := if flattened.One? then flattened.x else v;
    var ty := TypeOf(v);
    ghost var ready := Ready(r.openAPISchema, v, f, p);
    if ready { FlattenedReady(r.openAPISchema, v, f, p, flattened); }
    ghost var refused := Refuses(r.openAPISchema, v, f);
    if refused { FlattenedRefused(r.openAPISchema, v, f, flattened); }
    if !ty.TMap? && !ty.TObject? && !flattened.One? { return Error("Unable to map terraform key"); }
    if p.kind != Api.OBJECT { return Error("Cannot map key, only able to map to openapi type object"); }
    if x.NullV? { return NullObject(ty); }
    if !x.ObjectV? && !x.MapV? { return Panic; }
    o := EntriesValue(r, v, f, flattened);
    if ready && f.ABlock? { FlattenedShown(r.codec, v, f.nb, flattened, o.j); }
  }

  /** The zero value that stands for a null map or object. */
  function NullObject(ty: Type): Outcome {
    if ty.TMap? then Shown(NO_FIELDS)
    else if ty.TObject? then Shown(JNull)
    else Error("Cannot determine zero value for unsupported type")
  }

  /** The entries of the flattened value, with the nested block if there is one. */
  method EntriesValue(r: Reconciler, v: Value, f: Found, flattened: Flattened) returns (o: Outcome)
    requires Flattens(v, f, flattened) && (Inner(v, flattened).ObjectV? || Inner(v, flattened).MapV?)
    ensures var c := if f.ABlock? then Some(f.nb.block) else None;
            var fields := AsValueMap(Inner(v, flattened));
            && (o.Shown? ==> o.j.JObject?)
            && (FieldsReady(r.openAPISchema, fields, c) ==>
                  o.Shown? && ShowsObject(r.codec, ObjectV(fields), c.value, o.j))
            && (c.None? ==> o == MapOutcome(r.openAPISchema, fields))
            && (FieldsRefused(r.openAPISchema, fields, c) ==> !o.Shown?)
    decreases v, 3, 1
  {
    FieldsAreSmaller(v, f, flattened);
    o := ObjectFields(r, AsValueMap(Inner(v, flattened)), if f.ABlock? then Some(f.nb.block) else None, v);
  }

  /** The value that is shown: the flattened one, or the value itself. */
  function Inner(v: Value, flattened: Flattened): Value {
    if flattened.One? then flattened.x else v
  }

  ghost predicate Flattens(v: Value, f: Found, flattened: Flattened) {
    if f.ABlock? then FlattensTo(v, f.nb, flattened) else flattened == Kept
  }

  predicate ObjectShaped(v: Value, f: Found) {
    && !TypeOf(v).TString? && !TypeOf(v).TNumber? && !TypeOf(v).TBool?
    && ((TypeOf(v).TList? || TypeOf(v).TSet?) ==> RequiresFlattening(f))
  }

  /** What a value that is ready becomes when it is flattened. */
  lemma FlattenedReady(root: Api.Schema, v: Value, f: Found, p: Api.Schema, flattened: Flattened)
    requires Ready(root, v, f, p) && Flattens(v, f, flattened) && ObjectShaped(v, f)
    ensures p.kind == Api.OBJECT && !flattened.Panics?
    ensures TypeOf(v).TMap? || TypeOf(v).TObject? || flattened.One?
    ensures var x := Inner(v, flattened);
            if f.ABlock? then
              if x.NullV? then
                if TypeOf(v).TMap? then forall codec :: Shows(codec, v, f, NO_FIELDS)
                else TypeOf(v).TObject? && forall codec :: Shows(codec, v, f, JNull)
              else x.ObjectV? && FieldsReady(root, x.fields, Some(f.nb.block))
            else
              if x.NullV? then TypeOf(v).TMap? || (f.Nothing? && TypeOf(v).TObject?)
              else (x.ObjectV? || x.MapV?) && forall k :: k in AsValueMap(x) ==> Unknown(root, k)
  {
    if f.ABlock? {
      var x, c := Inner(v, flattened), f.nb.block;
      assert FitsObject(root, v, c) ==> v.ObjectV?;
      assert FitsObject(root, x, c) ==> x.ObjectV?;
      assert !x.NullV? ==> FitsObject(root, x, c);
      if v.MapV? && x.NullV? {
        var k :| k in v.entries && v.entries[k] == x;
        forall codec ensures Shows(codec, v, f, NO_FIELDS) { assert ShowsEntry(codec, v.entries[k], c, NO_FIELDS); }
      }
    }
  }

  /** What a refused value becomes when it is flattened. */
  lemma FlattenedRefused(root: Api.Schema, v: Value, f: Found, flattened: Flattened)
    requires Flattens(v, f, flattened) && !flattened.Panics? && ObjectShaped(v, f) && Refuses(root, v, f)
    ensures var x := Inner(v, flattened);
            if f.ABlock? && !IsObjectProperty(f.nb) then TypeOf(v).TMap?
            else if x.NullV? then !TypeOf(v).TMap? && !TypeOf(v).TObject?
            else
              && (x.ObjectV? || x.MapV?)
              && RefusesObject(root, ObjectV(AsValueMap(x)), if f.ABlock? then Some(f.nb.block) else None)
  {
    var x := Inner(v, flattened);
    match f
    case Nothing => assert RefusesObject(root, v, None);
    case AnAttribute(_) =>
      if v.MapV? {
        var k :| k in v.entries && !Unknown(root, k);
        assert RefusesField(root, v.entries[k], k, None);
        assert k in ObjectV(v.entries).fields && RefusesField(root, ObjectV(v.entries).fields[k], k, None);
      }
    case ABlock(nb) =>
      if IsObjectProperty(nb) && !x.NullV? { assert RefusesObject(root, x, Some(nb.block)); }
  }

  lemma FlattenedShown(codec: Codec, v: Value, nb: NestedBlock, flattened: Flattened, j: Json)
    requires IsObjectProperty(nb) && FlattensTo(v, nb, flattened) && !flattened.Panics? && Inner(v, flattened).ObjectV?
    requires ShowsObject(codec, Inner(v, flattened), nb.block, j)
    ensures ShowsBlock(codec, v, nb, j)
  {
  }

  lemma FieldsAreSmaller(v: Value, f: Found, flattened: Flattened)
    requires Flattens(v, f, flattened)
    ensures var x := Inner(v, flattened);
            x.ObjectV? || x.MapV? ==> forall k :: k in AsValueMap(x) ==> AsValueMap(x)[k] < v
  {
  }

  function AsValueMap(x: Value): map<Bytes, Value>
    requires x.ObjectV? || x.MapV?
  {
    if x.ObjectV? then x.fields else x.entries
  }

  /** getCRDValueFromTerraformValue, for each entry of an object or map. */
  method ObjectFields(r: Reconciler, fields: map<Bytes, Value>, c: Option<Block>, ghost v: Value) returns (o: Outcome)
    requires forall k :: k in fields ==> fields[k] < v
    ensures o.Shown? ==> o.j.JObject?
    ensures FieldsReady(r.openAPISchema, fields, c) ==> o.Shown? && ShowsObject(r.codec, ObjectV(fields), c.value, o.j)
    ensures c.None? ==> o == MapOutcome(r.openAPISchema, fields)
    ensures (forall k :: k in fields ==> Unknown(r.openAPISchema, k)) ==> o == Shown(NO_FIELDS)
    ensures FieldsRefused(r.openAPISchema, fields, c) ==> !o.Shown?
    decreases v, 3, 0
  {
    var vm: map<Bytes, Json>, todo := map[], fields.Keys;
    ghost var ready := FieldsReady(r.openAPISchema, fields, c);
    while todo != {}
      invariant todo <= fields.Keys
      invariant (forall k :: k in fields && k !in todo ==> Unknown(r.openAPISchema, k)) ==> vm == map[]
      invariant c.None? ==> forall k :: k in fields && k !in todo ==> Unknown(r.openAPISchema, k)
      invariant forall k :: k in fields && k !in todo ==> !EntryRefused(r.openAPISchema, fields[k], k, c)
      invariant ready ==> ShowsSoFar(r.codec, fields, c.value, fields.Keys - todo, vm)
      decreases |todo|
    {
      var k :| k in todo;
      var val := GetCRDValueFromTerraformValue(r, k, fields[k], c);
      if ready { EntryReady(r.openAPISchema, fields, c, k); }
      if !val.Shown? { return val; }
      if ready { OneMoreShown(r.codec, fields, c.value, todo, vm, k, val.j); }
      if val.j != JNull {
        vm := vm[k := val.j];
      }
      todo := todo - {k};
    }
    o := Shown(JObject(vm));
    if ready { AllFieldsShown(r.codec, fields, c.value, vm); }
  }

  /** The search for this name cannot give a value. */
  ghost predicate EntryRefused(root: Api.Schema, v: Value, k: Bytes, c: Option<Block>) {
    RefusesField(root, v, k, c) && (c.Some? ==> Knows(root, c.value))
  }

  ghost predicate FieldsRefused(root: Api.Schema, fields: map<Bytes, Value>, c: Option<Block>) {
    exists k :: k in fields && EntryRefused(root, fields[k], k, c)
  }

  ghost predicate FieldsReady(root: Api.Schema, fields: map<Bytes, Value>, c: Option<Block>) {
    c.Some? && Knows(root, c.value) && FitsObject(root, ObjectV(fields), c.value)
  }

  lemma EntryReady(root: Api.Schema, fields: map<Bytes, Value>, c: Option<Block>, k: Bytes)
    requires FieldsReady(root, fields, c) && k in fields
    ensures if Seek(c.value, k) == Nothing then Unknown(root, k) else FieldReady(root, k, fields[k], c)
  {
    assert FitsField(root, ObjectV(fields).fields[k], Seek(c.value, k), k);
  }

  ghost predicate ShowsSoFar(
    codec: Codec, fields: map<Bytes, Value>, c: Block, names: set<Bytes>, vm: map<Bytes, Json>)
  {
    && vm.Keys == ShownKeys(fields, c) * names
    && forall k :: k in vm ==> Shows(codec, fields[k], Seek(c, k), vm[k])
  }

  /** What a single field gives: its value, or nothing for a vanishing or unknown one. */
  ghost predicate FieldShown(codec: Codec, v: Value, f: Found, j: Json) {
    if f.Nothing? || Vanishes(v, f) then j == JNull else j != JNull && Shows(codec, v, f, j)
  }

  lemma OneMoreShown(
    codec: Codec, fields: map<Bytes, Value>, c: Block, todo: set<Bytes>, vm: map<Bytes, Json>, k: Bytes, j: Json)
    requires k in todo && todo <= fields.Keys && ShowsSoFar(codec, fields, c, fields.Keys - todo, vm)
    requires FieldShown(codec, fields[k], Seek(c, k), j)
    ensures ShowsSoFar(codec, fields, c, fields.Keys - (todo - {k}), if j != JNull then vm[k := j] else vm)
  {
  }

  lemma AllFieldsShown(codec: Codec, fields: map<Bytes, Value>, c: Block, vm: map<Bytes, Json>)
    requires ShowsSoFar(codec, fields, c, fields.Keys - {}, vm)
    ensures ShowsObject(codec, ObjectV(fields), c, JObject(vm))
  {
    assert ShownKeys(fields, c) * fields.Keys == ShownKeys(fields, c);
  }

  // ---------------------------------------------------------------- the search

  ghost predicate FieldReady(root: Api.Schema, key: Bytes, v: Value, c: Option<Block>) {
    && c.Some? && Knows(root, c.value) && Reaches(c.value, key)
    && FitsField(root, v, Seek(c.value, key), key)
  }

  method GetCRDValueFromTerraformValue(r: Reconciler, key: Bytes, v: Value, c: Option<Block>) returns (o: Outcome)
    ensures Unknown(r.openAPISchema, key) ==> o == Shown(JNull)
    ensures c.None? ==> o == if Unknown(r.openAPISchema, key) then Shown(JNull) else Panic
    ensures FieldReady(r.openAPISchema, key, v, c) ==> o.Shown? && FieldShown(r.codec, v, Seek(c.value, key), o.j)
    ensures EntryRefused(r.openAPISchema, v, key, c) ==> !o.Shown?
    decreases v, 8
  {
    if FieldReady(r.openAPISchema, key, v, c) { KnownIsMet(r.openAPISchema, key, v, c); }
    if EntryRefused(r.openAPISchema, v, key, c) { RefusableAtRoot(r.openAPISchema, key, v, c); }
    o := WalkOpenAPISchemaProperties(r, r.openAPISchema, key, v, c, Shown(JNull));
  }

  ghost predicate MatchedIn(s: Api.Schema, key: Bytes, names: set<Bytes>) {
    exists n :: n in names && n in s.properties && MatchedAt(s, key, n)
  }

  predicate MatchedAt(s: Api.Schema, key: Bytes, n: Bytes)
    requires n in s.properties
  {
    n == key || Matches(s.properties[n], key) != {}
  }

  lemma NoMatchYet(s: Api.Schema, key: Bytes)
    ensures !MatchedIn(s, key, Visited(s, s.properties.Keys))
  {
  }

  lemma MatchedInAll(s: Api.Schema, key: Bytes)
    ensures MatchedIn(s, key, Visited(s, {})) <==> Matches(s, key) != {}
  {
    assert Visited(s, {}) == s.properties.Keys;
    if n :| n in s.properties && Matches(s.properties[n], key) != {} {
      var p :| p in Matches(s.properties[n], key);
      assert p in MatchesBelow(s, key);
    }
    if p :| p in MatchesBelow(s, key) {
      var n :| n in s.properties && p in Matches(s.properties[n], key);
      assert MatchedAt(s, key, n);
    }
    if key in s.properties { assert MatchedAt(s, key, key); }
  }

  lemma MatchedInSome(s: Api.Schema, key: Bytes, todo: set<Bytes>)
    ensures MatchedIn(s, key, Visited(s, todo)) ==> MatchedIn(s, key, Visited(s, {}))
  {
  }

  lemma MatchesOfProperty(s: Api.Schema, key: Bytes, n: Bytes)
    requires n in s.properties
    ensures Matches(s.properties[n], key) <= Matches(s, key) && (n == key ==> s.properties[n] in Matches(s, key))
  {
  }

  lemma MatchedInOneMore(s: Api.Schema, key: Bytes, todo: set<Bytes>, n: Bytes)
    requires n in todo && todo <= s.properties.Keys
    ensures MatchedIn(s, key, Visited(s, todo - {n})) <==> MatchedIn(s, key, Visited(s, todo)) || MatchedAt(s, key, n)
  {
    assert Visited(s, todo - {n}) == Visited(s, todo) + {n};
    if MatchedAt(s, key, n) { assert n in Visited(s, todo - {n}); }
  }

  /** The outcome after the matches in a part of the schema: the last one, or what there was before. */
  ghost predicate LastMatch(
    r: Reconciler, key: Bytes, v: Value, c: Option<Block>, matched: bool, before: Outcome, o: Outcome)
  {
    if !matched then o == before
    else
      && FieldReady(r.openAPISchema, key, v, c) && o.Shown?
      && FieldShown(r.codec, v, Seek(c.value, key), o.j)
  }

  /** These properties were all generated for what the block's search finds under the name. */
  ghost predicate GeneratedHere(s: Api.Schema, key: Bytes, c: Option<Block>) {
    c.Some? && Reaches(c.value, key) ==>
      PlainFound(Seek(c.value, key)) && Matches(s, key) <= Generated(Seek(c.value, key))
  }

  /** What a walk over a part of the schema gives: success, failure, and the panic without a block. */
  ghost predicate Walked(
    r: Reconciler, key: Bytes, v: Value, c: Option<Block>, matched: bool, before: Outcome, o: Outcome)
  {
    && (FieldReady(r.openAPISchema, key, v, c) ==> LastMatch(r, key, v, c, matched, before, o))
    && (EntryRefused(r.openAPISchema, v, key, c) ==> if matched then !o.Shown? else o == before)
  }

  /** walkOpenAPISchemaProperties with the callback, which captures the result of each match. */
  method WalkOpenAPISchemaProperties(
    r: Reconciler, s: Api.Schema, key: Bytes, v: Value, c: Option<Block>, before: Outcome) returns (o: Outcome)
    requires before.Shown?
    ensures Matches(s, key) == {} ==> o == before
    ensures c.None? ==> o == if Matches(s, key) == {} then before else Panic
    ensures GeneratedHere(s, key, c) ==> Walked(r, key, v, c, Matches(s, key) != {}, before, o)
    decreases v, 7, s, 1
  {
    o := before;
    var todo := s.properties.Keys;
    NoMatchYet(s, key);
    while todo != {} && o.Shown?
      invariant todo <= s.properties.Keys
      invariant Matches(s, key) == {} ==> o == before
      invariant c.None? ==> o == if MatchedIn(s, key, Visited(s, todo)) then Panic else before
      invariant GeneratedHere(s, key, c) ==> Walked(r, key, v, c, MatchedIn(s, key, Visited(s, todo)), before, o)
      decreases |todo|
    {
      var n :| n in todo;
      o := WalkOneProperty(r, s, n, key, v, c, o);
      MatchedInOneMore(s, key, todo, n);
      todo := todo - {n};
    }
    MatchedInSome(s, key, todo);
    MatchedInAll(s, key);
  }

  function Visited(s: Api.Schema, todo: set<Bytes>): set<Bytes> {
    s.properties.Keys - todo
  }

  /** One property: the callback, if the name matches, then what is below it. */
  method WalkOneProperty(
    r: Reconciler, s: Api.Schema, n: Bytes, key: Bytes, v: Value, c: Option<Block>, before: Outcome)
    returns (o: Outcome)
    requires before.Shown? && n in s.properties
    ensures Matches(s, key) == {} ==> o == before
    ensures c.None? ==> o == if MatchedAt(s, key, n) then Panic else before
    ensures GeneratedHere(s, key, c) ==> Walked(r, key, v, c, MatchedAt(s, key, n), before, o)
    decreases v, 7, s, 0
  {
    MatchesOfProperty(s, key, n);
    o := before;
    if n == key {
      o := ValueOfMatch(r, key, v, c, s.properties[n]);
      if !o.Shown? { return; }
    }
    o := WalkOpenAPISchemaProperties(r, s.properties[n], key, v, c, o);
  }

  /** The callback on a match. */
  method ValueOfMatch(r: Reconciler, key: Bytes, v: Value, c: Option<Block>, p: Api.Schema) returns (o: Outcome)
    ensures c.None? ==> o == Panic
    ensures MatchGenerated(p, key, c) ==> Walked(r, key, v, c, true, o, o)
    decreases v, 6
  {
    if c.None? { return Panic; }
    var f := GetTerraformAttributeOrNestedBlockFromBlock(key, c.value);
    if f == Nothing {
      NotFoundNotReady(r.openAPISchema, key, v, c);
      return Error("Couldn't find terraform attribute");
    }
    o := GetOpenAPIValueFromTerraformValue(r, v, f, p);
    if MatchGenerated(p, key, c) { MatchWalked(r, key, v, c.value, p, f, o); }
  }

  ghost predicate MatchGenerated(p: Api.Schema, key: Bytes, c: Option<Block>) {
    c.Some? && Reaches(c.value, key) ==> PlainFound(Seek(c.value, key)) && p in Generated(Seek(c.value, key))
  }

  lemma NotFoundNotReady(root: Api.Schema, key: Bytes, v: Value, c: Option<Block>)
    requires c.Some? && !Declares(c.value, key)
    ensures !FieldReady(root, key, v, c)
  {
    if Reaches(c.value, key) { ReachedIsDeclared(c.value, key); }
  }

  /** What the value of a match means for the field that is searched for. */
  lemma MatchWalked(r: Reconciler, key: Bytes, v: Value, c: Block, p: Api.Schema, f: Found, o: Outcome)
    requires MatchGenerated(p, key, Some(c)) && Declares(c, key) && Occurs(c, key, f)
    requires Ready(r.openAPISchema, v, f, p) ==> Succeeds(r.codec, v, f, o)
    requires Refused(r.openAPISchema, v, f, p) ==> !o.Shown?
    ensures Walked(r, key, v, Some(c), true, o, o)
  {
    var root := r.openAPISchema;
    if FieldReady(root, key, v, Some(c)) {
      SeekIsFound(c, key, f);
      MatchIsReady(root, key, v, c, p);
      ShownIsShown(r.codec, root, key, v, f, o.j);
    }
    if EntryRefused(root, v, key, Some(c)) {
      MatchIsRefused(root, key, v, c, p, f);
    }
  }

  lemma {:induction false} SeekKnows(root: Api.Schema, c: Block, key: Bytes)
    requires Knows(root, c) && Reaches(c, key)
    ensures var f := Seek(c, key); f.ABlock? && IsObjectProperty(f.nb) ==> Knows(root, f.nb.block)
    decreases c
  {
    if Here(c, key) == Nothing {
      var n :| n in c.blockTypes && IsObjectProperty(c.blockTypes[n]) && Reaches(c.blockTypes[n].block, key);
      SeekBelow(c, n, key);
      SeekKnows(root, c.blockTypes[n].block, key);
    }
  }

  lemma MatchIsRefused(root: Api.Schema, key: Bytes, v: Value, c: Block, p: Api.Schema, f: Found)
    requires EntryRefused(root, v, key, Some(c)) && MatchGenerated(p, key, Some(c)) && Occurs(c, key, f) &&
               Declares(c, key)
    ensures Refused(root, v, f, p)
  {
    assert MeetsNoItems(root, c, key);
    SeekIsFound(c, key, f);
    SeekKnows(root, c, key);
    if f.ABlock? {
      PlainIsDescribed(f.nb.block);
      NestedKind(f.nb, Api.Spec);
      NestedKind(f.nb, Api.Status);
    }
  }

  lemma RefusableAtRoot(root: Api.Schema, key: Bytes, v: Value, c: Option<Block>)
    requires EntryRefused(root, v, key, c)
    ensures GeneratedHere(root, key, c) && Matches(root, key) != {}
  {
    if c.Some? { assert Meets(root, c.value, key); }
  }

  lemma MatchIsReady(root: Api.Schema, key: Bytes, v: Value, c: Block, p: Api.Schema)
    requires FieldReady(root, key, v, Some(c)) && MatchGenerated(p, key, Some(c))
    ensures Ready(root, v, Seek(c, key), p)
  {
    SeekKnows(root, c, key);
    match Seek(c, key)
    case AnAttribute(attr) =>
      FlatIsDescribed(attr.attrType);
      FitsHasType(root, v, attr.attrType);
    case ABlock(nb) =>
      PlainIsDescribed(nb.block);
      NestedKind(nb, Api.Spec);
      NestedKind(nb, Api.Status);
  }

  lemma NestedKind(nb: NestedBlock, side: Api.Side)
    requires Api.BlockTypesOk(nb.block) && Api.BlockFollowable(nb.block)
    ensures var p := Api.NestedSchema(nb, side);
            if IsObjectProperty(nb) then p.kind == Api.OBJECT
              else p.kind == Api.ARRAY && p.items.Some? && p.items.value.kind == Api.OBJECT
  {
    assert Api.BlockSchemaOn(nb.block, side).kind == Api.OBJECT;
  }

  /** Only a vanishing value is shown as nil. */
  lemma ShownIsShown(codec: Codec, root: Api.Schema, key: Bytes, v: Value, f: Found, j: Json)
    requires FitsField(root, v, f, key) && !f.Nothing? && Shows(codec, v, f, j)
    ensures FieldShown(codec, v, f, j)
  {
    if f.ABlock? && IsObjectProperty(f.nb) && j != NO_FIELDS {
      match v
      case SetV(_, members) => var m :| m in members && ShowsObject(codec, m, f.nb.block, j);
      case MapV(_, entries) =>
        if entries != map[] {
          var k :| k in entries && ShowsEntry(codec, entries[k], f.nb.block, j);
          assert ShowsObject(codec, entries[k], f.nb.block, j);
        }
      case ListV(_, items) => assert ShowsObject(codec, items[0], f.nb.block, j);
      case ObjectV(_) => assert ShowsObject(codec, v, f.nb.block, j);
      case _ =>
    }
  }

  lemma KnownIsMet(root: Api.Schema, key: Bytes, v: Value, c: Option<Block>)
    requires FieldReady(root, key, v, c)
    ensures GeneratedHere(root, key, c) && Matches(root, key) != {}
  {
    assert Meets(root, c.value, key);
  }

  // ---------------------------------------------------------------- the whole status

  /** A custom resource in memory. */
  class Unstructured {
    var content: map<Bytes, Json>

    constructor (content: map<Bytes, Json>)
      ensures this.content == content
    {
      this.content := content;
    }
  }

  /** unstructured.NestedMap of the status: an error unless it is an object or missing. */
  function StatusOf(content: map<Bytes, Json>): Result<map<Bytes, Json>> {
    if "status" !in content then Ok(map[])
    else if content["status"].JObject? then Ok(content["status"].fields)
    else Err("Error getting status field")
  }

  /** There is a status to write to, or none yet. */
  predicate MayHaveStatus(content: map<Bytes, Json>) {
    "status" in content ==> content["status"].JObject?
  }

  function StatusFields(content: map<Bytes, Json>): map<Bytes, Json> {
    if "status" in content && content["status"].JObject? then content["status"].fields else map[]
  }

  /** Every attribute and block of the value is written to the status; what else is there stays. */
  ghost predicate StatusUpdated(
    codec: Codec, fields: map<Bytes, Value>, b: Block, before: map<Bytes, Json>, after: map<Bytes, Json>,
    names: set<Bytes>)
  {
    && after.Keys == before.Keys + names
    && (forall k :: k in names && k in fields ==> k in after && FieldShown(codec, fields[k], Seek(b, k), after[k]))
    && (forall k :: k in before && k !in names ==> k in after && after[k] == before[k])
  }

  /** mapTerraformValuesToCRDStatus */
  method MapTerraformValuesToCRDStatus(
    r: Reconciler, b: Block, value: Value, crd: Unstructured) returns (error: Option<string>)
    requires value.ObjectV?
    modifies crd
    ensures error.Some? ==> crd.content == old(crd.content)
    ensures error.None? ==>
              && MayHaveStatus(old(crd.content)) && "status" in crd.content && crd.content["status"].JObject?
              && crd.content == old(crd.content)["status" := crd.content["status"]]
    ensures FieldsRefused(r.openAPISchema, value.fields, Some(b)) ==> error.Some?
    ensures Knows(r.openAPISchema, b) && FitsObject(r.openAPISchema, value, b) ==>
              && (error.None? <==> MayHaveStatus(old(crd.content)))
              && (error.None? ==> StatusUpdated(r.codec, value.fields, b, StatusFields(old(crd.content)),
                 crd.content["status"].fields, value.fields.Keys))
  {
    var status := StatusOf(crd.content);
    if status.Err? { return Some(status.error); }
    var mapped := MapStatusFields(r, b, value.fields, status.value);
    if !mapped.Shown? { return Some("Error mapping Terraform value to CRD status"); }
    crd.content := crd.content["status" := mapped.j];
    error := None;
  }

  method MapStatusFields(r: Reconciler, b: Block, fields: map<Bytes, Value>, before: map<Bytes, Json>)
    returns (o: Outcome)
    ensures o.Shown? ==> o.j.JObject?
    ensures FieldsRefused(r.openAPISchema, fields, Some(b)) ==> !o.Shown?
    ensures FieldsReady(r.openAPISchema, fields, Some(b)) ==>
              o.Shown? && StatusUpdated(r.codec, fields, b, before, o.j.fields, fields.Keys)
  {
    var status, todo := before, fields.Keys;
    ghost var ready := FieldsReady(r.openAPISchema, fields, Some(b));
    StatusNotUpdated(r.codec, fields, b, before);
    while todo != {}
      invariant todo <= fields.Keys
      invariant forall k :: k in fields && k !in todo ==> !EntryRefused(r.openAPISchema, fields[k], k, Some(b))
      invariant ready ==> StatusUpdated(r.codec, fields, b, before, status, fields.Keys - todo)
      decreases |todo|
    {
      var k :| k in todo;
      var val := GetCRDValueFromTerraformValue(r, k, fields[k], Some(b));
      if ready { EntryReady(r.openAPISchema, fields, Some(b), k); }
      if !val.Shown? { return val; }
      if ready { OneMoreUpdated(r.codec, fields, b, before, status, todo, k, val.j); }
      status, todo := status[k := val.j], todo - {k};
    }
    AllUpdated(r.codec, fields, b, before, status);
    o := Shown(JObject(status));
  }

  lemma StatusNotUpdated(codec: Codec, fields: map<Bytes, Value>, b: Block, before: map<Bytes, Json>)
    ensures StatusUpdated(codec, fields, b, before, before, fields.Keys - fields.Keys)
  {
  }

  lemma OneMoreUpdated(
    codec: Codec, fields: map<Bytes, Value>, b: Block, before: map<Bytes, Json>, status: map<Bytes, Json>,
    todo: set<Bytes>, k: Bytes, j: Json)
    requires k in todo && todo <= fields.Keys && StatusUpdated(codec, fields, b, before, status, fields.Keys - todo)
    requires FieldShown(codec, fields[k], Seek(b, k), j)
    ensures StatusUpdated(codec, fields, b, before, status[k := j], fields.Keys - (todo - {k}))
  {
  }

  lemma AllUpdated(
    codec: Codec, fields: map<Bytes, Value>, b: Block, before: map<Bytes, Json>, status: map<Bytes, Json>)
    ensures StatusUpdated(codec, fields, b, before, status, fields.Keys - {}) ==>
              StatusUpdated(codec, fields, b, before, status, fields.Keys)
  {
    assert fields.Keys - {} == fields.Keys;
  }
}
