/**
 getTerraformValueFromInterface (reconcile.go:450-572): the loops of the source, map entries in
 an arbitrary order, against the functions of AttributeMapping.
 */
module AttributeMethods {
  import opened GoStrings
  import opened Cty
  import opened References
  import opened AttributeMapping
  import ConfigMeaning

  /** GetTerraformValueResult; the property path that goes into messages is left out. */
  datatype GetTerraformValueResult = GetTerraformValueResult(
    value: Option<Value>, error: Option<string>, statusMessage: string)

  /** A value, an error, or a message saying why to try again: exactly one of the three. */
  predicate OneOutcome(value: Option<Value>, statusMessage: string, error: Option<string>) {
    && (value.Some? ==> error.None? && statusMessage == "")
    && (value.None? && error.None? ==> statusMessage != "")
  }

  predicate Describes(r: GetTerraformValueResult, t: Type, j: Json, store: Store) {
    && OneOutcome(r.value, r.statusMessage, r.error)
    && (r.value.Some? ==> AttrOk(t, j, Against(store)) && r.value.value == AttrValue(t, j, Against(store)))
    && (r.error.Some? ==> AttrMayFail(t, j, Against(store), Error))
    && (r.value.None? && r.error.None? ==> AttrMayFail(t, j, Against(store), Retry))
  }

  /** So a value comes back exactly when the mapping can succeed. */
  lemma ValueIffOk(r: GetTerraformValueResult, t: Type, j: Json, store: Store)
    requires Describes(r, t, j, store)
    ensures r.value.Some? <==> AttrOk(t, j, Against(store))
  {
    OkOrFails(t, j, Against(store));
  }

  /** And it says what the JSON value says. */
  lemma ValueMeans(r: GetTerraformValueResult, t: Type, j: Json, store: Store)
    requires Describes(r, t, j, store) && r.value.Some?
    ensures ConfigMeaning.AttributeMeans(t, j, Against(store), r.value.value)
  {
    ConfigMeaning.AttributeValueMeans(t, j, Against(store));
  }

  function Failure(message: string): GetTerraformValueResult {
    GetTerraformValueResult(None, Some(message), "")
  }

  function TryAgain(message: string): GetTerraformValueResult {
    GetTerraformValueResult(None, None, message)
  }

  function Success(v: Value): GetTerraformValueResult {
    GetTerraformValueResult(Some(v), None, "")
  }

  method GetTerraformValueFromInterface(t: Type, j: Json, store: Store) returns (r: GetTerraformValueResult)
    requires Constructible(t, j)
    ensures Describes(r, t, j, store)
    decreases t, 1
  {
    match t
    case TString => r := StringValue(j, store);
    case TBool =>
      if !j.JBool? { return Failure("expected 'bool'"); }
      r := Success(BoolV(j.flag));
    case TMap(e) =>
      if !j.JObject? { return Failure("expected 'map[string]interface{}'"); }
      r := MapValue(e, j.fields, store);
    case TList(e) =>
      if !j.JArray? { return Failure("expected '[]interface{}'"); }
      var items;
      r, items := ElementValues(e, j.items, store);
      if r.error.None? && r.statusMessage == "" {
        ItemTypes(e, j.items, store);
        r := Success(ListVal(items));
      }
    case TSet(e) =>
      if !j.JArray? { return Failure("expected '[]interface{}'"); }
      var items;
      r, items := ElementValues(e, j.items, store);
      if r.error.None? && r.statusMessage == "" {
        ItemTypes(e, j.items, store);
        r := Success(SetVal(items));
      }
    case _ => r := Failure("Unhandled type");
  }

  method StringValue(j: Json, store: Store) returns (r: GetTerraformValueResult)
    ensures Describes(r, TString, j, store)
  {
    if !j.JString? { return Failure("expected 'string'"); }
    var text := j.text;
    if IsReference(text) {
      var resolved := Resolve(store, text);
      LaterSaysWhy(store, text);
      match resolved {
        case Broken(message) => return Failure(message);
        case Later(message) => return TryAgain(message);
        case Text(value) => text := value;
      }
    }
    r := Success(StringV(text));
  }

  method MapValue(e: Type, fields: map<Bytes, Json>, store: Store) returns (r: GetTerraformValueResult)
    requires Constructible(TMap(e), JObject(fields))
    ensures Describes(r, TMap(e), JObject(fields), store)
    decreases e, 2
  {
    var resultMap: map<Bytes, Value>, todo := map[], fields.Keys;
    while todo != {}
      invariant todo <= fields.Keys && resultMap.Keys == fields.Keys - todo
      invariant EntriesSoFar(e, fields, store, resultMap)
      decreases |todo|
    {
      var k :| k in todo;
      var entry := GetTerraformValueFromInterface(e, fields[k], store);
      EntryFails(e, fields, k, store, entry);
      if entry.error.Some? { return Failure("Error getting map value"); }
      if entry.value.None? { return TryAgain(entry.statusMessage); }
      EntryAdded(e, fields, k, store, entry.value.value, resultMap);
      resultMap, todo := resultMap[k := entry.value.value], todo - {k};
    }
    r := MapFrom(e, fields, store, resultMap);
  }

  method MapFrom(e: Type, ghost fields: map<Bytes, Json>, ghost store: Store, resultMap: map<Bytes, Value>)
    returns (r: GetTerraformValueResult)
    requires fields != map[] && resultMap.Keys == fields.Keys && EntriesSoFar(e, fields, store, resultMap)
    ensures Describes(r, TMap(e), JObject(fields), store)
  {
    EntriesDone(e, fields, store, resultMap);
    var v := MapVal(resultMap);
    r := Success(v);
    MapDescribed(e, fields, store, v);
  }

  lemma EntryFails(e: Type, fields: map<Bytes, Json>, k: Bytes, store: Store, entry: GetTerraformValueResult)
    requires k in fields && Describes(entry, e, fields[k], store)
    ensures entry.error.Some? ==> Describes(Failure("Error getting map value"), TMap(e), JObject(fields), store)
    ensures entry.error.None? && entry.value.None? ==>
              Describes(TryAgain(entry.statusMessage), TMap(e), JObject(fields), store)
  {
  }

  lemma EntryAdded(e: Type, fields: map<Bytes, Json>, k: Bytes, store: Store, v: Value, resultMap: map<Bytes, Value>)
    requires k in fields && AttrOk(e, fields[k], Against(store)) && v == AttrValue(e, fields[k], Against(store))
    requires EntriesSoFar(e, fields, store, resultMap)
    ensures EntriesSoFar(e, fields, store, resultMap[k := v])
  {
  }

  lemma MapDescribed(e: Type, fields: map<Bytes, Json>, store: Store, v: Value)
    requires AttrOk(TMap(e), JObject(fields), Against(store)) && v == MapV(e, AttrEntries(e, fields, Against(store)))
    ensures Describes(Success(v), TMap(e), JObject(fields), store)
  {
  }

  predicate EntriesSoFar(e: Type, fields: map<Bytes, Json>, store: Store, resultMap: map<Bytes, Value>) {
    && resultMap.Keys <= fields.Keys
    && forall k :: k in resultMap ==>
         AttrOk(e, fields[k], Against(store)) && resultMap[k] == AttrValue(e, fields[k], Against(store))
  }

  lemma EntriesDone(e: Type, fields: map<Bytes, Json>, store: Store, resultMap: map<Bytes, Value>)
    requires resultMap.Keys == fields.Keys && fields != map[]
    requires EntriesSoFar(e, fields, store, resultMap)
    ensures AttrOk(TMap(e), JObject(fields), Against(store))
    ensures resultMap != map[] && resultMap == AttrEntries(e, fields, Against(store))
    ensures forall k :: k in resultMap ==> TypeOf(resultMap[k]) == e
    ensures SameType(resultMap.Values)
  {
    var k :| k in fields;
    assert k in resultMap;
    forall k | k in resultMap ensures TypeOf(resultMap[k]) == e {
      AttrValueType(e, fields[k], Against(store));
    }
  }

  /** The items of a list or set, in order. */
  method ElementValues(e: Type, items: seq<Json>, store: Store) returns (r: GetTerraformValueResult, values: seq<Value>)
    requires forall i :: 0 <= i < |items| ==> Constructible(e, items[i])
    ensures r.error.Some? ==> r.value.None? && FirstFailure(e, items, Against(store), Error)
    ensures r.error.None? && r.statusMessage != "" ==> r.value.None? && FirstFailure(e, items, Against(store), Retry)
    ensures r.error.None? && r.statusMessage == "" ==>
              OkBefore(e, items, Against(store), |items|) && values == AttrValues(e, items, Against(store))
    decreases e, 2
  {
    var l := Against(store);
    values := [];
    for i := 0 to |items|
      invariant |values| == i
      invariant OkBefore(e, items, l, i)
      invariant forall m :: 0 <= m < i ==> values[m] == AttrValue(e, items[m], l)
    {
      var item := GetTerraformValueFromInterface(e, items[i], store);
      if item.error.Some? { return Failure("Error getting list value"), []; }
      if item.value.None? { return TryAgain(item.statusMessage), []; }
      values := values + [item.value.value];
    }
    r := GetTerraformValueResult(None, None, "");
  }

  lemma ItemTypes(e: Type, items: seq<Json>, store: Store)
    requires OkBefore(e, items, Against(store), |items|)
    ensures forall i :: 0 <= i < |items| ==> TypeOf(AttrValues(e, items, Against(store))[i]) == e
    ensures SameType(Members(AttrValues(e, items, Against(store))))
  {
    forall i | 0 <= i < |items| ensures TypeOf(AttrValues(e, items, Against(store))[i]) == e {
      AttrValueType(e, items[i], Against(store));
    }
  }
}
