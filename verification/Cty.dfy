/**
 The cty types and values that the translator meets, and JSON values.  Dynamic types are there
 for the one branch that reports them; tuples and capsules are not.
 */
module Cty {
  import opened GoStrings

  datatype Json =
    | JNull
    | JString(text: Bytes)
    | JBool(flag: bool)
    | JNumber(number: real)
    | JArray(items: seq<Json>)
    | JObject(fields: map<Bytes, Json>)

  /** What is at the end of a path down objects. */
  function Get(j: Json, path: seq<Bytes>): Option<Json>
    decreases |path|
  {
    if path == [] then Some(j)
    else if j.JObject? && path[0] in j.fields then Get(j.fields[path[0]], path[1..])
    else None
  }

  datatype Type =
    | TString | TBool | TNumber | TDynamic
    | TList(elem: Type) | TSet(elem: Type) | TMap(elem: Type)
    | TObject(attributes: map<Bytes, Type>)

  datatype Value =
    | NullV(nullType: Type)
    | StringV(text: Bytes)
    | BoolV(flag: bool)
    | NumberV(number: real)
    | ListV(listElem: Type, items: seq<Value>)
    | SetV(setElem: Type, members: set<Value>)
    | MapV(mapElem: Type, entries: map<Bytes, Value>)
    | ObjectV(fields: map<Bytes, Value>)

  function TypeOf(v: Value): Type {
    match v
    case NullV(t) => t
    case StringV(_) => TString
    case BoolV(_) => TBool
    case NumberV(_) => TNumber
    case ListV(t, _) => TList(t)
    case SetV(t, _) => TSet(t)
    case MapV(t, _) => TMap(t)
    case ObjectV(fields) => TObject(map k | k in fields :: TypeOf(fields[k]))
  }

  predicate IsCollection(t: Type) {
    t.TList? || t.TSet? || t.TMap?
  }

  // ---------------------------------------------------------------- the constructors of cty

  predicate SameType(values: set<Value>) {
    forall v, w :: v in values && w in values ==> TypeOf(v) == TypeOf(w)
  }

  /** cty.ListVal panics on no elements and on elements of different types. */
  function ListVal(items: seq<Value>): (r: Value)
    requires items != [] && SameType(set i | 0 <= i < |items| :: items[i])
    ensures r == ListV(TypeOf(items[0]), items)
  {
    ListV(TypeOf(items[0]), items)
  }

  function SetVal(items: seq<Value>): (r: Value)
    requires items != [] && SameType(set i | 0 <= i < |items| :: items[i])
    ensures r == SetV(TypeOf(items[0]), set i | 0 <= i < |items| :: items[i])
  {
    SetV(TypeOf(items[0]), set i | 0 <= i < |items| :: items[i])
  }

  method MapVal(entries: map<Bytes, Value>) returns (r: Value)
    requires entries != map[] && SameType(entries.Values)
    ensures exists k :: k in entries && r == MapV(TypeOf(entries[k]), entries)
  {
    var k :| k in entries;
    r := MapV(TypeOf(entries[k]), entries);
  }
}
