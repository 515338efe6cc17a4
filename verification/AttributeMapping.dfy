/**
 From a JSON value in a spec to a cty value of an attribute's type (reconcile.go:450-572), by
 recursion on the type.  When the mapping succeeds, what it yields, and which failures it may
 report are given as functions that do not depend on the order in which a map is visited.
 */
module AttributeMapping {
  import opened GoStrings
  import opened Cty
  import opened References

  datatype Kind = Error | Retry

  /** The mapping yields a value. */
  predicate AttrOk(t: Type, j: Json, l: Lookups)
    decreases t, 0
  {
    match t
    case TString => j.JString? && ResolveText(l, j.text).Text?
    case TBool => j.JBool?
    case TMap(e) => j.JObject? && forall k :: k in j.fields ==> AttrOk(e, j.fields[k], l)
    case TList(e) => j.JArray? && forall i :: 0 <= i < |j.items| ==> AttrOk(e, j.items[i], l)
    case TSet(e) => j.JArray? && forall i :: 0 <= i < |j.items| ==> AttrOk(e, j.items[i], l)
    case _ => false
  }

  function AttrValue(t: Type, j: Json, l: Lookups): Value
    requires AttrOk(t, j, l)
    decreases t, 0
  {
    match t
    case TString => StringV(ResolveText(l, j.text).text)
    case TBool => BoolV(j.flag)
    case TMap(e) => MapV(e, AttrEntries(e, j.fields, l))
    case TList(e) => ListV(e, AttrValues(e, j.items, l))
    case TSet(e) => SetV(e, Members(AttrValues(e, j.items, l)))
  }

  function AttrEntries(e: Type, fields: map<Bytes, Json>, l: Lookups): map<Bytes, Value>
    requires forall k :: k in fields ==> AttrOk(e, fields[k], l)
    decreases e, 1
  {
    map k | k in fields :: AttrValue(e, fields[k], l)
  }

  function AttrValues(e: Type, items: seq<Json>, l: Lookups): (r: seq<Value>)
    requires forall i :: 0 <= i < |items| ==> AttrOk(e, items[i], l)
    ensures |r| == |items|
    decreases e, 1
  {
    seq(|items|, i requires 0 <= i < |items| => AttrValue(e, items[i], l))
  }

  function Members(items: seq<Value>): set<Value> {
    set i | 0 <= i < |items| :: items[i]
  }

  /** The failures the mapping may report; list items are visited in order, map entries in any. */
  predicate AttrMayFail(t: Type, j: Json, l: Lookups, kind: Kind)
    decreases t, 0
  {
    match t
    case TString => if j.JString? then TextFails(ResolveText(l, j.text), kind) else kind == Error
    case TBool => !j.JBool? && kind == Error
    case TMap(e) =>
      if j.JObject? then exists k :: k in j.fields && AttrMayFail(e, j.fields[k], l, kind) else kind == Error
    case TList(e) => if j.JArray? then FirstFailure(e, j.items, l, kind) else kind == Error
    case TSet(e) => if j.JArray? then FirstFailure(e, j.items, l, kind) else kind == Error
    case _ => kind == Error
  }

  predicate TextFails(r: Resolved, kind: Kind) {
    match r
    case Text(_) => false
    case Later(_) => kind == Retry
    case Broken(_) => kind == Error
  }

  predicate FirstFailure(e: Type, items: seq<Json>, l: Lookups, kind: Kind)
    decreases e, 1
  {
    exists i :: 0 <= i < |items| && AttrMayFail(e, items[i], l, kind) && OkBefore(e, items, l, i)
  }

  predicate OkBefore(e: Type, items: seq<Json>, l: Lookups, n: nat)
    requires n <= |items|
    decreases e, 1
  {
    forall m :: 0 <= m < n ==> AttrOk(e, items[m], l)
  }

  // ---------------------------------------------------------------- success and failure exclude each other

  lemma {:induction false} OkOrFails(t: Type, j: Json, l: Lookups)
    ensures AttrOk(t, j, l) <==> !AttrMayFail(t, j, l, Error) && !AttrMayFail(t, j, l, Retry)
    decreases t, 0
  {
    match t
    case TMap(e) =>
      if j.JObject? {
        forall k | k in j.fields { OkOrFails(e, j.fields[k], l); }
      }
    case TList(e) => if j.JArray? { ItemsOkOrFail(e, j.items, l, |j.items|); }
    case TSet(e) => if j.JArray? { ItemsOkOrFail(e, j.items, l, |j.items|); }
    case _ =>
  }

  lemma {:induction false} ItemsOkOrFail(e: Type, items: seq<Json>, l: Lookups, n: nat)
    requires n <= |items|
    ensures OkBefore(e, items, l, n) || FirstFailure(e, items, l, Error) || FirstFailure(e, items, l, Retry)
    ensures OkBefore(e, items, l, |items|) ==> !FirstFailure(e, items, l, Error) && !FirstFailure(e, items, l, Retry)
    decreases e, 1, n
  {
    forall i | 0 <= i < |items| { OkOrFails(e, items[i], l); }
    if n > 0 {
      ItemsOkOrFail(e, items, l, n - 1);
      if OkBefore(e, items, l, n - 1) && !AttrOk(e, items[n - 1], l) {
        assert AttrMayFail(e, items[n - 1], l, Error) || AttrMayFail(e, items[n - 1], l, Retry);
      }
    }
  }

  // ---------------------------------------------------------------- type of the result

  /** No empty list, set or map where the type is followed: cty has no constructor for them. */
  predicate Constructible(t: Type, j: Json)
    decreases t, 0
  {
    match t
    case TMap(e) => j.JObject? ==> j.fields != map[] && forall k :: k in j.fields ==> Constructible(e, j.fields[k])
    case TList(e) => j.JArray? ==> j.items != [] && forall i :: 0 <= i < |j.items| ==> Constructible(e, j.items[i])
    case TSet(e) => j.JArray? ==> j.items != [] && forall i :: 0 <= i < |j.items| ==> Constructible(e, j.items[i])
    case _ => true
  }

  /** An attribute's value always has the attribute's type, is not null and is not empty. */
  lemma AttrValueType(t: Type, j: Json, l: Lookups)
    requires AttrOk(t, j, l)
    ensures TypeOf(AttrValue(t, j, l)) == t
    ensures !AttrValue(t, j, l).NullV?
    ensures Constructible(t, j) ==> !IsEmpty(AttrValue(t, j, l))
  {
    if t.TMap? && j.fields != map[] {
      var k :| k in j.fields;
      assert k in AttrEntries(t.elem, j.fields, l);
    } else if t.TSet? && j.items != [] {
      assert AttrValues(t.elem, j.items, l)[0] in Members(AttrValues(t.elem, j.items, l));
    }
  }

  predicate IsEmpty(v: Value) {
    match v
    case ListV(_, items) => items == []
    case SetV(_, members) => members == {}
    case MapV(_, entries) => entries == map[]
    case _ => false
  }

  // ---------------------------------------------------------------- substitution of references

  /** The JSON value with each reference at a place of the type replaced by what it resolves to. */
  function Substitute(t: Type, j: Json, l: Lookups): Json
    decreases t, 0
  {
    match t
    case TString =>
      if j.JString? && ResolveText(l, j.text).Text? then JString(ResolveText(l, j.text).text) else j
    case TMap(e) => if j.JObject? then JObject(SubstituteEntries(e, j.fields, l)) else j
    case TList(e) => if j.JArray? then JArray(SubstituteAll(e, j.items, l)) else j
    case TSet(e) => if j.JArray? then JArray(SubstituteAll(e, j.items, l)) else j
    case _ => j
  }

  function SubstituteEntries(e: Type, fields: map<Bytes, Json>, l: Lookups): map<Bytes, Json>
    decreases e, 1
  {
    map k | k in fields :: Substitute(e, fields[k], l)
  }

  function SubstituteAll(e: Type, items: seq<Json>, l: Lookups): (r: seq<Json>)
    ensures |r| == |items|
    decreases e, 1
  {
    seq(|items|, i requires 0 <= i < |items| => Substitute(e, items[i], l))
  }

  /** Every reference at a place of the type resolves to a value. */
  predicate AllResolve(t: Type, j: Json, l: Lookups)
    decreases t, 0
  {
    match t
    case TString => j.JString? ==> ResolveText(l, j.text).Text?
    case TMap(e) => j.JObject? ==> forall k :: k in j.fields ==> AllResolve(e, j.fields[k], l)
    case TList(e) => j.JArray? ==> forall i :: 0 <= i < |j.items| ==> AllResolve(e, j.items[i], l)
    case TSet(e) => j.JArray? ==> forall i :: 0 <= i < |j.items| ==> AllResolve(e, j.items[i], l)
    case _ => true
  }

  /** The mapping succeeds exactly when the plain one does and every reference resolves. */
  lemma {:induction false} OkIffResolved(t: Type, j: Json, l: Lookups)
    ensures AttrOk(t, j, l) <==> AttrOk(t, j, Literal) && AllResolve(t, j, l)
    decreases t, 0
  {
    match t
    case TMap(e) => if j.JObject? { forall k | k in j.fields { OkIffResolved(e, j.fields[k], l); } }
    case TList(e) => if j.JArray? { forall i | 0 <= i < |j.items| { OkIffResolved(e, j.items[i], l); } }
    case TSet(e) => if j.JArray? { forall i | 0 <= i < |j.items| { OkIffResolved(e, j.items[i], l); } }
    case _ =>
  }

  /** Mapping with references is the plain mapping of the substituted value: one look-up each. */
  lemma {:induction false} SubstituteThenMap(t: Type, j: Json, l: Lookups)
    requires AttrOk(t, j, l)
    ensures AttrOk(t, Substitute(t, j, l), Literal)
    ensures AttrValue(t, Substitute(t, j, l), Literal) == AttrValue(t, j, l)
    decreases t, 0
  {
    match t
    case TMap(e) =>
      SubstituteFields(e, j.fields, l);
      SubstituteMap(e, j.fields, SubstituteEntries(e, j.fields, l), l);
    case TList(e) => SubstituteItems(e, j.items, l);
    case TSet(e) => SubstituteItems(e, j.items, l);
    case _ =>
  }

  lemma {:induction false} SubstituteFields(e: Type, fields: map<Bytes, Json>, l: Lookups)
    requires forall k :: k in fields ==> AttrOk(e, fields[k], l)
    ensures var after := SubstituteEntries(e, fields, l);
            forall k :: k in fields ==>
              && AttrOk(e, fields[k], l) && AttrOk(e, after[k], Literal)
              && AttrValue(e, after[k], Literal) == AttrValue(e, fields[k], l)
    decreases e, 1
  {
    forall k | k in fields { SubstituteThenMap(e, fields[k], l); }
  }

  lemma SameMap<V>(a: map<Bytes, V>, b: map<Bytes, V>)
    requires a.Keys == b.Keys && forall k :: k in b ==> a[k] == b[k]
    ensures a == b
  {
  }

  lemma {:induction false} SubstituteMap(e: Type, fields: map<Bytes, Json>, after: map<Bytes, Json>, l: Lookups)
    requires after.Keys == fields.Keys
    requires forall k :: k in fields ==>
               && AttrOk(e, fields[k], l) && AttrOk(e, after[k], Literal)
               && AttrValue(e, after[k], Literal) == AttrValue(e, fields[k], l)
    ensures AttrEntries(e, after, Literal) == AttrEntries(e, fields, l)
  {
    var a, b := AttrEntries(e, after, Literal), AttrEntries(e, fields, l);
    SameMap(a, b);
  }

  lemma {:induction false} SubstituteItems(e: Type, items: seq<Json>, l: Lookups)
    requires forall i :: 0 <= i < |items| ==> AttrOk(e, items[i], l)
    ensures forall i :: 0 <= i < |items| ==> AttrOk(e, SubstituteAll(e, items, l)[i], Literal)
    ensures AttrValues(e, SubstituteAll(e, items, l), Literal) == AttrValues(e, items, l)
    decreases e, 1
  {
    forall i | 0 <= i < |items| { SubstituteThenMap(e, items[i], l); }
  }
}
