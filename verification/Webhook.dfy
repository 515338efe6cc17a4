/**
 The webhook maps the spec as it came in a request; the reconciler maps what is left of it after
 writing it out as JSON and reading it back, which may change how numbers are held
 (controller.go:174-195, reconcile.go:107-131).  Both get the same configuration.
 */
module Webhook {
  import opened GoStrings
  import opened Cty
  import opened BlockSchema
  import opened References
  import opened AttributeMapping
  import opened SpecMapping
  import opened SpecMethods

  // ---------------------------------------------------------------- reading and writing numbers

  /** Equal, except that each number may be any other. */
  predicate SameButNumbers(j: Json, k: Json)
  {
    match j
    case JNumber(_) => k.JNumber?
    case JArray(items) => k.JArray? && |k.items| == |items| &&
      forall i :: 0 <= i < |items| ==> SameButNumbers(items[i], k.items[i])
    case JObject(fields) => k.JObject? && fields.Keys == k.fields.Keys &&
      forall n :: n in fields ==> SameButNumbers(fields[n], k.fields[n])
    case _ => k == j
  }

  predicate SameSpec(s: Spec, t: Spec)
  {
    s.Keys == t.Keys && forall n :: n in s ==> SameButNumbers(s[n], t[n])
  }

  // ---------------------------------------------------------------- attributes

  lemma {:induction false} SameConstructible(t: Type, j: Json, k: Json)
    requires SameButNumbers(j, k)
    ensures Constructible(t, j) ==> Constructible(t, k)
    decreases t
  {
    match t
    case TMap(e) => if j.JObject? { forall n | n in j.fields { SameConstructible(e, j.fields[n], k.fields[n]); } }
    case TList(e) => if j.JArray? { forall i | 0 <= i < |j.items| { SameConstructible(e, j.items[i], k.items[i]); } }
    case TSet(e) => if j.JArray? { forall i | 0 <= i < |j.items| { SameConstructible(e, j.items[i], k.items[i]); } }
    case _ =>
  }

  lemma {:induction false} SameOk(t: Type, j: Json, k: Json, l: Lookups)
    requires SameButNumbers(j, k)
    ensures AttrOk(t, j, l) <==> AttrOk(t, k, l)
    decreases t
  {
    match t
    case TMap(e) => if j.JObject? { forall n | n in j.fields { SameOk(e, j.fields[n], k.fields[n], l); } }
    case TList(e) => if j.JArray? { forall i | 0 <= i < |j.items| { SameOk(e, j.items[i], k.items[i], l); } }
    case TSet(e) => if j.JArray? { forall i | 0 <= i < |j.items| { SameOk(e, j.items[i], k.items[i], l); } }
    case _ =>
  }

  lemma {:induction false} SameValue(t: Type, j: Json, k: Json, l: Lookups)
    requires SameButNumbers(j, k) && AttrOk(t, j, l) && AttrOk(t, k, l)
    ensures AttrValue(t, k, l) == AttrValue(t, j, l)
    decreases t, 0
  {
    match t
    case TMap(e) => SameEntries(e, j.fields, k.fields, l);
    case TList(e) => SameItems(e, j.items, k.items, l);
    case TSet(e) => SameItems(e, j.items, k.items, l);
    case _ =>
  }

  lemma {:induction false} SameEntries(e: Type, s: Spec, t: Spec, l: Lookups)
    requires SameSpec(s, t) && (forall n :: n in s ==> AttrOk(e, s[n], l)) && forall n :: n in t ==> AttrOk(e, t[n], l)
    ensures AttrEntries(e, t, l) == AttrEntries(e, s, l)
    decreases e, 1
  {
    forall n | n in s ensures AttrValue(e, t[n], l) == AttrValue(e, s[n], l) { SameValue(e, s[n], t[n], l); }
    SameMap(AttrEntries(e, t, l), AttrEntries(e, s, l));
  }

  lemma {:induction false} SameItems(e: Type, items: seq<Json>, others: seq<Json>, l: Lookups)
    requires |others| == |items| && forall i :: 0 <= i < |items| ==> SameButNumbers(items[i], others[i])
    requires forall i :: 0 <= i < |items| ==> AttrOk(e, items[i], l)
    requires forall i :: 0 <= i < |others| ==> AttrOk(e, others[i], l)
    ensures AttrValues(e, others, l) == AttrValues(e, items, l)
    decreases e, 1
  {
    forall i | 0 <= i < |items| { SameValue(e, items[i], others[i], l); }
  }

  // ---------------------------------------------------------------- specs

  lemma {:induction false} SameSpecOk(b: Block, s: Spec, t: Spec, l: Lookups)
    requires SameSpec(s, t)
    ensures SpecOk(b, s, l) <==> SpecOk(b, t, l)
    decreases b, 1
  {
    forall a | a in b.attributes && a in s { SameOk(b.attributes[a].attrType, s[a], t[a], l); }
    forall n | n in b.blockTypes && n in s { SameBlockOk(b.blockTypes[n], s[n], t[n], l); }
  }

  lemma {:induction false} SameBlockOk(nb: NestedBlock, j: Json, k: Json, l: Lookups)
    requires SameButNumbers(j, k)
    ensures BlockOk(nb, j, l) <==> BlockOk(nb, k, l)
    decreases nb, 0
  {
    if IsObjectProperty(nb) {
      SameSpecOk(nb.block, Fields(j), Fields(k), l);
    } else {
      forall i | 0 <= i < |Items(j)| { SameSpecOk(nb.block, Fields(Items(j)[i]), Fields(Items(k)[i]), l); }
    }
  }

  lemma SameSpecAt(nb: NestedBlock, j: Json, k: Json)
    requires SameButNumbers(j, k)
    ensures SameSpec(SpecAt(nb, j), SpecAt(nb, k))
  {
  }

  lemma {:induction false} SameUnmarked(b: Block, s: Spec, t: Spec)
    requires SameSpec(s, t) && Unmarked(b, s)
    ensures Unmarked(b, t)
    decreases b
  {
    forall n | n in b.blockTypes && n in t && !Dropped(b.blockTypes[n])
      ensures Unmarked(b.blockTypes[n].block, SpecAt(b.blockTypes[n], t[n]))
    {
      SameSpecAt(b.blockTypes[n], s[n], t[n]);
      SameUnmarked(b.blockTypes[n].block, SpecAt(b.blockTypes[n], s[n]), SpecAt(b.blockTypes[n], t[n]));
    }
  }

  lemma {:induction false} SameShapes(b: Block, s: Spec, t: Spec, u: Spec, v: Spec)
    requires SameSpec(s, t) && SameSpec(u, v) && SameShape(b, s, u)
    ensures SameShape(b, t, v)
    decreases b, 1
  {
    forall n | n in b.blockTypes ensures BlockSameShape(b.blockTypes[n], n in t, n in v, At(t, n), At(v, n)) {
      assert BlockSameShape(b.blockTypes[n], n in s, n in u, At(s, n), At(u, n));
      SameBlockShapes(b.blockTypes[n], n in s, n in u, At(s, n), At(t, n), At(u, n), At(v, n));
    }
  }

  lemma {:induction false} SameBlockShapes(
    nb: NestedBlock, given1: bool, given2: bool, i: Json, j: Json, k: Json, m: Json)
    requires SameButNumbers(i, j) && SameButNumbers(k, m) && BlockSameShape(nb, given1, given2, i, k)
    ensures BlockSameShape(nb, given1, given2, j, m)
    decreases nb, 0
  {
    SameSpecAt(nb, i, j);
    SameSpecAt(nb, k, m);
    if Dropped(nb) {
    } else if given1 && given2 {
      SameShapes(nb.block, SpecAt(nb, i), SpecAt(nb, j), SpecAt(nb, k), SpecAt(nb, m));
    } else if given1 {
      SameUnmarked(nb.block, SpecAt(nb, i), SpecAt(nb, j));
    } else if given2 {
      SameUnmarked(nb.block, SpecAt(nb, k), SpecAt(nb, m));
    }
  }

  lemma {:induction false} SameShaped(b: Block, s: Spec, t: Spec)
    requires SameSpec(s, t) && Shaped(b, s)
    ensures Shaped(b, t)
    decreases b, 1
  {
    forall a | a in b.attributes && a in s { SameConstructible(b.attributes[a].attrType, s[a], t[a]); }
    forall n | n in b.blockTypes && n in s { SameBlockShaped(b.blockTypes[n], s[n], t[n]); }
  }

  lemma {:induction false} SameBlockShaped(nb: NestedBlock, j: Json, k: Json)
    requires SameButNumbers(j, k) && BlockShaped(nb, j)
    ensures BlockShaped(nb, k)
    decreases nb, 0
  {
    if IsObjectProperty(nb) {
      SameShaped(nb.block, j.fields, k.fields);
    } else {
      forall i | 0 <= i < |j.items| { SameShaped(nb.block, j.items[i].fields, k.items[i].fields); }
      if nb.nesting != Map {
        forall i | 0 <= i < |j.items| {
          SameShapes(nb.block, FirstItem(j), FirstItem(k), Fields(j.items[i]), Fields(k.items[i]));
        }
      }
    }
  }

  /** The mapping does not see what the numbers are. */
  lemma {:induction false} SameConfig(b: Block, name: Bytes, s: Spec, t: Spec, l: Lookups)
    requires WellNamed(b) && SameSpec(s, t) && Shaped(b, s) && SpecOk(b, s, l)
    ensures Shaped(b, t) && SpecOk(b, t, l) && Config(b, name, t, l) == Config(b, name, s, l)
    decreases b, 2
  {
    SameShaped(b, s, t);
    SameSpecOk(b, s, t, l);
    var c, c' := Config(b, name, s, l), Config(b, name, t, l);
    forall k | k in c ensures c'[k] == c[k] {
      SameField(b, name, s, t, l, k);
    }
  }

  lemma {:induction false} SameField(b: Block, name: Bytes, s: Spec, t: Spec, l: Lookups, k: Bytes)
    requires WellNamed(b) && SameSpec(s, t) && k in StartFields(b, name) && FieldOk(b, s, l, k) && FieldOk(b, t, l, k)
    ensures Field(b, name, t, l, k) == Field(b, name, s, l, k)
    decreases b, 1
  {
    if k in b.blockTypes && k in s {
      SameBlockValue(b.blockTypes[k], k, s[k], t[k], l);
    } else if k in b.attributes && k in s {
      SameValue(b.attributes[k].attrType, s[k], t[k], l);
    }
  }

  lemma {:induction false} SameBlockValue(nb: NestedBlock, name: Bytes, j: Json, k: Json, l: Lookups)
    requires WellNamed(nb.block) && SameButNumbers(j, k)
    requires BlockOk(nb, j, l) && BlockShaped(nb, j) && BlockOk(nb, k, l) && BlockShaped(nb, k)
    ensures BlockValue(nb, name, k, l) == BlockValue(nb, name, j, l)
    decreases nb, 0
  {
    if IsObjectProperty(nb) {
      SameConfig(nb.block, name, j.fields, k.fields, l);
    } else {
      SameItemValues(nb.block, name, j.items, k.items, l);
    }
  }

  lemma {:induction false} SameItemValues(b: Block, name: Bytes, items: seq<Json>, others: seq<Json>, l: Lookups)
    requires WellNamed(b) && |others| == |items| && ItemsOk(b, items, l, |items|) && ItemsOk(b, others, l, |others|)
    requires forall i :: 0 <= i < |items| ==>
               && SameButNumbers(items[i], others[i]) && items[i].JObject? && others[i].JObject?
               && Shaped(b, Fields(items[i])) && Shaped(b, Fields(others[i]))
    ensures ItemValues(b, name, others, l) == ItemValues(b, name, items, l)
    decreases b, 3
  {
    forall i | 0 <= i < |items| { SameConfig(b, name, items[i].fields, others[i].fields, l); }
  }

  // ---------------------------------------------------------------- failures

  lemma {:induction false} SameMayFail(t: Type, j: Json, k: Json, l: Lookups, kind: Kind)
    requires SameButNumbers(j, k)
    ensures AttrMayFail(t, j, l, kind) <==> AttrMayFail(t, k, l, kind)
    decreases t, 0
  {
    match t
    case TMap(e) => if j.JObject? { forall n | n in j.fields { SameMayFail(e, j.fields[n], k.fields[n], l, kind); } }
    case TList(e) => if j.JArray? { SameFirstFailure(e, j.items, k.items, l, kind); }
    case TSet(e) => if j.JArray? { SameFirstFailure(e, j.items, k.items, l, kind); }
    case _ =>
  }

  lemma {:induction false} SameFirstFailure(e: Type, items: seq<Json>, others: seq<Json>, l: Lookups, kind: Kind)
    requires |others| == |items| && forall i :: 0 <= i < |items| ==> SameButNumbers(items[i], others[i])
    ensures FirstFailure(e, items, l, kind) <==> FirstFailure(e, others, l, kind)
    decreases e, 1
  {
    forall i | 0 <= i < |items| { SameMayFail(e, items[i], others[i], l, kind); }
    forall i | 0 <= i < |items| { SameOk(e, items[i], others[i], l); }
    assert forall n :: 0 <= n <= |items| ==> (OkBefore(e, items, l, n) <==> OkBefore(e, others, l, n));
  }

  lemma {:induction false} SameSpecMayFail(b: Block, s: Spec, t: Spec, l: Lookups, kind: Kind)
    requires SameSpec(s, t)
    ensures SpecMayFail(b, s, l, kind) <==> SpecMayFail(b, t, l, kind)
    decreases b, 2
  {
    forall a | a in b.attributes && a in s { SameMayFail(b.attributes[a].attrType, s[a], t[a], l, kind); }
    forall a | a in b.attributes && a in s { SameOk(b.attributes[a].attrType, s[a], t[a], l); }
    forall n | n in b.blockTypes && n in s { SameBlockMayFail(b.blockTypes[n], s[n], t[n], l, kind); }
  }

  lemma {:induction false} SameBlockMayFail(nb: NestedBlock, j: Json, k: Json, l: Lookups, kind: Kind)
    requires SameButNumbers(j, k)
    ensures BlockMayFail(nb, j, l, kind) <==> BlockMayFail(nb, k, l, kind)
    decreases nb, 0
  {
    if IsObjectProperty(nb) {
      SameSpecMayFail(nb.block, Fields(j), Fields(k), l, kind);
    } else {
      SameFirstItemFails(nb.block, Items(j), Items(k), l, kind);
    }
  }

  lemma {:induction false} SameFirstItemFails(b: Block, items: seq<Json>, others: seq<Json>, l: Lookups, kind: Kind)
    requires |others| == |items| && forall i :: 0 <= i < |items| ==> SameButNumbers(items[i], others[i])
    ensures FirstItemFails(b, items, l, kind) <==> FirstItemFails(b, others, l, kind)
    decreases b, 3
  {
    forall i | 0 <= i < |items| { SameSpecMayFail(b, Fields(items[i]), Fields(others[i]), l, kind); }
    forall i | 0 <= i < |items| { SameSpecOk(b, Fields(items[i]), Fields(others[i]), l); }
    assert forall n :: 0 <= n <= |items| ==> (ItemsOk(b, items, l, n) <==> ItemsOk(b, others, l, n));
  }

  // ---------------------------------------------------------------- the two callers

  /** unstructured.NestedMap of the spec: missing, not an object, or there. */
  function SpecOf(resource: map<Bytes, Json>): Option<Spec> {
    if "spec" in resource && resource["spec"].JObject? then Some(resource["spec"].fields) else None
  }

  datatype Verdict = Allowed | Denied(message: string)

  /** The webhook; what the provider's validation says of a configuration is a parameter. */
  method Handle(b: Block, resource: map<Bytes, Json>, store: Store, validates: Value -> bool) returns (verdict: Verdict)
    requires WellNamed(b) && (SpecOf(resource).Some? ==> Shaped(b, SpecOf(resource).value))
    ensures verdict.Allowed? <==>
              && SpecOf(resource).Some? && SpecOk(b, SpecOf(resource).value, Against(store))
              && validates(ObjectV(Config(b, "test1", SpecOf(resource).value, Against(store))))
  {
    if "spec" !in resource { return Denied("Error - CRD spec not found"); }
    if !resource["spec"].JObject? { return Denied("Error retrieving CRD spec"); }
    var spec := resource["spec"].fields;
    var r := MapCRDSpecValuesToTerraformConfig(b, ObjectV(StartFields(b, TOP)), spec, store, TOP);
    SpecOkOrFails(b, spec, Against(store));
    if r.error.Some? { return Denied(r.error.value); }
    if r.value.None? { return Denied("Unable to apply spec: " + r.statusMessage); }
    verdict := if validates(r.value.value) then Allowed else Denied("Invalid CRD configuration");
  }

  datatype Prepared = Ready(config: Value) | Requeue(statusMessage: string) | Refused(message: string)

  /**
   Reconcile up to the plan: the spec is written out and read back as JSON, then mapped.  What
   comes out is stated about the spec as it was before that.
   */
  method PrepareConfig(b: Block, resource: map<Bytes, Json>, readBack: Spec, store: Store) returns (r: Prepared)
    requires SpecOf(resource).Some? ==> SameSpec(SpecOf(resource).value, readBack) && Shaped(b, SpecOf(resource).value)
    requires WellNamed(b)
    ensures r.Ready? <==> SpecOf(resource).Some? && SpecOk(b, SpecOf(resource).value, Against(store))
    ensures r.Ready? ==> r.config == ObjectV(Config(b, "test1", SpecOf(resource).value, Against(store)))
    ensures r.Requeue? ==> SpecOf(resource).Some? && SpecMayFail(b, SpecOf(resource).value, Against(store), Retry)
    ensures r.Refused? && SpecOf(resource).Some? ==> SpecMayFail(b, SpecOf(resource).value, Against(store), Error)
  {
    if "spec" !in resource { return Refused("Error - CRD spec not found"); }
    if !resource["spec"].JObject? { return Refused("Error retrieving CRD spec"); }
    ghost var spec := resource["spec"].fields;
    SameShaped(b, spec, readBack);
    SameSpecOk(b, spec, readBack, Against(store));
    var mapped := MapCRDSpecValuesToTerraformConfig(b, ObjectV(StartFields(b, TOP)), readBack, store, TOP);
    SpecOkOrFails(b, readBack, Against(store));
    if mapped.error.Some? {
      SameSpecMayFail(b, spec, readBack, Against(store), Error);
      return Refused(mapped.error.value);
    }
    if mapped.value.None? {
      SameSpecMayFail(b, spec, readBack, Against(store), Retry);
      return Requeue(mapped.statusMessage);
    }
    SameConfig(b, TOP, spec, readBack, Against(store));
    r := Ready(mapped.value.value);
  }

  /** What the webhook lets through, the reconciler can apply: the very configuration it validated. */
  method ValidateThenPrepare(
    b: Block, resource: map<Bytes, Json>, readBack: Spec, store: Store, validates: Value -> bool)
    returns (verdict: Verdict, prepared: Prepared)
    requires SpecOf(resource).Some? ==> SameSpec(SpecOf(resource).value, readBack) && Shaped(b, SpecOf(resource).value)
    requires WellNamed(b)
    ensures verdict.Allowed? <==> prepared.Ready? && validates(prepared.config)
  {
    verdict := Handle(b, resource, store, validates);
    prepared := PrepareConfig(b, resource, readBack, store);
  }
}
