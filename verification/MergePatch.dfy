/**
 JSON merge patches (section 2 of RFC 7396): every save of the reconciler sends the difference
 between an object before and after a change (client.MergeFrom, reconcile.go:211, 236, 289, 956),
 and the API server merges it into whatever is stored by then.
 */
module MergePatch {
  import opened GoStrings
  import opened Cty
  import Slot

  type Object = map<Bytes, Json>

  function AsObject(j: Json): Object {
    if j.JObject? then j.fields else map[]
  }

  // ---------------------------------------------------------------- applying a patch

  function Merge(target: Json, patch: Json): Json
    decreases patch, 1
  {
    if patch.JObject? then JObject(MergeFields(AsObject(target), patch)) else patch
  }

  function MergeFields(target: Object, patch: Json): Object
    requires patch.JObject?
    decreases patch, 0
  {
    map k | k in target.Keys + patch.fields.Keys && !(k in patch.fields && patch.fields[k].JNull?) ::
      if k in patch.fields then Merge(if k in target then target[k] else JNull, patch.fields[k]) else target[k]
  }

  // ---------------------------------------------------------------- making a patch

  predicate Changed(a: Object, b: Object, k: Bytes) {
    (k in a) != (k in b) || (k in a && a[k] != b[k])
  }

  /** The patch from one object to another: only what changed, and null for what is gone. */
  function Diff(a: Object, b: Json): Object
    requires b.JObject?
    decreases b
  {
    map k | k in a.Keys + b.fields.Keys && Changed(a, b.fields, k) ::
      if k !in b.fields then JNull
      else if k in a && a[k].JObject? && b.fields[k].JObject? then JObject(Diff(a[k].fields, b.fields[k]))
      else b.fields[k]
  }

  // ---------------------------------------------------------------- what a patch can express

  /** No null as the value of a field; nulls in arrays are kept as they are. */
  predicate NoNulls(j: Json) {
    !j.JNull? && (j.JObject? ==> forall k :: k in j.fields ==> NoNulls(j.fields[k]))
  }

  /** Every value that is new or changed is free of nulls. */
  predicate Expressible(a: Object, b: Json)
    requires b.JObject?
    decreases b
  {
    forall k :: k in b.fields && Changed(a, b.fields, k) ==>
      if k in a && a[k].JObject? && b.fields[k].JObject? then Expressible(a[k].fields, b.fields[k])
        else NoNulls(b.fields[k])
  }

  lemma {:induction false} MergeNew(target: Json, j: Json)
    requires !target.JObject? || !j.JObject?
    ensures !j.JNull? ==> (Merge(target, j) == j <==> NoNulls(j))
    decreases j
  {
    if j.JObject? {
      forall k | k in j.fields && !j.fields[k].JNull? { MergeNew(JNull, j.fields[k]); }
      var merged := MergeFields(AsObject(target), j);
      if NoNulls(j) {
        assert AsObject(target) == map[];
        forall k | k in j.fields ensures k in merged && merged[k] == j.fields[k] {
          assert NoNulls(j.fields[k]);
        }
        assert merged == j.fields;
      } else {
        var k :| k in j.fields && !NoNulls(j.fields[k]);
        assert k !in merged || merged[k] != j.fields[k];
      }
    }
  }

  /** Patching the object it was made from gives the changed object, exactly when that is expressible. */
  lemma {:induction false} PatchGivesChange(a: Object, b: Json)
    requires b.JObject?
    ensures Merge(JObject(a), JObject(Diff(a, b))) == b <==> Expressible(a, b)
    decreases b
  {
    var merged := MergeFields(a, JObject(Diff(a, b)));
    forall k | k in a.Keys + b.fields.Keys
      ensures (k in merged <==> k in b.fields) && (k in merged ==> merged[k] == b.fields[k]) <==>
                FieldExpressible(a, b, k)
    {
      FieldOfPatch(a, b, k);
    }
    assert merged.Keys <= a.Keys + b.fields.Keys;
    assert Expressible(a, b) <==> forall k :: k in a.Keys + b.fields.Keys ==> FieldExpressible(a, b, k);
  }

  predicate FieldExpressible(a: Object, b: Json, k: Bytes)
    requires b.JObject?
  {
    k in b.fields && Changed(a, b.fields, k) ==>
      if k in a && a[k].JObject? && b.fields[k].JObject? then Expressible(a[k].fields, b.fields[k])
        else NoNulls(b.fields[k])
  }

  lemma {:induction false} FieldOfPatch(a: Object, b: Json, k: Bytes)
    requires b.JObject? && k in a.Keys + b.fields.Keys
    ensures var merged := MergeFields(a, JObject(Diff(a, b)));
            (k in merged <==> k in b.fields) && (k in merged ==> merged[k] == b.fields[k]) <==>
              FieldExpressible(a, b, k)
    decreases b, 0
  {
    if k in b.fields && Changed(a, b.fields, k) {
      if k in a && a[k].JObject? && b.fields[k].JObject? {
        PatchGivesChange(a[k].fields, b.fields[k]);
      } else {
        MergeNew(if k in a then a[k] else JNull, b.fields[k]);
      }
    }
  }

  // ---------------------------------------------------------------- patching what is stored by then

  /** On the way to the end of the path there is nothing but objects, as far as there is anything. */
  predicate Clear(j: Json, path: seq<Bytes>)
    decreases |path|
  {
    path != [] ==> j.JObject? && (|path| > 1 && path[0] in j.fields ==> Clear(j.fields[path[0]], path[1..]))
  }

  /** And all of the way is there. */
  predicate Reaches(j: Json, path: seq<Bytes>)
    decreases |path|
  {
    path != [] ==> j.JObject? && (|path| > 1 ==> path[0] in j.fields && Reaches(j.fields[path[0]], path[1..]))
  }

  /** A patch that does not mention a place leaves it as it is. */
  lemma {:induction false} Unmentioned(s: Json, patch: Json, path: seq<Bytes>)
    requires path != [] && Clear(s, path) && Clear(patch, path) && Get(patch, path) == None
    ensures Get(Merge(s, patch), path) == Get(s, path)
    decreases |path|
  {
    var k := path[0];
    if |path| > 1 && k in patch.fields {
      if k in s.fields {
        Unmentioned(s.fields[k], patch.fields[k], path[1..]);
      } else {
        UnmentionedInNew(patch.fields[k], path[1..]);
      }
    }
  }

  lemma {:induction false} UnmentionedInNew(patch: Json, path: seq<Bytes>)
    requires path != [] && Clear(patch, path) && Get(patch, path) == None
    ensures Get(Merge(JNull, patch), path) == None
    decreases |path|
  {
    if |path| > 1 && path[0] in patch.fields {
      UnmentionedInNew(patch.fields[path[0]], path[1..]);
    }
  }

  /** What a patch has at a place that is not an object, it writes there; null removes. */
  lemma {:induction false} Mentioned(s: Json, patch: Json, path: seq<Bytes>)
    requires path != [] && (Clear(s, path) || !s.JObject?) && Clear(patch, path)
    requires Get(patch, path).Some? && !Get(patch, path).value.JObject?
    ensures Get(Merge(s, patch), path) == if Get(patch, path).value.JNull? then None else Get(patch, path)
    decreases |path|
  {
    var k := path[0];
    assert Get(patch.fields[k], path[1..]) == Get(patch, path);
    if |path| > 1 {
      Mentioned(if k in AsObject(s) then s.fields[k] else JNull, patch.fields[k], path[1..]);
    } else if !patch.fields[k].JNull? {
      var merged := MergeFields(AsObject(s), patch);
      assert path[1..] == [] && Get(patch, path) == Some(patch.fields[k]);
      assert merged[k] == Merge(if k in AsObject(s) then AsObject(s)[k] else JNull, patch.fields[k]);
      assert Get(JObject(merged), path) == Get(merged[k], path[1..]);
    }
  }

  /** A patch mentions exactly the places where the two objects differ. */
  lemma {:induction false} Mentions(a: Object, b: Json, path: seq<Bytes>)
    requires path != [] && Clear(JObject(a), path) && Reaches(b, path)
    requires Get(b, path).Some? ==> !Get(b, path).value.JObject?
    ensures var patch := JObject(Diff(a, b));
            && Clear(patch, path)
            && Get(patch, path) == if Get(JObject(a), path) == Get(b, path) then None
                                   else if Get(b, path).None? then Some(JNull) else Get(b, path)
    decreases |path|
  {
    var k := path[0];
    if |path| > 1 {
      ReachesIsClear(b.fields[k], path[1..]);
      if k in a && a[k] != b.fields[k] {
        Mentions(a[k].fields, b.fields[k], path[1..]);
      }
    }
  }

  lemma {:induction false} ReachesIsClear(j: Json, path: seq<Bytes>)
    requires Reaches(j, path)
    ensures Clear(j, path)
    decreases |path|
  {
    if |path| > 1 { ReachesIsClear(j.fields[path[0]], path[1..]); }
  }

  /**
   A patch between two objects, merged into whatever is stored by then: where the two agree, the
   stored value stays; where they differ, the second one's is written, or the value removed.  This
   is what the protocol takes a patch to do to each field.
   */
  lemma PatchOnWhatIsStored(s: Json, a: Object, b: Json, path: seq<Bytes>)
    requires path != [] && Clear(s, path) && Clear(JObject(a), path) && Reaches(b, path)
    requires Get(b, path).Some? ==> !Get(b, path).value.JObject? && !Get(b, path).value.JNull?
    ensures Get(Merge(s, JObject(Diff(a, b))), path) ==
            Slot.Merged(Get(s, path), Get(JObject(a), path), Get(b, path))
  {
    Mentions(a, b, path);
    if Get(JObject(a), path) == Get(b, path) {
      Unmentioned(s, JObject(Diff(a, b)), path);
    } else {
      Mentioned(s, JObject(Diff(a, b)), path);
    }
  }

  /**
   No lost edits: a patch between two objects with one spec never changes the stored spec, however
   it has been edited since, nor removes or brings back one.
   */
  lemma SpecIsTheUsers(s: Object, a: Object, b: Object)
    requires Get(JObject(a), ["spec"]) == Get(JObject(b), ["spec"])
    ensures Get(Merge(JObject(s), JObject(Diff(a, JObject(b)))), ["spec"]) == Get(JObject(s), ["spec"])
  {
    var patch := JObject(Diff(a, JObject(b)));
    assert "spec" !in patch.fields;
    Unmentioned(JObject(s), patch, ["spec"]);
  }
}
