/**
 The schema generated for the spec and the mapping of specs, compared: what the API server admits,
 what the mapping accepts once references are read as text, and exactly where the two part.
 */
module SpecAdmission {
  import opened GoStrings
  import opened Cty
  import opened BlockSchema
  import opened References
  import opened AttributeMapping
  import opened SpecMapping
  import opened SpecReferences
  import Api = OpenApi

  // ---------------------------------------------------------------- where the two part

  /** The mapping meets no number and no object in this value: it has no case for these. */
  predicate Handled(t: Type, j: Json)
    decreases t
  {
    match t
    case TList(e) => j.JArray? ==> forall i :: 0 <= i < |j.items| ==> Handled(e, j.items[i])
    case TSet(e) => j.JArray? ==> forall i :: 0 <= i < |j.items| ==> Handled(e, j.items[i])
    case TMap(e) => j.JObject? ==> forall k :: k in j.fields ==> Handled(e, j.fields[k])
    case TString => true
    case TBool => true
    case _ => false
  }

  /** The schema of an attribute, as far as it has one, and the mapping differ on these values only. */
  lemma {:induction false} AttributeAdmitted(t: Type, j: Json)
    requires Api.TypeOk(t) && Api.Followable(t)
    ensures AttrOk(t, j, Literal) <==> Api.ValidatesIf(true, Api.TypeSchema(t), j) && Handled(t, j)
    decreases t
  {
    match t
    case TList(e) => if j.JArray? { forall i | 0 <= i < |j.items| { AttributeAdmitted(e, j.items[i]); } }
    case TSet(e) => if j.JArray? { forall i | 0 <= i < |j.items| { AttributeAdmitted(e, j.items[i]); } }
    case TMap(e) => if j.JObject? { forall k | k in j.fields { AttributeAdmitted(e, j.fields[k]); } }
    case _ =>
  }

  /**
   Nothing in the spec that the schema lets through stops the mapping: computed attributes, which it
   does not describe, map all the same, and the others have no number or object.
   */
  predicate SpecHandled(b: Block, s: Spec)
    decreases b, 1
  {
    && (forall a :: a in b.attributes && a in s ==> AttributeHandled(b.attributes[a], s[a]))
    && (forall n :: n in b.blockTypes && n in s ==> BlockHandled(b.blockTypes[n], s[n]))
  }

  predicate AttributeHandled(attr: Attribute, j: Json) {
    if attr.computed then AttrOk(attr.attrType, j, Literal) else Handled(attr.attrType, j)
  }

  predicate BlockHandled(nb: NestedBlock, j: Json)
    decreases nb, 0
  {
    if IsObjectProperty(nb) then SpecHandled(nb.block, Fields(j)) else ItemsHandled(nb.block, Items(j))
  }

  predicate ItemsHandled(b: Block, items: seq<Json>)
    decreases b, 3
  {
    forall i :: 0 <= i < |items| ==> SpecHandled(b, Fields(items[i]))
  }

  // ---------------------------------------------------------------- what is required

  predicate AttributesGiven(b: Block, s: Spec) {
    forall a :: a in b.attributes && b.attributes[a].required && !b.attributes[a].computed ==> a in s
  }

  predicate BlocksGiven(b: Block, s: Spec) {
    forall n :: n in b.blockTypes && IsRequired(b.blockTypes[n]) ==> n in s
  }

  /** Nothing that the block requires of a spec is missing, nor in any block that is given. */
  predicate Complete(b: Block, s: Spec)
    decreases b, 1
  {
    && AttributesGiven(b, s) && BlocksGiven(b, s)
    && (forall n :: n in b.blockTypes && n in s ==> BlockComplete(b.blockTypes[n], s[n]))
  }

  predicate BlockComplete(nb: NestedBlock, j: Json)
    decreases nb, 0
  {
    if IsObjectProperty(nb) then Complete(nb.block, Fields(j))
    else ItemsComplete(nb.block, Items(j))
  }

  predicate ItemsComplete(b: Block, items: seq<Json>)
    decreases b, 3
  {
    forall i :: 0 <= i < |items| ==> Complete(b, Fields(items[i]))
  }

  /** What is required by the schema of the spec, here. */
  lemma RequiredHere(b: Block, s: Spec)
    requires Api.BlockTypesOk(b) && Api.BlockFollowable(b)
    ensures Api.BlockSchemaOn(b, Api.Spec).required <= s.Keys <==> AttributesGiven(b, s) && BlocksGiven(b, s)
  {
    var attributes, blocks := Api.RequiredAttributes(b, Api.Spec, b.attributes.Keys),
      Api.RequiredBlocks(b, b.blockTypes.Keys);
    assert attributes <= s.Keys <==> AttributesGiven(b, s);
    assert blocks <= s.Keys <==> BlocksGiven(b, s);
  }

  // ---------------------------------------------------------------- admission

  /** What the schema of the spec says of one field. */
  predicate FieldAdmitted(b: Block, s: Spec, k: Bytes)
    requires Api.BlockTypesOk(b) && Api.BlockFollowable(b) && k in s
  {
    var schema := Api.BlockSchemaOn(b, Api.Spec);
    k in schema.properties ==> Api.Validates(true, schema.properties[k], s[k])
  }

  lemma AttributeFieldAdmitted(b: Block, s: Spec, k: Bytes)
    requires Api.BlockTypesOk(b) && Api.BlockFollowable(b) && k in s && k in b.attributes && k !in b.blockTypes
    ensures FieldAdmitted(b, s, k) <==>
            b.attributes[k].computed || Api.ValidatesIf(true, Api.TypeSchema(b.attributes[k].attrType), s[k])
  {
    Api.PartitionedHere(b, Api.Spec, k);
    assert Api.BlockAt(b, []) == Some(b);
    if !b.attributes[k].computed { Api.AttributeSchema(b, [], k); }
  }

  /** What the mapping, completeness and the cases it has no answer to say of the same field. */
  predicate FieldAccepted(b: Block, s: Spec, k: Bytes)
    requires k in s
  {
    && (k in b.attributes ==> AttrOk(b.attributes[k].attrType, s[k], Literal))
    && (k in b.blockTypes ==> BlockOk(b.blockTypes[k], s[k], Literal) && BlockComplete(b.blockTypes[k], s[k]))
  }

  predicate FieldHandled(b: Block, s: Spec, k: Bytes)
    requires k in s
  {
    && (k in b.attributes ==> AttributeHandled(b.attributes[k], s[k]))
    && (k in b.blockTypes ==> BlockHandled(b.blockTypes[k], s[k]))
  }

  lemma {:induction false} FieldAdmittedIff(b: Block, s: Spec, k: Bytes)
    requires Api.BlockTypesOk(b) && Api.BlockFollowable(b) && WellNamed(b) && Shaped(b, s) && k in s
    ensures FieldAccepted(b, s, k) <==> FieldAdmitted(b, s, k) && FieldHandled(b, s, k)
    decreases b, 1
  {
    if k in b.blockTypes {
      Api.BlockProperty(b, Api.Spec, k);
      BlockAdmittedIff(b.blockTypes[k], s[k]);
    } else if k in b.attributes {
      AttributeFieldAdmitted(b, s, k);
      AttributeAdmitted(b.attributes[k].attrType, s[k]);
    } else {
      Api.PartitionedHere(b, Api.Spec, k);
    }
  }

  lemma SpecValidIff(b: Block, s: Spec)
    requires Api.BlockTypesOk(b) && Api.BlockFollowable(b)
    ensures Api.Validates(true, Api.BlockSchemaOn(b, Api.Spec), JObject(s)) <==>
            AttributesGiven(b, s) && BlocksGiven(b, s) && forall k :: k in s ==> FieldAdmitted(b, s, k)
  {
    RequiredHere(b, s);
  }

  /**
   Admission: the mapping accepts a spec, reading references as text, and the spec gives all that is
   required, if and only if the schema of the spec admits it and nothing in it goes unhandled.
   */
  lemma {:induction false} SpecAdmittedIff(b: Block, s: Spec)
    requires Api.BlockTypesOk(b) && Api.BlockFollowable(b) && WellNamed(b) && Shaped(b, s)
    ensures SpecOk(b, s, Literal) && Complete(b, s) <==>
            Api.Validates(true, Api.BlockSchemaOn(b, Api.Spec), JObject(s)) && SpecHandled(b, s)
    decreases b, 2
  {
    SpecValidIff(b, s);
    SpecByFields(b, s);
    forall k | k in s { FieldAdmittedIff(b, s, k); }
  }

  lemma SpecByFields(b: Block, s: Spec)
    ensures SpecHandled(b, s) <==> forall k :: k in s ==> FieldHandled(b, s, k)
    ensures SpecOk(b, s, Literal) && Complete(b, s) <==>
            AttributesGiven(b, s) && BlocksGiven(b, s) && forall k :: k in s ==> FieldAccepted(b, s, k)
  {
  }

  lemma {:induction false} BlockAdmittedIff(nb: NestedBlock, j: Json)
    requires Api.BlockTypesOk(nb.block) && Api.BlockFollowable(nb.block) && WellNamed(nb.block) && BlockShaped(nb, j)
    ensures BlockOk(nb, j, Literal) && BlockComplete(nb, j) <==>
            Api.Validates(true, Api.NestedSchema(nb, Api.Spec), j) && BlockHandled(nb, j)
    decreases nb, 0
  {
    if IsObjectProperty(nb) {
      SpecAdmittedIff(nb.block, j.fields);
    } else {
      ItemsAdmittedIff(nb.block, j.items);
      ArrayValidIff(nb, j);
    }
  }

  lemma ArrayValidIff(nb: NestedBlock, j: Json)
    requires Api.BlockTypesOk(nb.block) && Api.BlockFollowable(nb.block) && !IsObjectProperty(nb) && j.JArray?
    ensures Api.Validates(true, Api.NestedSchema(nb, Api.Spec), j) <==> ItemsValid(nb.block, j.items)
  {
  }

  predicate ItemsValid(b: Block, items: seq<Json>)
    requires Api.BlockTypesOk(b) && Api.BlockFollowable(b)
  {
    forall i :: 0 <= i < |items| ==> Api.Validates(true, Api.BlockSchemaOn(b, Api.Spec), items[i])
  }

  lemma {:induction false} ItemsAdmittedIff(b: Block, items: seq<Json>)
    requires Api.BlockTypesOk(b) && Api.BlockFollowable(b) && WellNamed(b)
    requires forall i :: 0 <= i < |items| ==> items[i].JObject? && Shaped(b, items[i].fields)
    ensures ItemsOk(b, items, Literal, |items|) && ItemsComplete(b, items) <==>
            ItemsValid(b, items) && ItemsHandled(b, items)
    decreases b, 3
  {
    forall i | 0 <= i < |items|
      ensures SpecOk(b, Fields(items[i]), Literal) && Complete(b, Fields(items[i])) <==>
              Api.Validates(true, Api.BlockSchemaOn(b, Api.Spec), items[i]) && SpecHandled(b, Fields(items[i]))
    {
      SpecAdmittedIff(b, items[i].fields);
    }
  }

  // ---------------------------------------------------------------- completeness of what is admitted

  lemma {:induction false} AdmittedIsComplete(b: Block, s: Spec)
    requires Api.BlockTypesOk(b) && Api.BlockFollowable(b) && Shaped(b, s)
    requires Api.Validates(true, Api.BlockSchemaOn(b, Api.Spec), JObject(s))
    ensures Complete(b, s)
    decreases b, 1
  {
    SpecValidIff(b, s);
    forall n | n in b.blockTypes && n in s ensures BlockComplete(b.blockTypes[n], s[n]) {
      Api.BlockProperty(b, Api.Spec, n);
      assert FieldAdmitted(b, s, n);
      AdmittedBlockIsComplete(b.blockTypes[n], s[n]);
    }
  }

  lemma {:induction false} AdmittedBlockIsComplete(nb: NestedBlock, j: Json)
    requires Api.BlockTypesOk(nb.block) && Api.BlockFollowable(nb.block) && BlockShaped(nb, j)
    requires Api.Validates(true, Api.NestedSchema(nb, Api.Spec), j)
    ensures BlockComplete(nb, j)
    decreases nb, 0
  {
    if IsObjectProperty(nb) {
      AdmittedIsComplete(nb.block, j.fields);
    } else {
      forall i | 0 <= i < |j.items| ensures Complete(nb.block, Fields(j.items[i])) {
        assert Api.ValidatesIf(true, Some(Api.BlockSchemaOn(nb.block, Api.Spec)), j.items[i]);
        AdmittedIsComplete(nb.block, j.items[i].fields);
      }
    }
  }

  /** So an admitted spec is mapped exactly if nothing in it goes unhandled and its references resolve. */
  lemma AdmittedIsMappedIff(name: Bytes, b: Block, s: Spec, l: Lookups)
    requires Api.BlockTypesOk(b) && Api.BlockFollowable(b) && WellNamed(b) && Shaped(b, s)
    requires Api.Validates(true, Api.RootSchema(name, b).spec, JObject(s))
    ensures SpecOk(b, s, l) <==> SpecHandled(b, s) && SpecResolves(b, s, l)
  {
    SpecAdmittedIff(b, s);
    SpecOkIffResolved(b, s, l);
    AdmittedIsComplete(b, s);
  }
}
