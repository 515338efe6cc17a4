/**
 Replacing the references in a spec and mapping the result literally is the same as mapping the
 spec against the API server: each reference is looked up once, and what it yields is never
 looked up again, whatever it looks like.
 */
module SpecReferences {
  import opened GoStrings
  import opened Cty
  import opened BlockSchema
  import opened References
  import opened AttributeMapping
  import opened SpecMapping

  /** The spec with each reference at a place of the schema replaced by what it resolves to. */
  function SubstituteSpec(b: Block, s: Spec, l: Lookups): Spec
    decreases b, 2
  {
    map k | k in s :: SubstituteField(b, s, l, k)
  }

  function SubstituteField(b: Block, s: Spec, l: Lookups, k: Bytes): Json
    requires k in s
    decreases b, 1
  {
    if k in b.blockTypes then SubstituteBlock(b.blockTypes[k], s[k], l)
    else if k in b.attributes then Substitute(b.attributes[k].attrType, s[k], l)
    else s[k]
  }

  function SubstituteBlock(nb: NestedBlock, j: Json, l: Lookups): Json
    decreases nb, 0
  {
    if IsObjectProperty(nb) then
      if j.JObject? then JObject(SubstituteSpec(nb.block, j.fields, l)) else j
    else if j.JArray? then JArray(SubstituteBlockItems(nb.block, j.items, l))
    else j
  }

  function SubstituteBlockItems(b: Block, items: seq<Json>, l: Lookups): (r: seq<Json>)
    ensures |r| == |items|
    decreases b, 3
  {
    seq(|items|, i requires 0 <= i < |items| =>
      if items[i].JObject? then JObject(SubstituteSpec(b, items[i].fields, l)) else items[i])
  }

  /** Every reference at a place of the schema resolves to a value. */
  predicate SpecResolves(b: Block, s: Spec, l: Lookups)
    decreases b, 2
  {
    && (forall a :: a in b.attributes && a in s ==> AllResolve(b.attributes[a].attrType, s[a], l))
    && (forall n :: n in b.blockTypes && n in s ==> BlockResolves(b.blockTypes[n], s[n], l))
  }

  predicate BlockResolves(nb: NestedBlock, j: Json, l: Lookups)
    decreases nb, 0
  {
    if IsObjectProperty(nb) then SpecResolves(nb.block, Fields(j), l)
    else ItemsResolve(nb.block, Items(j), l)
  }

  predicate ItemsResolve(b: Block, items: seq<Json>, l: Lookups)
    decreases b, 3
  {
    forall i :: 0 <= i < |items| ==> SpecResolves(b, Fields(items[i]), l)
  }

  // ---------------------------------------------------------------- when the mapping succeeds

  /** A value comes back exactly when the spec is acceptable as text and every reference resolves. */
  lemma {:induction false} SpecOkIffResolved(b: Block, s: Spec, l: Lookups)
    ensures SpecOk(b, s, l) <==> SpecOk(b, s, Literal) && SpecResolves(b, s, l)
    decreases b, 2
  {
    forall a | a in b.attributes && a in s { OkIffResolved(b.attributes[a].attrType, s[a], l); }
    forall n | n in b.blockTypes && n in s { BlockOkIffResolved(b.blockTypes[n], s[n], l); }
  }

  lemma {:induction false} BlockOkIffResolved(nb: NestedBlock, j: Json, l: Lookups)
    ensures BlockOk(nb, j, l) <==> BlockOk(nb, j, Literal) && BlockResolves(nb, j, l)
    decreases nb, 0
  {
    if IsObjectProperty(nb) {
      SpecOkIffResolved(nb.block, Fields(j), l);
    } else {
      forall i | 0 <= i < |Items(j)| { SpecOkIffResolved(nb.block, Fields(Items(j)[i]), l); }
    }
  }

  // ---------------------------------------------------------------- substitution keeps the shape

  lemma {:induction false} SubstituteConstructible(t: Type, j: Json, l: Lookups)
    requires Constructible(t, j)
    ensures Constructible(t, Substitute(t, j, l))
    decreases t
  {
    match t
    case TMap(e) =>
      if j.JObject? {
        var k :| k in j.fields;
        assert k in SubstituteEntries(e, j.fields, l);
        forall k | k in j.fields { SubstituteConstructible(e, j.fields[k], l); }
      }
    case TList(e) => if j.JArray? { forall i | 0 <= i < |j.items| { SubstituteConstructible(e, j.items[i], l); } }
    case TSet(e) => if j.JArray? { forall i | 0 <= i < |j.items| { SubstituteConstructible(e, j.items[i], l); } }
    case _ =>
  }

  /** The spec of a block is substituted where it is. */
  lemma SubstituteSpecAt(nb: NestedBlock, j: Json, l: Lookups)
    ensures SpecAt(nb, SubstituteBlock(nb, j, l)) == SubstituteSpec(nb.block, SpecAt(nb, j), l)
  {
    SubstituteNothing(nb.block, l);
  }

  lemma {:induction false} SubstituteUnmarked(b: Block, s: Spec, l: Lookups)
    requires Unmarked(b, s)
    ensures Unmarked(b, SubstituteSpec(b, s, l))
    decreases b
  {
    var after := SubstituteSpec(b, s, l);
    forall n | n in b.blockTypes && n in after && !Dropped(b.blockTypes[n])
      ensures Unmarked(b.blockTypes[n].block, SpecAt(b.blockTypes[n], after[n]))
    {
      FieldAt(b, s, l, n);
      SubstituteSpecAt(b.blockTypes[n], s[n], l);
      SubstituteUnmarked(b.blockTypes[n].block, SpecAt(b.blockTypes[n], s[n]), l);
    }
  }

  lemma {:induction false} SubstituteSameShape(b: Block, s: Spec, t: Spec, l: Lookups)
    requires SameShape(b, s, t)
    ensures SameShape(b, SubstituteSpec(b, s, l), SubstituteSpec(b, t, l))
    decreases b, 1
  {
    var s', t' := SubstituteSpec(b, s, l), SubstituteSpec(b, t, l);
    forall n | n in b.blockTypes
      ensures BlockSameShape(b.blockTypes[n], n in s', n in t', At(s', n), At(t', n))
    {
      assert BlockSameShape(b.blockTypes[n], n in s, n in t, At(s, n), At(t, n));
      if n in s { FieldAt(b, s, l, n); }
      if n in t { FieldAt(b, t, l, n); }
      SubstituteBlockSameShape(b.blockTypes[n], n in s, n in t, At(s, n), At(t, n), At(s', n), At(t', n), l);
    }
  }

  lemma {:induction false} SubstituteBlockSameShape(
    nb: NestedBlock, given1: bool, given2: bool, j: Json, k: Json, j': Json, k': Json, l: Lookups)
    requires BlockSameShape(nb, given1, given2, j, k)
    requires given1 ==> j' == SubstituteBlock(nb, j, l)
    requires given2 ==> k' == SubstituteBlock(nb, k, l)
    ensures BlockSameShape(nb, given1, given2, j', k')
    decreases nb, 0
  {
    SubstituteSpecAt(nb, j, l);
    SubstituteSpecAt(nb, k, l);
    if Dropped(nb) {
    } else if given1 && given2 {
      SubstituteSameShape(nb.block, SpecAt(nb, j), SpecAt(nb, k), l);
    } else if given1 {
      SubstituteUnmarked(nb.block, SpecAt(nb, j), l);
    } else if given2 {
      SubstituteUnmarked(nb.block, SpecAt(nb, k), l);
    }
  }

  lemma FieldAt(b: Block, s: Spec, l: Lookups, n: Bytes)
    requires n in b.blockTypes && n in s
    ensures At(SubstituteSpec(b, s, l), n) == SubstituteBlock(b.blockTypes[n], s[n], l)
  {
  }

  lemma SubstituteNothing(b: Block, l: Lookups)
    ensures SubstituteSpec(b, map[], l) == map[]
  {
  }

  lemma {:induction false} SubstituteShaped(b: Block, s: Spec, l: Lookups)
    requires WellNamed(b) && Shaped(b, s)
    ensures Shaped(b, SubstituteSpec(b, s, l))
    decreases b, 1
  {
    forall a | a in b.attributes && a in s {
      SubstituteConstructible(b.attributes[a].attrType, s[a], l);
    }
    forall n | n in b.blockTypes && n in s { SubstituteBlockShaped(b.blockTypes[n], s[n], l); }
  }

  lemma {:induction false} SubstituteBlockShaped(nb: NestedBlock, j: Json, l: Lookups)
    requires WellNamed(nb.block) && BlockShaped(nb, j)
    ensures BlockShaped(nb, SubstituteBlock(nb, j, l))
    decreases nb, 0
  {
    if IsObjectProperty(nb) {
      SubstituteShaped(nb.block, j.fields, l);
    } else {
      forall i | 0 <= i < |j.items| { SubstituteShaped(nb.block, j.items[i].fields, l); }
      if nb.nesting != Map {
        forall i | 0 <= i < |j.items| { SubstituteSameShape(nb.block, FirstItem(j), Fields(j.items[i]), l); }
      }
    }
  }

  // ---------------------------------------------------------------- substitution commutes with the mapping

  /** The configuration is the literal mapping of the substituted spec. */
  lemma {:induction false} SubstituteThenConfig(b: Block, name: Bytes, s: Spec, l: Lookups)
    requires WellNamed(b) && SpecOk(b, s, l) && Shaped(b, s)
    ensures Shaped(b, SubstituteSpec(b, s, l)) && SpecOk(b, SubstituteSpec(b, s, l), Literal)
    ensures Config(b, name, SubstituteSpec(b, s, l), Literal) == Config(b, name, s, l)
    decreases b, 2
  {
    var after := SubstituteSpec(b, s, l);
    SubstituteShaped(b, s, l);
    forall k | k in b.attributes.Keys + b.blockTypes.Keys && k in s
      ensures FieldOk(b, after, Literal, k)
    {
      SubstituteThenField(b, name, s, l, k);
    }
    assert SpecOk(b, after, Literal);
    var c, c' := Config(b, name, s, l), Config(b, name, after, Literal);
    forall k | k in c ensures c'[k] == c[k] {
      SubstituteThenField(b, name, s, l, k);
    }
  }

  lemma {:induction false} SubstituteThenField(b: Block, name: Bytes, s: Spec, l: Lookups, k: Bytes)
    requires WellNamed(b) && k in StartFields(b, name) && FieldOk(b, s, l, k)
    ensures FieldOk(b, SubstituteSpec(b, s, l), Literal, k)
    ensures Field(b, name, SubstituteSpec(b, s, l), Literal, k) == Field(b, name, s, l, k)
    decreases b, 1
  {
    if k in b.blockTypes && k in s {
      SubstituteThenBlock(b.blockTypes[k], k, s[k], l);
    } else if k in b.attributes && k in s {
      SubstituteThenMap(b.attributes[k].attrType, s[k], l);
    }
  }

  lemma {:induction false} SubstituteThenBlock(nb: NestedBlock, name: Bytes, j: Json, l: Lookups)
    requires WellNamed(nb.block) && BlockOk(nb, j, l) && BlockShaped(nb, j)
    ensures BlockOk(nb, SubstituteBlock(nb, j, l), Literal) && BlockShaped(nb, SubstituteBlock(nb, j, l))
    ensures BlockValue(nb, name, SubstituteBlock(nb, j, l), Literal) == BlockValue(nb, name, j, l)
    decreases nb, 0
  {
    SubstituteBlockShaped(nb, j, l);
    if IsObjectProperty(nb) {
      SubstituteThenConfig(nb.block, name, j.fields, l);
    } else {
      SubstituteThenItems(nb.block, name, j.items, l);
    }
  }

  lemma {:induction false} SubstituteThenItems(b: Block, name: Bytes, items: seq<Json>, l: Lookups)
    requires WellNamed(b) && ItemsOk(b, items, l, |items|)
    requires forall i :: 0 <= i < |items| ==> items[i].JObject? && Shaped(b, items[i].fields)
    ensures var after := SubstituteBlockItems(b, items, l);
            && (forall i :: 0 <= i < |items| ==> Shaped(b, Fields(after[i])))
            && ItemsOk(b, after, Literal, |after|) &&
               ItemValues(b, name, after, Literal) == ItemValues(b, name, items, l)
    decreases b, 3
  {
    forall i | 0 <= i < |items| { SubstituteThenConfig(b, name, items[i].fields, l); }
  }
}
