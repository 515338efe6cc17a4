/**
 The type of the configuration depends on the block schema and on which nested blocks the spec
 supplies, and on nothing else: it is the implied type with a string display_name added in every
 supplied block.  So the items of an array-shaped block have one type exactly when they supply
 the same nested blocks.
 */
module SpecTypes {
  import opened GoStrings
  import opened Cty
  import opened BlockSchema
  import opened References
  import opened AttributeMapping
  import opened SpecMapping

  function FieldNames(b: Block): set<Bytes> {
    b.attributes.Keys + b.blockTypes.Keys + {DISPLAY_NAME}
  }

  function SuppliedType(b: Block, s: Spec): Type
    decreases b, 1
  {
    TObject(map k | k in FieldNames(b) :: SuppliedFieldType(b, s, k))
  }

  function SuppliedFieldType(b: Block, s: Spec, k: Bytes): Type
    decreases b, 0
  {
    if k in b.blockTypes then SuppliedBlockType(b.blockTypes[k], k in s, At(s, k))
    else if k in b.attributes then b.attributes[k].attrType
    else TString
  }

  function SuppliedBlockType(nb: NestedBlock, given: bool, j: Json): Type
    decreases nb, 0
  {
    if !given || Dropped(nb) then NestedType(nb) else Wrap(nb.nesting, SuppliedType(nb.block, SpecAt(nb, j)))
  }

  lemma StartType(b: Block, name: Bytes, k: Bytes)
    requires WellNamed(b) && k in StartFields(b, name)
    ensures TypeOf(StartFields(b, name)[k]) ==
            if k in b.blockTypes then NestedType(b.blockTypes[k])
            else if k in b.attributes then b.attributes[k].attrType else TString
  {
    if k in b.blockTypes { EmptyNestedType(b.blockTypes[k]); }
  }

  lemma UnflattenType(name: Bytes, v: Value, nb: NestedBlock)
    ensures TypeOf(Unflatten(name, v, nb)) == Wrap(nb.nesting, TypeOf(v))
  {
  }

  /** Type soundness. */
  lemma {:induction false} ConfigType(b: Block, name: Bytes, s: Spec, l: Lookups)
    requires WellNamed(b) && SpecOk(b, s, l) && Shaped(b, s)
    ensures TypeOf(ObjectV(Config(b, name, s, l))) == SuppliedType(b, s)
    decreases b, 1
  {
    var c := Config(b, name, s, l);
    forall k | k in c ensures TypeOf(c[k]) == SuppliedFieldType(b, s, k) {
      FieldType(b, name, s, l, k);
    }
    assert c.Keys == FieldNames(b);
  }

  lemma {:induction false} FieldType(b: Block, name: Bytes, s: Spec, l: Lookups, k: Bytes)
    requires WellNamed(b) && k in StartFields(b, name) && FieldOk(b, s, l, k)
    ensures TypeOf(Field(b, name, s, l, k)) == SuppliedFieldType(b, s, k)
    decreases b, 0
  {
    StartType(b, name, k);
    if k in b.blockTypes && k in s {
      BlockValueType(b.blockTypes[k], k, s[k], l);
    } else if k in b.attributes && k in s {
      AttrValueType(b.attributes[k].attrType, s[k], l);
    }
  }

  lemma {:induction false} BlockValueType(nb: NestedBlock, name: Bytes, j: Json, l: Lookups)
    requires WellNamed(nb.block) && BlockOk(nb, j, l) && BlockShaped(nb, j)
    ensures TypeOf(BlockValue(nb, name, j, l)) == SuppliedBlockType(nb, true, j)
    decreases nb, 0
  {
    if IsObjectProperty(nb) {
      ConfigType(nb.block, name, j.fields, l);
      UnflattenType(name, ObjectV(Config(nb.block, name, j.fields, l)), nb);
    } else if nb.nesting == Map {
      EmptyNestedType(nb);
    } else {
      ConfigType(nb.block, name, FirstItem(j), l);
    }
  }

  // ---------------------------------------------------------------- one type, one shape

  lemma WrapInjective(nesting: Nesting, t: Type, u: Type)
    requires Wrap(nesting, t) == Wrap(nesting, u)
    ensures t == u
  {
  }

  /** A supplied block is told from one that is not by a display_name, in it or below. */
  lemma {:induction false} UnmarkedIff(b: Block, s: Spec)
    ensures SuppliedType(b, s) == ImpliedType(b) <==> Unmarked(b, s)
    decreases b, 1
  {
    forall n | n in b.blockTypes
      ensures SuppliedFieldType(b, s, n) == NestedType(b.blockTypes[n]) <==> FieldUnmarked(b, s, n)
    {
      if n in s && !Dropped(b.blockTypes[n]) { BlockUnmarkedIff(b.blockTypes[n], s[n]); }
    }
    UnmarkedByFields(b, s);
  }

  predicate FieldUnmarked(b: Block, s: Spec, n: Bytes)
    requires n in b.blockTypes
  {
    n in s && !Dropped(b.blockTypes[n]) ==> Unmarked(b.blockTypes[n].block, SpecAt(b.blockTypes[n], s[n]))
  }

  lemma UnmarkedByFields(b: Block, s: Spec)
    requires forall n :: n in b.blockTypes ==>
               (SuppliedFieldType(b, s, n) == NestedType(b.blockTypes[n]) <==> FieldUnmarked(b, s, n))
    ensures SuppliedType(b, s) == ImpliedType(b) <==> Unmarked(b, s)
  {
    var x, y := SuppliedType(b, s).attributes, ImpliedType(b).attributes;
    assert x.Keys == FieldNames(b) && y.Keys == b.attributes.Keys + b.blockTypes.Keys;
    forall k | k in y ensures x[k] == SuppliedFieldType(b, s, k) && (k !in b.blockTypes ==> x[k] == y[k]) {
      assert k in FieldNames(b);
    }
    if SuppliedType(b, s) == ImpliedType(b) {
      assert DISPLAY_NAME in x;
      forall n | n in b.blockTypes ensures FieldUnmarked(b, s, n) {
        assert n in y && x[n] == NestedType(b.blockTypes[n]);
      }
    }
    if Unmarked(b, s) {
      forall k | k in y ensures x[k] == y[k] {
        if k in b.blockTypes { assert FieldUnmarked(b, s, k); }
      }
      assert x == y;
    }
  }

  lemma {:induction false} BlockUnmarkedIff(nb: NestedBlock, j: Json)
    requires !Dropped(nb)
    ensures SuppliedBlockType(nb, true, j) == NestedType(nb) <==> Unmarked(nb.block, SpecAt(nb, j))
    decreases nb, 0
  {
    UnmarkedIff(nb.block, SpecAt(nb, j));
    if SuppliedBlockType(nb, true, j) == NestedType(nb) {
      WrapInjective(nb.nesting, SuppliedType(nb.block, SpecAt(nb, j)), ImpliedType(nb.block));
    }
  }

  /** Two specs map to one type if and only if they are of the same shape. */
  lemma {:induction false} SameTypeIffSameShape(b: Block, s: Spec, t: Spec)
    ensures SuppliedType(b, s) == SuppliedType(b, t) <==> SameShape(b, s, t)
    decreases b, 1
  {
    forall n | n in b.blockTypes
      ensures SuppliedFieldType(b, s, n) == SuppliedFieldType(b, t, n) <==>
              BlockSameShape(b.blockTypes[n], n in s, n in t, At(s, n), At(t, n))
    {
      BlockTypeIffShape(b.blockTypes[n], n in s, n in t, At(s, n), At(t, n));
    }
    SameTypeByFields(b, s, t);
  }

  lemma SameTypeByFields(b: Block, s: Spec, t: Spec)
    requires forall n :: n in b.blockTypes ==>
               (SuppliedFieldType(b, s, n) == SuppliedFieldType(b, t, n) <==>
                BlockSameShape(b.blockTypes[n], n in s, n in t, At(s, n), At(t, n)))
    ensures SuppliedType(b, s) == SuppliedType(b, t) <==> SameShape(b, s, t)
  {
    var x, y := SuppliedType(b, s).attributes, SuppliedType(b, t).attributes;
    assert forall n :: n in FieldNames(b) ==> x[n] == SuppliedFieldType(b, s, n) && y[n] == SuppliedFieldType(b, t, n);
    if SameShape(b, s, t) { assert x == y; }
  }

  lemma {:induction false} BlockTypeIffShape(nb: NestedBlock, given1: bool, given2: bool, j: Json, k: Json)
    ensures SuppliedBlockType(nb, given1, j) == SuppliedBlockType(nb, given2, k) <==>
            BlockSameShape(nb, given1, given2, j, k)
    decreases nb, 0
  {
    if !Dropped(nb) {
      var s, t := SpecAt(nb, j), SpecAt(nb, k);
      SameTypeIffSameShape(nb.block, s, t);
      UnmarkedIff(nb.block, s);
      UnmarkedIff(nb.block, t);
      if SuppliedBlockType(nb, given1, j) == SuppliedBlockType(nb, given2, k) {
        WrapInjective(nb.nesting, if given1 then SuppliedType(nb.block, s) else ImpliedType(nb.block),
                      if given2 then SuppliedType(nb.block, t) else ImpliedType(nb.block));
      }
    }
  }

  /**
   The precondition of cty.ListVal and cty.SetVal, exactly: two items map to values of one type
   if and only if they are of the same shape.
   */
  lemma ItemsOfOneType(b: Block, name: Bytes, s: Spec, t: Spec, l: Lookups)
    requires WellNamed(b) && SpecOk(b, s, l) && Shaped(b, s) && SpecOk(b, t, l) && Shaped(b, t)
    ensures TypeOf(ObjectV(Config(b, name, s, l))) == TypeOf(ObjectV(Config(b, name, t, l))) <==> SameShape(b, s, t)
  {
    ConfigType(b, name, s, l);
    ConfigType(b, name, t, l);
    SameTypeIffSameShape(b, s, t);
  }
}
