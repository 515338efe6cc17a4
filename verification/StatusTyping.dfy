/**
 Values that the status can always show: every value of the type that a block implies, as
 providers return them, and every configuration that the mapping of specs makes.
 */
module StatusTyping {
  import opened GoStrings
  import opened Cty
  import opened BlockSchema
  import opened References
  import opened AttributeMapping
  import opened SpecMapping
  import opened PropertySearch
  import opened StatusMapping
  import Api = OpenApi

  // ---------------------------------------------------------------- blocks and values

  /** Primitives, and lists and sets of these. */
  predicate Listed(t: Type) {
    match t
    case TString => true
    case TBool => true
    case TNumber => true
    case TList(e) => Listed(e)
    case TSet(e) => Listed(e)
    case _ => false
  }

  /** Blocks without map or object attributes, and without maps of blocks shown as arrays. */
  predicate Supported(b: Block) {
    && (forall a :: a in b.attributes ==> Listed(b.attributes[a].attrType))
    && (forall n :: n in b.blockTypes ==> SupportedBlock(b.blockTypes[n]))
  }

  predicate SupportedBlock(nb: NestedBlock) {
    (nb.nesting == Map ==> IsObjectProperty(nb)) && Supported(nb.block)
  }

  /** A value of a type, with all that is in it. */
  predicate HasType(v: Value, t: Type) {
    v == NullV(t) ||
    match t
    case TString => v.StringV?
    case TBool => v.BoolV?
    case TNumber => v.NumberV?
    case TList(e) => v.ListV? && v.listElem == e && forall i :: 0 <= i < |v.items| ==> HasType(v.items[i], e)
    case TSet(e) => v.SetV? && v.setElem == e && forall m :: m in v.members ==> HasType(m, e)
    case TMap(e) => v.MapV? && v.mapElem == e && forall k :: k in v.entries ==> HasType(v.entries[k], e)
    case TObject(types) => v.ObjectV? && v.fields.Keys == types.Keys &&
      forall k :: k in types ==> HasType(v.fields[k], types[k])
    case TDynamic => false
  }

  /** The value is an object, and no collection of blocks, nor a block in one, is null. */
  predicate NotNull(v: Value, c: Block)
    decreases v, 0
  {
    v.ObjectV? && forall n :: n in c.blockTypes && n in v.fields ==> BlockNotNull(v.fields[n], c.blockTypes[n])
  }

  predicate BlockNotNull(v: Value, nb: NestedBlock)
    decreases v, 1
  {
    match v
    case ListV(_, items) => forall i :: 0 <= i < |items| ==> NotNull(items[i], nb.block)
    case SetV(_, members) => forall m :: m in members ==> NotNull(m, nb.block)
    case MapV(_, entries) => forall k :: k in entries ==> NotNull(entries[k], nb.block)
    case NullV(_) => nb.nesting == Single || nb.nesting == Group
    case _ => NotNull(v, nb.block)
  }

  lemma {:induction false} TypedAttributeFits(root: Api.Schema, v: Value, t: Type)
    requires Listed(t) && HasType(v, t)
    ensures FitsAttribute(root, v, t)
    decreases t
  {
    if t.TList? && v.ListV? {
      forall i | 0 <= i < |v.items| { TypedAttributeFits(root, v.items[i], t.elem); }
    } else if t.TSet? && v.SetV? {
      forall m | m in v.members { TypedAttributeFits(root, m, t.elem); }
    }
  }

  lemma {:induction false} AttributeValueFits(root: Api.Schema, t: Type, j: Json, l: Lookups)
    requires Listed(t) && AttrOk(t, j, l)
    ensures FitsAttribute(root, AttrValue(t, j, l), t)
    decreases t
  {
    match t
    case TList(e) => forall i | 0 <= i < |j.items| { AttributeValueFits(root, e, j.items[i], l); }
    case TSet(e) => forall i | 0 <= i < |j.items| { AttributeValueFits(root, e, j.items[i], l); }
    case _ =>
  }

  // ---------------------------------------------------------------- values of the implied type

  /** The walk meets none of the names of an array-shaped block. */
  lemma ItemNamesUnknown(root: Api.Schema, c: Block, n: Bytes, k: Bytes)
    requires Knows(root, c) && n in c.blockTypes && !IsObjectProperty(c.blockTypes[n])
    requires Declares(c.blockTypes[n].block, k)
    ensures Unknown(root, k)
  {
    if Reaches(c, k) {
      var m :| m in c.blockTypes && IsObjectProperty(c.blockTypes[m]) && Reaches(c.blockTypes[m].block, k);
      ReachedIsDeclared(c.blockTypes[m].block, k);
    }
    assert MeetsNoItems(root, c, k);
  }

  lemma ItemFits(root: Api.Schema, c: Block, n: Bytes, v: Value)
    requires Knows(root, c) && n in c.blockTypes && !IsObjectProperty(c.blockTypes[n]) && v.ObjectV?
    requires forall k :: k in v.fields ==> Declares(c.blockTypes[n].block, k) || Unknown(root, k)
    ensures FitsItem(root, v)
  {
    forall k | k in v.fields && Declares(c.blockTypes[n].block, k) { ItemNamesUnknown(root, c, n, k); }
  }

  /** Every value of the implied type, with no null where a block is expected, can be shown. */
  lemma {:induction false} TypedFits(root: Api.Schema, c: Block, v: Value)
    requires Knows(root, c) && Supported(c) && HasType(v, ImpliedType(c)) && NotNull(v, c)
    ensures FitsObject(root, v, c)
    decreases v, 0, 0
  {
    forall k | k in v.fields ensures FitsField(root, v.fields[k], Seek(c, k), k) {
      assert HasType(v.fields[k], ImpliedType(c).attributes[k]);
      if k in c.attributes {
        TypedAttributeFits(root, v.fields[k], c.attributes[k].attrType);
      } else {
        TypedBlockFits(root, c, k, v.fields[k]);
      }
    }
  }

  lemma {:induction false} TypedBlockFits(root: Api.Schema, c: Block, n: Bytes, v: Value)
    requires Knows(root, c) && n in c.blockTypes && SupportedBlock(c.blockTypes[n])
    requires HasType(v, NestedType(c.blockTypes[n])) && BlockNotNull(v, c.blockTypes[n])
    ensures FitsBlock(root, v, c.blockTypes[n])
    decreases v, 1
  {
    if IsObjectProperty(c.blockTypes[n]) {
      TypedObjectFits(root, c.blockTypes[n], v);
    } else {
      TypedArrayFits(root, c, n, v);
    }
  }

  lemma {:induction false} TypedObjectFits(root: Api.Schema, nb: NestedBlock, v: Value)
    requires Knows(root, nb.block) && Supported(nb.block) && IsObjectProperty(nb)
    requires HasType(v, NestedType(nb)) && BlockNotNull(v, nb)
    ensures FitsBlock(root, v, nb)
    decreases v, 0, 1
  {
    match v
    case ListV(_, items) => forall i | 0 <= i < |items| { TypedFits(root, nb.block, items[i]); }
    case SetV(_, members) => forall m | m in members { TypedFits(root, nb.block, m); }
    case MapV(_, entries) => forall k | k in entries { TypedFits(root, nb.block, entries[k]); }
    case ObjectV(_) => TypedFits(root, nb.block, v);
    case _ =>
  }

  lemma TypedArrayFits(root: Api.Schema, c: Block, n: Bytes, v: Value)
    requires Knows(root, c) && n in c.blockTypes && SupportedBlock(c.blockTypes[n]) &&
               !IsObjectProperty(c.blockTypes[n])
    requires HasType(v, NestedType(c.blockTypes[n])) && BlockNotNull(v, c.blockTypes[n])
    ensures FitsBlock(root, v, c.blockTypes[n])
  {
    match v
    case ListV(_, items) => forall i | 0 <= i < |items| { TypedItemFits(root, c, n, items[i]); }
    case SetV(_, members) => forall m | m in members { TypedItemFits(root, c, n, m); }
    case _ =>
  }

  lemma TypedItemFits(root: Api.Schema, c: Block, n: Bytes, v: Value)
    requires Knows(root, c) && n in c.blockTypes && !IsObjectProperty(c.blockTypes[n])
    requires v.ObjectV? && HasType(v, ImpliedType(c.blockTypes[n].block))
    ensures FitsItem(root, v)
  {
    ItemFits(root, c, n, v);
  }

  // ---------------------------------------------------------------- every typed value is decided

  lemma {:induction false} TypedAttributeDecided(root: Api.Schema, v: Value, t: Type, attr: Attribute)
    requires Flat(t) && HasType(v, t)
    ensures FitsAttribute(root, v, t) || Refuses(root, v, AnAttribute(attr))
    decreases t
  {
    if t.TList? && v.ListV? {
      forall i | 0 <= i < |v.items| { TypedAttributeDecided(root, v.items[i], t.elem, attr); }
    } else if t.TSet? && v.SetV? {
      forall m | m in v.members { TypedAttributeDecided(root, m, t.elem, attr); }
    }
  }

  /**
   A value of the implied type, whatever is null in it, can be shown or is refused, in whatever order
   maps and sets are visited; so the mapping back succeeds exactly for those that fit.
   */
  lemma {:induction false} TypedDecided(root: Api.Schema, c: Block, v: Value)
    requires Knows(root, c) && v.ObjectV? && HasType(v, ImpliedType(c)) && OneEntry(v, c)
    ensures FitsObject(root, v, c) || RefusesObject(root, v, Some(c))
    decreases v, 0, 1
  {
    forall k | k in v.fields
      ensures FitsField(root, v.fields[k], Seek(c, k), k) || RefusesField(root, v.fields[k], k, Some(c))
    {
      assert HasType(v.fields[k], ImpliedType(c).attributes[k]);
      assert Meets(root, c, k);
      if k in c.attributes {
        TypedAttributeDecided(root, v.fields[k], c.attributes[k].attrType, c.attributes[k]);
      } else {
        TypedBlockDecided(root, c, k, v.fields[k]);
      }
    }
  }

  lemma {:induction false} TypedBlockDecided(root: Api.Schema, c: Block, n: Bytes, v: Value)
    requires Knows(root, c) && n in c.blockTypes && HasType(v, NestedType(c.blockTypes[n]))
    requires BlockOneEntry(v, c.blockTypes[n])
    ensures FitsBlock(root, v, c.blockTypes[n]) || Refuses(root, v, ABlock(c.blockTypes[n]))
    decreases v, 2
  {
    var nb := c.blockTypes[n];
    if IsObjectProperty(nb) {
      TypedObjectDecided(root, nb, v);
    } else {
      match v
      case ListV(_, items) => forall i | 0 <= i < |items| { AnyItemFits(root, c, n, items[i]); }
      case SetV(_, members) => forall m | m in members { AnyItemFits(root, c, n, m); }
      case _ =>
    }
  }

  lemma AnyItemFits(root: Api.Schema, c: Block, n: Bytes, v: Value)
    requires Knows(root, c) && n in c.blockTypes && !IsObjectProperty(c.blockTypes[n])
    requires HasType(v, ImpliedType(c.blockTypes[n].block))
    ensures FitsItem(root, v)
  {
    if v.ObjectV? { ItemFits(root, c, n, v); }
  }

  lemma {:induction false} TypedObjectDecided(root: Api.Schema, nb: NestedBlock, v: Value)
    requires Knows(root, nb.block) && IsObjectProperty(nb) && HasType(v, NestedType(nb)) && BlockOneEntry(v, nb)
    ensures FitsBlock(root, v, nb) || Refuses(root, v, ABlock(nb))
    decreases v, 1
  {
    match v
    case ListV(_, items) =>
      if |items| == 1 && items[0].ObjectV? { TypedDecided(root, nb.block, items[0]); }
    case SetV(_, members) => if |members| == 1 { TypedMemberDecided(root, nb, v); }
    case MapV(_, entries) => if entries != map[] { TypedEntryDecided(root, nb, v); }
    case ObjectV(_) => TypedDecided(root, nb.block, v);
    case _ =>
  }

  lemma {:induction false} TypedMemberDecided(root: Api.Schema, nb: NestedBlock, v: Value)
    requires Knows(root, nb.block) && IsObjectProperty(nb) && HasType(v, NestedType(nb)) && BlockOneEntry(v, nb)
    requires v.SetV? && |v.members| == 1
    ensures FitsBlock(root, v, nb) || Refuses(root, v, ABlock(nb))
    decreases v, 0, 0
  {
    var m :| m in v.members;
    OnlyMember(v.members, m);
    if m.ObjectV? { TypedDecided(root, nb.block, m); }
  }

  lemma {:induction false} TypedEntryDecided(root: Api.Schema, nb: NestedBlock, v: Value)
    requires Knows(root, nb.block) && IsObjectProperty(nb) && HasType(v, NestedType(nb)) && BlockOneEntry(v, nb)
    requires v.MapV? && v.entries != map[]
    ensures FitsBlock(root, v, nb) || Refuses(root, v, ABlock(nb))
    decreases v, 0, 0
  {
    var k :| k in v.entries;
    OnlyEntry(v.entries, k);
    if v.entries[k].ObjectV? { TypedDecided(root, nb.block, v.entries[k]); }
  }

  // ---------------------------------------------------------------- configurations

  lemma {:induction false} EmptyFits(root: Api.Schema, c: Block)
    requires Knows(root, c) && Supported(c)
    ensures FitsObject(root, EmptyValue(c), c)
    decreases c, 0
  {
    forall k | k in EmptyFields(c) ensures FitsField(root, EmptyFields(c)[k], Seek(c, k), k) {
      if k in c.blockTypes { EmptyBlockFits(root, c.blockTypes[k]); }
    }
  }

  lemma {:induction false} EmptyBlockFits(root: Api.Schema, nb: NestedBlock)
    requires SupportedBlock(nb) && (IsObjectProperty(nb) ==> Knows(root, nb.block))
    ensures FitsBlock(root, EmptyNested(nb), nb)
    decreases nb, 1
  {
    if nb.nesting == Group { EmptyFits(root, nb.block); }
  }

  /**
   The display_names that the mapping of specs adds can be mapped back: the block that declares
   the name lies below every block that is supplied, and no block shown as an array has items.
   */
  predicate CanDisplay(c: Block, s: Spec)
    decreases c
  {
    Reaches(c, DISPLAY_NAME) &&
    forall n :: n in c.blockTypes && n in s ==>
      if IsObjectProperty(c.blockTypes[n]) then CanDisplay(c.blockTypes[n].block, Fields(s[n])) else Items(s[n]) == []
  }

  ghost predicate DisplayOk(root: Api.Schema, c: Block, s: Spec) {
    Unknown(root, DISPLAY_NAME) || CanDisplay(c, s)
  }

  lemma {:induction false} SeekDisplayName(c: Block)
    requires WellNamed(c) && UniqueNames(c) && Reaches(c, DISPLAY_NAME)
    ensures var f := Seek(c, DISPLAY_NAME); f.AnAttribute? && f.attr.attrType == TString
  {
    if Here(c, DISPLAY_NAME) == Nothing {
      var n :| n in c.blockTypes && IsObjectProperty(c.blockTypes[n]) && Reaches(c.blockTypes[n].block, DISPLAY_NAME);
      SeekBelow(c, n, DISPLAY_NAME);
      SeekDisplayName(c.blockTypes[n].block);
    }
  }

  /** Every such configuration can be shown. */
  lemma {:induction false} ConfigFits(root: Api.Schema, c: Block, display: Bytes, s: Spec, l: Lookups)
    requires Knows(root, c) && Supported(c) && WellNamed(c) && DisplayOk(root, c, s)
    requires SpecOk(c, s, l) && Shaped(c, s)
    ensures FitsObject(root, ObjectV(Config(c, display, s, l)), c)
    decreases c, 2
  {
    var config := Config(c, display, s, l);
    forall k | k in config ensures FitsField(root, config[k], Seek(c, k), k) {
      FieldFits(root, c, display, s, l, k);
    }
  }

  lemma {:induction false} FieldFits(root: Api.Schema, c: Block, display: Bytes, s: Spec, l: Lookups, k: Bytes)
    requires Knows(root, c) && Supported(c) && WellNamed(c) && DisplayOk(root, c, s)
    requires k in StartFields(c, display) && FieldOk(c, s, l, k)
    ensures FitsField(root, Field(c, display, s, l, k), Seek(c, k), k)
    decreases c, 1
  {
    if k in c.blockTypes && k in s {
      ValueFits(root, c, k, s[k], l);
    } else if k in c.attributes && k in s {
      AttributeValueFits(root, c.attributes[k].attrType, s[k], l);
      StartFits(root, c, display, s, k);
    } else {
      StartFits(root, c, display, s, k);
    }
  }

  /** What a field starts with. */
  lemma StartFits(root: Api.Schema, c: Block, display: Bytes, s: Spec, k: Bytes)
    requires Knows(root, c) && Supported(c) && WellNamed(c) && DisplayOk(root, c, s) && k in StartFields(c, display)
    ensures FitsField(root, StartFields(c, display)[k], Seek(c, k), k)
  {
    assert Meets(root, c, k);
    if k == DISPLAY_NAME {
      if Reaches(c, k) { SeekDisplayName(c); }
    } else {
      EmptyFits(root, c);
      assert FitsField(root, EmptyValue(c).fields[k], Seek(c, k), k);
    }
  }

  lemma {:induction false} ValueFits(root: Api.Schema, c: Block, n: Bytes, j: Json, l: Lookups)
    requires Knows(root, c) && n in c.blockTypes && SupportedBlock(c.blockTypes[n]) && WellNamed(c.blockTypes[n].block)
    requires BlockOk(c.blockTypes[n], j, l) && BlockShaped(c.blockTypes[n], j)
    requires Unknown(root, DISPLAY_NAME) ||
             if IsObjectProperty(c.blockTypes[n]) then CanDisplay(c.blockTypes[n].block, Fields(j)) else Items(j) == []
    ensures FitsBlock(root, BlockValue(c.blockTypes[n], n, j, l), c.blockTypes[n])
    decreases c.blockTypes[n], 3
  {
    var nb := c.blockTypes[n];
    if IsObjectProperty(nb) {
      ConfigFits(root, nb.block, n, j.fields, l);
      UnflattenedFits(root, n, ObjectV(Config(nb.block, n, j.fields, l)), nb);
    } else {
      ItemsFit(root, c, n, j.items, l);
    }
  }

  lemma ItemsFit(root: Api.Schema, c: Block, n: Bytes, items: seq<Json>, l: Lookups)
    requires Knows(root, c) && n in c.blockTypes && !IsObjectProperty(c.blockTypes[n])
    requires (Unknown(root, DISPLAY_NAME) || items == []) && ItemsOk(c.blockTypes[n].block, items, l, |items|)
    requires forall i :: 0 <= i < |items| ==> Shaped(c.blockTypes[n].block, Fields(items[i]))
    ensures forall v :: v in ItemValues(c.blockTypes[n].block, n, items, l) ==> FitsItem(root, v)
  {
    var b := c.blockTypes[n].block;
    forall i | 0 <= i < |items| ensures FitsItem(root, ObjectV(Config(b, n, Fields(items[i]), l))) {
      ItemFits(root, c, n, ObjectV(Config(b, n, Fields(items[i]), l)));
    }
  }

  lemma UnflattenedFits(root: Api.Schema, n: Bytes, x: Value, nb: NestedBlock)
    requires IsObjectProperty(nb) && FitsObject(root, x, nb.block)
    ensures FitsBlock(root, Unflatten(n, x, nb), nb)
  {
  }

  // ---------------------------------------------------------------- configurations that are refused

  lemma UnflattenedRefused(root: Api.Schema, n: Bytes, x: Value, nb: NestedBlock)
    requires IsObjectProperty(nb) && RefusesObject(root, x, Some(nb.block))
    ensures Refuses(root, Unflatten(n, x, nb), ABlock(nb))
  {
    if nb.nesting == Map { assert n in map[n := x]; }
  }

  /** And no other configuration can, in any order of maps and sets. */
  lemma {:induction false} ConfigRefused(root: Api.Schema, c: Block, display: Bytes, s: Spec, l: Lookups)
    requires Knows(root, c) && Supported(c) && WellNamed(c) && !DisplayOk(root, c, s)
    requires SpecOk(c, s, l) && Shaped(c, s)
    ensures RefusesObject(root, ObjectV(Config(c, display, s, l)), Some(c))
    decreases c, 2
  {
    var config := Config(c, display, s, l);
    var v := ObjectV(config);
    if !Reaches(c, DISPLAY_NAME) {
      assert MeetsNoItems(root, c, DISPLAY_NAME);
      assert RefusesField(root, v.fields[DISPLAY_NAME], DISPLAY_NAME, Some(c));
    } else {
      var n :| n in c.blockTypes && n in s &&
               !(if IsObjectProperty(c.blockTypes[n]) then CanDisplay(c.blockTypes[n].block, Fields(s[n]))
                 else Items(s[n]) == []);
      ValueRefused(root, c, n, s[n], l);
      KnowsItsBlocks(root, c, n);
      SuppliedValue(c, display, s, l, n);
      assert RefusesField(root, v.fields[n], n, Some(c));
    }
  }

  lemma SuppliedValue(c: Block, display: Bytes, s: Spec, l: Lookups, n: Bytes)
    requires SpecOk(c, s, l) && Shaped(c, s) && n in c.blockTypes && n in s
    ensures BlockOk(c.blockTypes[n], s[n], l) && BlockShaped(c.blockTypes[n], s[n])
    ensures n in Config(c, display, s, l) && Config(c, display, s, l)[n] == BlockValue(c.blockTypes[n], n, s[n], l)
  {
    assert n in StartFields(c, display);
    assert Config(c, display, s, l)[n] == Field(c, display, s, l, n);
  }

  lemma KnowsItsBlocks(root: Api.Schema, c: Block, n: Bytes)
    requires Knows(root, c) && n in c.blockTypes
    ensures Seek(c, n) == ABlock(c.blockTypes[n]) && !Unknown(root, n)
  {
    assert Meets(root, c, n);
  }

  lemma {:induction false} ValueRefused(root: Api.Schema, c: Block, n: Bytes, j: Json, l: Lookups)
    requires Knows(root, c) && n in c.blockTypes && SupportedBlock(c.blockTypes[n]) && WellNamed(c.blockTypes[n].block)
    requires BlockOk(c.blockTypes[n], j, l) && BlockShaped(c.blockTypes[n], j) && !Unknown(root, DISPLAY_NAME)
    requires if IsObjectProperty(c.blockTypes[n]) then !CanDisplay(c.blockTypes[n].block, Fields(j)) else Items(j) != []
    ensures Refuses(root, BlockValue(c.blockTypes[n], n, j, l), ABlock(c.blockTypes[n]))
    decreases c.blockTypes[n], 3
  {
    var nb := c.blockTypes[n];
    if IsObjectProperty(nb) {
      ConfigRefused(root, nb.block, n, j.fields, l);
      UnflattenedRefused(root, n, ObjectV(Config(nb.block, n, j.fields, l)), nb);
    } else {
      ItemRefused(root, nb.block, n, Fields(j.items[0]), l);
      ItemsRefused(root, nb, BlockValue(nb, n, j, l), ItemValues(nb.block, n, j.items, l));
    }
  }

  /** An item is mapped back without a block, and its display_name is the name of a property. */
  lemma ItemRefused(root: Api.Schema, b: Block, n: Bytes, s: Spec, l: Lookups)
    requires SpecOk(b, s, l) && Shaped(b, s) && !Unknown(root, DISPLAY_NAME)
    ensures RefusesObject(root, ObjectV(Config(b, n, s, l)), None)
  {
    var v := ObjectV(Config(b, n, s, l));
    assert DISPLAY_NAME in v.fields && RefusesField(root, v.fields[DISPLAY_NAME], DISPLAY_NAME, None);
  }

  lemma ItemsRefused(root: Api.Schema, nb: NestedBlock, v: Value, values: seq<Value>)
    requires !IsObjectProperty(nb) && values != [] && RefusesObject(root, values[0], None)
    requires (v.ListV? && v.items == values) || (v.SetV? && v.members == Members(values))
    ensures Refuses(root, v, ABlock(nb))
  {
    assert values[0] in Members(values);
  }

  /** A configuration can be shown if and only if its display_names can be mapped back. */
  lemma ConfigFitsIff(root: Api.Schema, c: Block, display: Bytes, s: Spec, l: Lookups)
    requires Knows(root, c) && Supported(c) && WellNamed(c) && SpecOk(c, s, l) && Shaped(c, s)
    ensures var v := ObjectV(Config(c, display, s, l));
            if DisplayOk(root, c, s) then FitsObject(root, v, c) else RefusesObject(root, v, Some(c))
  {
    if DisplayOk(root, c, s) {
      ConfigFits(root, c, display, s, l);
    } else {
      ConfigRefused(root, c, display, s, l);
    }
  }

  /** So a resource with a display_name of its own never shows a configuration that supplies a block. */
  lemma OwnDisplayNameRefuses(root: Api.Schema, c: Block, display: Bytes, s: Spec, l: Lookups, n: Bytes)
    requires Knows(root, c) && Supported(c) && WellNamed(c) && SpecOk(c, s, l) && Shaped(c, s)
    requires DISPLAY_NAME in c.attributes && n in c.blockTypes && n in s
    ensures RefusesObject(root, ObjectV(Config(c, display, s, l)), Some(c))
  {
    assert Meets(root, c, DISPLAY_NAME);
    if Reaches(c.blockTypes[n].block, DISPLAY_NAME) { ReachedIsDeclared(c.blockTypes[n].block, DISPLAY_NAME); }
    assert BlockShaped(c.blockTypes[n], s[n]);
    assert IsObjectProperty(c.blockTypes[n]) ==> !CanDisplay(c.blockTypes[n].block, Fields(s[n]));
    assert !CanDisplay(c, s);
    assert !Unknown(root, DISPLAY_NAME);
    ConfigRefused(root, c, display, s, l);
  }

  /** A map of blocks that is shown as an array is refused, supplied or not: every state has it. */
  lemma MapBlockRefused(root: Api.Schema, c: Block, n: Bytes, v: Value)
    requires Knows(root, c) && n in c.blockTypes && c.blockTypes[n].nesting == Map && !IsObjectProperty(c.blockTypes[n])
    requires v.ObjectV? && n in v.fields && HasType(v.fields[n], NestedType(c.blockTypes[n]))
    ensures RefusesObject(root, v, Some(c))
  {
    KnowsItsBlocks(root, c, n);
    assert RefusesField(root, v.fields[n], n, Some(c));
  }

  /** So no configuration of such a block tree is ever shown. */
  lemma MapBlockConfigRefused(root: Api.Schema, c: Block, n: Bytes, display: Bytes, s: Spec, l: Lookups)
    requires Knows(root, c) && n in c.blockTypes && c.blockTypes[n].nesting == Map && !IsObjectProperty(c.blockTypes[n])
    requires WellNamed(c) && SpecOk(c, s, l) && Shaped(c, s)
    ensures RefusesObject(root, ObjectV(Config(c, display, s, l)), Some(c))
  {
    var v := ObjectV(Config(c, display, s, l));
    assert v.fields[n] == Field(c, display, s, l, n);
    if n in s { SuppliedValue(c, display, s, l, n); }
    assert v.fields[n] == EmptyNested(c.blockTypes[n]);
    MapBlockRefused(root, c, n, v);
  }
}
