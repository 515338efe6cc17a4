/**
 Terraform block schemas, the type a block implies and its empty value (configschema), and the
 two tests create.go makes on a nested block.
 */
module BlockSchema {
  import opened GoStrings
  import opened Cty

  datatype Nesting = Single | Group | List | Set | Map

  datatype Attribute = Attribute(attrType: Type, required: bool, computed: bool, sensitive: bool)

  datatype Block = Block(attributes: map<Bytes, Attribute>, blockTypes: map<Bytes, NestedBlock>)

  datatype NestedBlock = NestedBlock(nesting: Nesting, minItems: int, maxItems: int, block: Block)

  /** isTerraformNestedBlockAOpenAPIObjectProperty */
  predicate IsObjectProperty(nb: NestedBlock) {
    nb.nesting == Group || nb.nesting == Single || (nb.maxItems == 1 && nb.minItems <= 1)
  }

  /** isTerraformBlockRequired */
  predicate IsRequired(nb: NestedBlock) {
    nb.minItems >= 1
  }

  /** So many of the block may be given; a MaxItems of 0 sets no bound. */
  predicate Allows(nb: NestedBlock, n: nat) {
    nb.minItems <= n && (nb.maxItems != 0 ==> n <= nb.maxItems)
  }

  /** A list, set or map of blocks is shown as an object exactly if at most one, and one, may be given. */
  lemma ShownAsObjectIff(nb: NestedBlock)
    requires nb.nesting == List || nb.nesting == Set || nb.nesting == Map
    ensures IsObjectProperty(nb) <==> Allows(nb, 1) && forall n: nat :: Allows(nb, n) ==> n <= 1
  {
    if nb.maxItems != 1 && Allows(nb, 1) {
      assert Allows(nb, if nb.maxItems == 0 then 2 else nb.maxItems);
    }
  }

  function Wrap(nesting: Nesting, t: Type): Type {
    match nesting
    case Single => t
    case Group => t
    case List => TList(t)
    case Set => TSet(t)
    case Map => TMap(t)
  }

  function ImpliedType(b: Block): Type {
    TObject(map k | k in b.attributes.Keys + b.blockTypes.Keys ::
      if k in b.blockTypes then Wrap(b.blockTypes[k].nesting, ImpliedType(b.blockTypes[k].block))
      else b.attributes[k].attrType)
  }

  function NestedType(nb: NestedBlock): Type {
    Wrap(nb.nesting, ImpliedType(nb.block))
  }

  function EmptyValue(b: Block): Value {
    ObjectV(EmptyFields(b))
  }

  function EmptyFields(b: Block): map<Bytes, Value> {
    map k | k in b.attributes.Keys + b.blockTypes.Keys ::
      if k in b.blockTypes then EmptyNested(b.blockTypes[k])
      else NullV(b.attributes[k].attrType)
  }

  function EmptyNested(nb: NestedBlock): Value {
    var t := ImpliedType(nb.block);
    match nb.nesting
    case Single => NullV(t)
    case Group => ObjectV(EmptyFields(nb.block))
    case List => ListV(t, [])
    case Set => SetV(t, {})
    case Map => MapV(t, map[])
  }

  lemma {:induction false} EmptyNestedType(nb: NestedBlock)
    ensures TypeOf(EmptyNested(nb)) == NestedType(nb)
  {
    if nb.nesting == Group {
      EmptyFieldTypes(nb.block);
    }
  }

  lemma {:induction false} EmptyFieldTypes(b: Block)
    ensures TypeOf(EmptyValue(b)) == ImpliedType(b)
  {
    forall k | k in b.blockTypes ensures TypeOf(EmptyFields(b)[k]) == NestedType(b.blockTypes[k]) {
      EmptyNestedType(b.blockTypes[k]);
    }
  }

  // ---------------------------------------------------------------- display_name

  const DISPLAY_NAME: Bytes := "display_name"

  /** createEmptyTerraformValueForBlock: every supplied block gets a display_name. */
  function StartFields(b: Block, name: Bytes): map<Bytes, Value> {
    EmptyFields(b)[DISPLAY_NAME := StringV(name)]
  }

  /**
   Names of attributes and of nested blocks do not clash (terraform demands it), and a
   display_name that the schema declares itself is a string attribute.
   */
  predicate WellNamed(b: Block) {
    && b.attributes.Keys !! b.blockTypes.Keys
    && DISPLAY_NAME !in b.blockTypes
    && (DISPLAY_NAME in b.attributes ==> b.attributes[DISPLAY_NAME].attrType == TString)
    && forall n :: n in b.blockTypes ==> WellNamed(b.blockTypes[n].block)
  }
}
