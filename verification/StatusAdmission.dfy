/**
 What the API server says of a status: its schema has required names, so it admits a status
 exactly if nothing required is missing.  A status that only records a state has none of them.
 */
module StatusAdmission {
  import opened GoStrings
  import opened Cty
  import opened BlockSchema
  import opened PropertySearch
  import opened StateCodec
  import opened StatusMapping
  import opened StatusTyping
  import Api = OpenApi

  // ---------------------------------------------------------------- the save of a state

  const TF_STATE: Bytes := "tfState"

  /** The status after the first save of a state: what the operator keeps, and nothing else. */
  function StateOnly(text: Bytes): Json {
    JObject(map[Api.TFOPERATOR := JObject(map[TF_STATE := JString(text)])])
  }

  lemma OperatorAdmitted(text: Bytes)
    ensures Api.Validates(true, Api.OPERATOR_SCHEMA, JObject(map[TF_STATE := JString(text)]))
  {
    assert TF_STATE in Api.OPERATOR_NAMES;
    assert Api.OPERATOR_SCHEMA.properties[TF_STATE] == Api.Primitive(Api.STRING, "");
  }

  /** The first save of a state is admitted if and only if the status requires nothing at all. */
  lemma FirstStateSaveIff(name: Bytes, b: Block, text: Bytes)
    requires Api.BlockTypesOk(b) && Api.BlockFollowable(b)
    ensures Api.Validates(true, Api.RootSchema(name, b).status, StateOnly(text)) <==>
            Api.BlockSchemaOn(b, Api.Status).required <= {Api.TFOPERATOR}
  {
    OperatorAdmitted(text);
    var status := Api.RootSchema(name, b).status;
    assert StateOnly(text).fields.Keys == {Api.TFOPERATOR};
  }

  /** So with a required block it never is, whatever the state. */
  lemma RequiredBlockRefusesStates(name: Bytes, b: Block, n: Bytes, text: Bytes)
    requires Mappable(b) && n in b.blockTypes && b.blockTypes[n].minItems >= 1
    ensures Api.BlockTypesOk(b) && Api.BlockFollowable(b)
    ensures !Api.Validates(true, Api.RootSchema(name, b).status, StateOnly(text))
  {
    PlainIsDescribed(b);
    FirstStateSaveIff(name, b, text);
    assert Declares(b, n);
    assert n in Api.RequiredBlocks(b, b.blockTypes.Keys);
  }

  // ---------------------------------------------------------------- the status of a mapped value

  /** With what the operator keeps beside it, a mapped value is admitted exactly if it is filled. */
  lemma StoredStatusIff(
    name: Bytes, root: Api.Schema, codec: Codec, v: Value, b: Block, part: map<Bytes, Json>, operator: Json)
    requires Mappable(b) && FitsObject(root, v, b) && OneEntry(v, b) && ShowsObject(codec, v, b, JObject(part))
    requires Api.Validates(true, Api.OPERATOR_SCHEMA, operator)
    ensures Api.BlockTypesOk(b) && Api.BlockFollowable(b)
    ensures Api.Validates(true, Api.RootSchema(name, b).status, JObject(part[Api.TFOPERATOR := operator])) <==>
            Filled(v, b, Api.Status)
  {
    ObjectConforms(root, codec, v, b, JObject(part), Api.Status, true);
    var s, t := Api.BlockSchemaOn(b, Api.Status), Api.RootSchema(name, b).status;
    var all := part[Api.TFOPERATOR := operator];
    NotDeclared(b, Api.TFOPERATOR);
    OperatorBeside(s, part, operator);
  }

  lemma NotDeclared(b: Block, k: Bytes)
    requires Mappable(b) && Reserved(k)
    ensures Api.BlockTypesOk(b) && Api.BlockFollowable(b) && !Reaches(b, k)
    ensures k !in Api.BlockSchemaOn(b, Api.Status).properties && k !in Api.BlockSchemaOn(b, Api.Status).required
  {
    PlainIsDescribed(b);
    if Reaches(b, k) { ReachedIsDeclared(b, k); }
    Api.PartitionedHere(b, Api.Status, k);
  }

  lemma OperatorBeside(s: Api.Schema, part: map<Bytes, Json>, operator: Json)
    requires s.kind == Api.OBJECT && s.additional.None? && Api.TFOPERATOR !in part && Api.TFOPERATOR !in s.required
    requires Api.Validates(true, Api.OPERATOR_SCHEMA, operator)
    ensures Api.Validates(true, s.(properties := s.properties[Api.TFOPERATOR := Api.OPERATOR_SCHEMA]),
                          JObject(part[Api.TFOPERATOR := operator])) <==>
            Api.Validates(true, s, JObject(part))
  {
    var t := s.(properties := s.properties[Api.TFOPERATOR := Api.OPERATOR_SCHEMA]);
    var all := part[Api.TFOPERATOR := operator];
    assert s.required <= all.Keys <==> s.required <= part.Keys;
    assert forall k :: k in part ==>
             all[k] == part[k] && (k in t.properties <==> k in s.properties || k == Api.TFOPERATOR);
  }

  // ---------------------------------------------------------------- an ordinary state that is refused

  /** Some block, nested once at least, and once at most, in one that is optional. */
  function Optional(inner: Block): Block {
    Block(map["id" := Attribute(TString, false, true, false)],
          map["outer" := NestedBlock(List, 0, 1, Block(map[], map["inner" := NestedBlock(List, 1, 1, inner)]))])
  }

  /** A state in which the optional block is absent. */
  function Absent(inner: Block, id: Bytes): Value {
    ObjectV(map["id" := StringV(id),
                "outer" := ListV(ImpliedType(Optional(inner).blockTypes["outer"].block), [])])
  }

  lemma AbsentHasType(inner: Block, id: Bytes)
    ensures HasType(Absent(inner, id), ImpliedType(Optional(inner))) && NotNull(Absent(inner, id), Optional(inner))
    ensures OneEntry(Absent(inner, id), Optional(inner))
  {
  }

  lemma AbsentIsNotFilled(inner: Block, id: Bytes)
    requires PlainTypes(Optional(inner))
    ensures !Filled(Absent(inner, id), Optional(inner), Api.Status)
  {
    var b, v := Optional(inner), Absent(inner, id);
    var nb := b.blockTypes["outer"];
    PlainIsDescribed(nb.block);
    assert "inner" in Api.RequiredBlocks(nb.block, nb.block.blockTypes.Keys);
    assert !BlockFilled(v.fields["outer"], nb, Api.Status);
  }

  /** The state is of the implied type and can be shown, but what is shown is not admitted. */
  lemma AbsentIsRefused(name: Bytes, codec: Codec, inner: Block, id: Bytes, j: Json)
    requires Mappable(Optional(inner)) && Supported(Optional(inner))
    ensures FitsObject(RootOf(name, Optional(inner)), Absent(inner, id), Optional(inner))
    ensures Api.BlockTypesOk(Optional(inner)) && Api.BlockFollowable(Optional(inner))
    ensures ShowsObject(codec, Absent(inner, id), Optional(inner), j) ==>
              !Api.Validates(true, Api.BlockSchemaOn(Optional(inner), Api.Status), j)
  {
    var b, v := Optional(inner), Absent(inner, id);
    PlainIsDescribed(b);
    AbsentHasType(inner, id);
    KnowsAlong(name, b, []);
    TypedFits(RootOf(name, b), b, v);
    if ShowsObject(codec, v, b, j) {
      ObjectConforms(RootOf(name, b), codec, v, b, j, Api.Status, true);
      AbsentIsNotFilled(inner, id);
    }
  }
}
