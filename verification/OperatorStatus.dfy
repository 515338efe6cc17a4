/**
 What the operator keeps of its own in the status of a custom resource, under "_tfoperator"
 (reconcile.go:29-38, 242-347): the recorded state, the provisioning state that references wait
 for, the last applied generation and the provider's metadata.  The protocol's steps on statuses
 (Slot.WithState, Slot.WithResult) are what these methods do to the JSON.
 */
module OperatorStatus {
  import opened GoStrings
  import opened Cty
  import opened BlockSchema
  import opened References
  import opened MergePatch
  import Api = OpenApi
  import StateCodec
  import PropertySearch
  import StatusMapping
  import StatusMethods
  import Slot

  // ---------------------------------------------------------------- unstructured.SetNestedField

  /** Sets what is at the end of a path, making the objects that are missing on the way. */
  function SetNested(fields: map<Bytes, Json>, path: seq<Bytes>, value: Json): Result<map<Bytes, Json>>
    requires path != []
    decreases |path|
  {
    if |path| == 1 then Ok(fields[path[0] := value])
    else if path[0] in fields && !fields[path[0]].JObject? then Err("value cannot be set")
    else
      match SetNested(if path[0] in fields then fields[path[0]].fields else map[], path[1..], value)
      case Err(e) => Err(e)
      case Ok(inner) => Ok(fields[path[0] := JObject(inner)])
  }

  /** Two paths that part before either of them ends. */
  predicate Part(p: seq<Bytes>, q: seq<Bytes>)
    decreases |p|
  {
    p != [] && q != [] && (p[0] != q[0] || Part(p[1..], q[1..]))
  }

  /** It can be set exactly if only objects are on the way, and then it is there. */
  lemma {:induction false} GetWhatIsSet(fields: map<Bytes, Json>, path: seq<Bytes>, value: Json)
    requires path != []
    ensures SetNested(fields, path, value).Ok? <==> Clear(JObject(fields), path)
    ensures var after := SetNested(fields, path, value);
            after.Ok? ==> Get(JObject(after.value), path) == Some(value)
    decreases |path|
  {
    if |path| > 1 {
      if path[0] !in fields {
        EmptyIsClear(path[1..]);
        GetWhatIsSet(map[], path[1..], value);
      } else if fields[path[0]].JObject? {
        GetWhatIsSet(fields[path[0]].fields, path[1..], value);
      }
    } else {
      assert path[1..] == [];
    }
  }

  lemma EmptyIsClear(path: seq<Bytes>)
    ensures Clear(JObject(map[]), path)
  {
  }

  /** What is elsewhere stays as it is. */
  lemma {:induction false} GetElsewhere(fields: map<Bytes, Json>, path: seq<Bytes>, value: Json, other: seq<Bytes>)
    requires path != [] && SetNested(fields, path, value).Ok? && Part(path, other)
    ensures Get(JObject(SetNested(fields, path, value).value), other) == Get(JObject(fields), other)
    decreases |path|
  {
    if |path| > 1 && path[0] == other[0] {
      var inner: map<Bytes, Json> := if path[0] in fields then fields[path[0]].fields else map[];
      GetElsewhere(inner, path[1..], value, other[1..]);
      assert path[0] !in fields ==> Get(JObject(inner), other[1..]).None?;
    }
  }

  // ---------------------------------------------------------------- the operator's own fields

  /** Where they are, there are objects, or nothing yet. */
  predicate Operable(content: map<Bytes, Json>) {
    "status" in content ==>
      content["status"].JObject? &&
      ("_tfoperator" in content["status"].fields ==> content["status"].fields["_tfoperator"].JObject?)
  }

  /** One field of the operator's own is written, and nothing else. */
  predicate Wrote(before: map<Bytes, Json>, after: map<Bytes, Json>, key: Bytes, value: Json) {
    && Operable(after) && OperatorFields(after) == OperatorFields(before)[key := value]
    && OthersKept(before, after)
  }

  /** Nothing outside the operator's own fields changes. */
  predicate OthersKept(before: map<Bytes, Json>, after: map<Bytes, Json>) {
    && after - {"status"} == before - {"status"}
    && StatusMethods.StatusFields(after) - {"_tfoperator"} == StatusMethods.StatusFields(before) - {"_tfoperator"}
  }

  function PathTo(key: Bytes): seq<Bytes> {
    ["status", "_tfoperator", key]
  }

  lemma SetIsWritten(content: map<Bytes, Json>, key: Bytes, value: Json)
    ensures SetNested(content, PathTo(key), value).Ok? <==> Operable(content)
    ensures Operable(content) ==> Wrote(content, SetNested(content, PathTo(key), value).value, key, value)
  {
    var path := PathTo(key);
    assert path[1..] == ["_tfoperator", key] && path[1..][1..] == [key];
    var status := StatusMethods.StatusFields(content);
    if Operable(content) {
      var own := OperatorFields(content)[key := value];
      assert SetNested(OperatorFields(content), [key], value) == Ok(own);
      assert SetNested(status, path[1..], value) == Ok(status["_tfoperator" := JObject(own)]);
    } else if content["status"].JObject? {
      assert SetNested(status, path[1..], value).Err?;
    }
  }

  /** Reading one of them: an error if it is there and not a string, or if an object is not one. */
  lemma ReadOwn(content: map<Bytes, Json>, key: Bytes)
    ensures var own, got := OperatorFields(content), NestedString(content, PathTo(key));
            && (got.Ok? && got.value.Some? <==> key in own && own[key].JString?)
            && (key in own && own[key].JString? ==> got == Ok(Some(own[key].text)))
            && (Operable(content) ==> (got.Err? <==> key in own && !own[key].JString?))
  {
    var path := PathTo(key);
    assert path[1..] == ["_tfoperator", key] && path[1..][1..] == [key];
    if "status" in content && content["status"].JObject? {
      var status := content["status"].fields;
      assert NestedString(content, path) == NestedString(status, path[1..]);
      if "_tfoperator" in status && status["_tfoperator"].JObject? {
        assert NestedString(status, path[1..]) == NestedString(status["_tfoperator"].fields, [key]);
      }
    }
  }

  method SetOwn(crd: StatusMethods.Unstructured, key: Bytes, text: Bytes) returns (error: Option<string>)
    modifies crd
    ensures error.None? <==> Operable(old(crd.content))
    ensures if error.None? then Wrote(old(crd.content), crd.content, key, JString(text))
            else crd.content == old(crd.content)
  {
    SetIsWritten(crd.content, key, JString(text));
    match SetNested(crd.content, PathTo(key), JString(text))
    case Err(e) => error := Some(e);
    case Ok(content) =>
      crd.content := content;
      error := None;
  }

  // ---------------------------------------------------------------- the recorded state

  /** getTerraformStateValue, up to unmarshalling: nothing recorded, or the decoded text. */
  function RecordedText(codec: StateCodec.Codec, content: map<Bytes, Json>): Result<Option<Bytes>> {
    match NestedString(content, PathTo("tfState"))
    case Err(e) => Err(e)
    case Ok(None) => Ok(None)
    case Ok(Some(text)) =>
      match StateCodec.DecodeAndDecrypt(codec, text)
      case Err(e) => Err(e)
      case Ok(plain) => Ok(Some(plain))
  }

  /** saveTerraformStateValue, up to the patch: what is recorded is what will be read. */
  method SetTerraformState(
    codec: StateCodec.Codec, iv: StateCodec.Vector, plain: Bytes, crd: StatusMethods.Unstructured)
    returns (error: Option<string>)
    modifies crd
    ensures error.None? <==> Operable(old(crd.content))
    ensures error.Some? ==> crd.content == old(crd.content)
    ensures error.None? ==>
              && RecordedText(codec, crd.content) == Ok(Some(plain))
              && Wrote(old(crd.content), crd.content, "tfState", JString(StateCodec.EncryptAndEncode(codec, iv, plain)))
  {
    error := SetOwn(crd, "tfState", StateCodec.EncryptAndEncode(codec, iv, plain));
    StateCodec.CodecRoundTrip(codec, iv, plain);
    ReadOwn(crd.content, "tfState");
  }

  // ---------------------------------------------------------------- the provider's metadata

  predicate TextOrMissing(own: map<Bytes, Json>, key: Bytes) {
    key in own ==> own[key].JString?
  }

  /** What a field is in the end: what it was, or this text if it was missing. */
  function Kept(own: map<Bytes, Json>, key: Bytes, text: Bytes): map<Bytes, Json> {
    if key in own then own else own[key := JString(text)]
  }

  /** Written once: a text that is there stays, whatever provider is loaded by now. */
  method EnsureTerraformProviderMetadataValue(crd: StatusMethods.Unstructured, key: Bytes, value: Bytes)
    returns (error: Option<string>)
    modifies crd
    ensures error.None? <==> Operable(old(crd.content)) && TextOrMissing(OperatorFields(old(crd.content)), key)
    ensures error.Some? ==> crd.content == old(crd.content)
    ensures error.None? ==>
              && Operable(crd.content) && OthersKept(old(crd.content), crd.content)
              && OperatorFields(crd.content) == Kept(OperatorFields(old(crd.content)), key, value)
  {
    ReadOwn(crd.content, key);
    match NestedString(crd.content, PathTo(key))
    case Err(e) => error := Some(e);
    case Ok(Some(_)) => error := None;
    case Ok(None) => error := SetOwn(crd, key, value);
  }

  predicate MetadataTextOrMissing(own: map<Bytes, Json>) {
    TextOrMissing(own, "providerName") && TextOrMissing(own, "providerVersion") &&
    TextOrMissing(own, "providerChecksumSHA256")
  }

  function MetadataKept(own: map<Bytes, Json>, m: Slot.Metadata): map<Bytes, Json> {
    Kept(Kept(Kept(own, "providerName", m.name), "providerVersion", m.version), "providerChecksumSHA256", m.checksum)
  }

  method EnsureTerraformProviderMetadata(crd: StatusMethods.Unstructured, m: Slot.Metadata)
    returns (error: Option<string>)
    modifies crd
    ensures error.None? <==> Operable(old(crd.content)) && MetadataTextOrMissing(OperatorFields(old(crd.content)))
    ensures error.None? ==>
              && Operable(crd.content) && OthersKept(old(crd.content), crd.content)
              && OperatorFields(crd.content) == MetadataKept(OperatorFields(old(crd.content)), m)
  {
    error := EnsureTerraformProviderMetadataValue(crd, "providerName", m.name);
    if error.Some? { return; }
    error := EnsureTerraformProviderMetadataValue(crd, "providerVersion", m.version);
    if error.Some? { return; }
    error := EnsureTerraformProviderMetadataValue(crd, "providerChecksumSHA256", m.checksum);
  }

  // ---------------------------------------------------------------- generation and provisioning state

  /** strconv.FormatInt, of a generation. */
  function Decimal(n: nat): Bytes {
    if n < 10 then [ByteOf('0' as int + n)] else Decimal(n / 10) + [ByteOf('0' as int + n % 10)]
  }

  predicate IsDigit(c: Byte) {
    '0' <= c <= '9'
  }

  function Number(digits: Bytes): int {
    if digits == [] then 0
    else Number(digits[..|digits| - 1]) * 10 + (digits[|digits| - 1] as int - '0' as int)
  }

  /** The digits of the number, with no zero in front; so different generations differ in text. */
  lemma {:induction false} DecimalIsNumber(n: nat)
    ensures Number(Decimal(n)) == n && (forall i :: 0 <= i < |Decimal(n)| ==> IsDigit(Decimal(n)[i]))
    ensures Decimal(n) != [] && (Decimal(n)[0] == '0' <==> n == 0)
  {
    if n < 10 {
      assert Decimal(n)[..0] == [];
      assert Number([]) == 0;
    } else {
      DecimalIsNumber(n / 10);
      assert Decimal(n)[..|Decimal(n)| - 1] == Decimal(n / 10);
    }
  }

  method SetLastAppliedGeneration(crd: StatusMethods.Unstructured, generation: nat) returns (error: Option<string>)
    modifies crd
    ensures error.None? <==> Operable(old(crd.content))
    ensures if error.None?
            then Wrote(old(crd.content), crd.content, "lastAppliedGeneration", JString(Decimal(generation)))
            else crd.content == old(crd.content)
  {
    error := SetOwn(crd, "lastAppliedGeneration", Decimal(generation));
  }

  /** What is written is what references read: the resource is "Created" exactly if that was written. */
  method SetProvisioningState(crd: StatusMethods.Unstructured, state: Bytes) returns (error: Option<string>)
    modifies crd
    ensures error.None? <==> Operable(old(crd.content))
    ensures if error.None? then Wrote(old(crd.content), crd.content, "provisioningState", JString(state))
            else crd.content == old(crd.content)
    ensures error.None? ==>
              (ProvisioningState(crd.content) == Ok(Some(state))) && (IsCreated(crd.content) <==> state == "Created")
  {
    error := SetOwn(crd, "provisioningState", state);
    ReadOwn(crd.content, "provisioningState");
  }

  /** The operator's own fields after a reconcile, but for the recorded state. */
  function Recorded(own: map<Bytes, Json>, generation: nat, m: Slot.Metadata): map<Bytes, Json> {
    MetadataKept(own["lastAppliedGeneration" := JString(Decimal(generation))], m)
      ["provisioningState" := JString("Created")]
  }

  method RecordOwn(generation: nat, m: Slot.Metadata, crd: StatusMethods.Unstructured) returns (error: Option<string>)
    modifies crd
    ensures error.None? <==> Operable(old(crd.content)) && MetadataTextOrMissing(OperatorFields(old(crd.content)))
    ensures error.None? ==>
              && Operable(crd.content) && OthersKept(old(crd.content), crd.content)
              && OperatorFields(crd.content) == Recorded(OperatorFields(old(crd.content)), generation, m)
  {
    error := SetLastAppliedGeneration(crd, generation);
    if error.Some? { return; }
    error := EnsureTerraformProviderMetadata(crd, m);
    if error.Some? { return; }
    error := SetProvisioningState(crd, "Created");
  }

  // ---------------------------------------------------------------- the status of the protocol

  predicate FieldIs(own: map<Bytes, Json>, key: Bytes, text: Option<string>) {
    match text
    case None => key !in own
    case Some(t) => key in own && own[key].JString? && own[key].text == t
  }

  /** The operator's own fields say what the status of the protocol says. */
  predicate Says(content: map<Bytes, Json>, status: Slot.Status) {
    var own, m := OperatorFields(content), status.provider;
    && Operable(content)
    && FieldIs(own, "tfState", status.tfState)
    && FieldIs(own, "provisioningState", status.provisioningState)
    && FieldIs(own, "lastAppliedGeneration",
         if status.lastApplied.Some? then Some(Decimal(status.lastApplied.value)) else None)
    && FieldIs(own, "providerName", if m.Some? then Some(m.value.name) else None)
    && FieldIs(own, "providerVersion", if m.Some? then Some(m.value.version) else None)
    && FieldIs(own, "providerChecksumSHA256", if m.Some? then Some(m.value.checksum) else None)
  }

  /** What is read as the recorded state is what the protocol takes it to be. */
  lemma RecordedIsRead(env: Slot.Env, status: Slot.Status, content: map<Bytes, Json>, t: Slot.TfState)
    requires Says(content, status)
    ensures Slot.Recorded(env, status) == Ok(t) <==>
            match RecordedText(env.codec, content)
            case Err(_) => false
            case Ok(None) => t == Slot.Empty
            case Ok(Some(plain)) => env.unmarshal(plain) == Some(t)
  {
    ReadOwn(content, "tfState");
  }

  /** Recording a state does to the status what the protocol takes it to do. */
  lemma StateSaid(
    env: Slot.Env, iv: StateCodec.Vector, o: Slot.Object, t: Slot.TfState, before: map<Bytes, Json>,
    after: map<Bytes, Json>)
    requires Says(before, o.status)
    requires Wrote(before, after, "tfState", JString(StateCodec.EncryptAndEncode(env.codec, iv, env.marshal(t))))
    ensures Says(after, Slot.WithState(env, iv, o, t).status)
  {
  }

  /** So does recording a result. */
  lemma ResultSaid(
    env: Slot.Env, o: Slot.Object, t: Slot.TfState, before: map<Bytes, Json>, after: map<Bytes, Json>)
    requires Says(before, o.status)
    requires Operable(after) && OperatorFields(after) == Recorded(OperatorFields(before), o.generation, env.metadata)
    ensures Says(after, Slot.WithResult(env, o, t).status)
  {
  }

  // ---------------------------------------------------------------- what a reconcile records at its end

  /** Beside the operator's own fields, the status shows the state. */
  ghost predicate ShowsBeside(
    codec: StateCodec.Codec, b: Block, fields: map<Bytes, Value>, before: map<Bytes, Json>, after: map<Bytes, Json>)
  {
    StatusMethods.StatusUpdated(codec, fields, b, StatusMethods.StatusFields(before) - {"_tfoperator"},
      StatusMethods.StatusFields(after) - {"_tfoperator"}, fields.Keys)
  }

  lemma OwnSurvives(
    codec: StateCodec.Codec, b: Block, fields: map<Bytes, Value>, before: map<Bytes, Json>, after: map<Bytes, Json>)
    requires "_tfoperator" !in fields && "status" in after && after["status"].JObject?
    requires StatusMethods.StatusUpdated(codec, fields, b, StatusMethods.StatusFields(before),
               StatusMethods.StatusFields(after), fields.Keys)
    ensures OperatorFields(after) == OperatorFields(before) && ShowsBeside(codec, b, fields, before, after)
  {
  }

  /**
   The last steps of a reconcile before the status is saved.  The values of a block that has no
   _tfoperator of its own leave the operator's fields alone, so the resource is "Created".
   */
  method RecordResult(
    r: StatusMethods.Reconciler, b: Block, state: Value, generation: nat, m: Slot.Metadata,
    crd: StatusMethods.Unstructured)
    returns (error: Option<string>)
    requires PropertySearch.Knows(r.openAPISchema, b) && StatusMapping.FitsObject(r.openAPISchema, state, b)
    requires "_tfoperator" !in state.fields
    modifies crd
    ensures error.None? <==> Operable(old(crd.content)) && MetadataTextOrMissing(OperatorFields(old(crd.content)))
    ensures error.None? ==>
              && IsCreated(crd.content) && crd.content - {"status"} == old(crd.content) - {"status"}
              && OperatorFields(crd.content) == Recorded(OperatorFields(old(crd.content)), generation, m)
              && ShowsBeside(r.codec, b, state.fields, old(crd.content), crd.content)
  {
    error := RecordOwn(generation, m, crd);
    if error.Some? { return; }
    ghost var before := crd.content;
    error := StatusMethods.MapTerraformValuesToCRDStatus(r, b, state, crd);
    OwnSurvives(r.codec, b, state.fields, before, crd.content);
  }

  /** A resource whose status the API server admits can be recorded, whatever else is in it. */
  lemma AdmittedCanBeRecorded(complete: bool, name: Bytes, b: Block, content: map<Bytes, Json>)
    requires Api.BlockTypesOk(b) && Api.BlockFollowable(b)
    requires "status" in content ==> Api.Validates(complete, Api.RootSchema(name, b).status, content["status"])
    ensures Operable(content) && MetadataTextOrMissing(OperatorFields(content))
    ensures TextOrMissing(OperatorFields(content), "tfState")
    ensures TextOrMissing(OperatorFields(content), "provisioningState")
    ensures TextOrMissing(OperatorFields(content), "lastAppliedGeneration")
  {
    var schema := Api.RootSchema(name, b).status;
    assert schema.properties["_tfoperator"] == Api.OPERATOR_SCHEMA;
    if "status" in content && "_tfoperator" in content["status"].fields {
      assert Api.Validates(complete, Api.OPERATOR_SCHEMA, content["status"].fields["_tfoperator"]);
    }
  }

  // ---------------------------------------------------------------- what references read of it

  /** A reference to a resource that was recorded so resolves to the text of its property. */
  lemma RecordedResolves(
    store: Store, key: ObjectKey, content: map<Bytes, Json>, property: Bytes, value: Bytes)
    requires key in store && store[key] == Found(content) && IsCreated(content) && Writable(key, property)
    ensures Resolve(store, Written("", key, property, "")) == Text(value) <==> HoldsText(content, property, value)
  {
    WrittenResolves(store, "", key, property, "", value);
  }

  /** The state is at its path. */
  lemma CreatedIsThere(resource: map<Bytes, Json>)
    ensures IsCreated(resource) <==>
            Get(JObject(resource), PathTo("provisioningState")) == Some(JString("Created"))
  {
    CreatedIff(resource);
    NestedStringIff(resource, PathTo("provisioningState"), "Created");
  }

  /**
   And so it is after the patch of the status: merged into whatever is stored by then, the stored
   object is "Created", if it is not that the object in memory was so before and the stored one not.
   */
  lemma PatchedIsCreated(s: map<Bytes, Json>, a: map<Bytes, Json>, b: map<Bytes, Json>)
    requires Operable(s) && Operable(a) && IsCreated(b)
    requires IsCreated(a) ==> IsCreated(s)
    ensures var stored := Merge(JObject(s), JObject(Diff(a, JObject(b)))); stored.JObject? && IsCreated(stored.fields)
  {
    var path := PathTo("provisioningState");
    CreatedIsThere(a);
    CreatedIsThere(b);
    CreatedIsThere(s);
    OperableIsClear(s, "provisioningState");
    OperableIsClear(a, "provisioningState");
    CreatedReaches(b);
    PatchOnWhatIsStored(JObject(s), a, JObject(b), path);
    CreatedIsThere(Merge(JObject(s), JObject(Diff(a, JObject(b)))).fields);
  }

  lemma OperableIsClear(content: map<Bytes, Json>, key: Bytes)
    ensures Operable(content) <==> Clear(JObject(content), PathTo(key))
  {
    SetIsWritten(content, key, JNull);
    GetWhatIsSet(content, PathTo(key), JNull);
  }

  lemma CreatedReaches(b: map<Bytes, Json>)
    requires IsCreated(b)
    ensures Reaches(JObject(b), PathTo("provisioningState"))
  {
    var path := PathTo("provisioningState");
    assert path[1..] == ["_tfoperator", "provisioningState"] && path[1..][1..] == ["provisioningState"];
    assert Reaches(b["status"].fields["_tfoperator"], path[1..][1..]);
    assert Reaches(b["status"], path[1..]);
  }
}
