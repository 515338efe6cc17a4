/**
 From a spec to the status it ends in: mapped to a configuration, given to a provider, and what the
 provider returns mapped back with the resource's own schema (reconcile.go:107-178).
 */
module EndToEnd {
  import opened GoStrings
  import opened Cty
  import opened BlockSchema
  import opened References
  import opened SpecMapping
  import opened SpecMethods
  import opened PropertySearch
  import opened StateCodec
  import opened StatusTyping
  import opened RoundTrip
  import StatusMethods

  datatype Outcome = Synced | Unmapped(result: MapResult) | Unshown(error: string)

  /** A provider returns states of the implied type, with no null blocks, that keep what was configured. */
  ghost predicate Faithful(provider: Value -> Value, b: Block, s: Spec, l: Lookups) {
    SpecOk(b, s, l) && Shaped(b, s) ==>
      var v := provider(ObjectV(Config(b, TOP, s, l)));
      v.ObjectV? && HasType(v, ImpliedType(b)) && NotNull(v, b) && Echoes(v, b, s, l)
  }

  /**
   With a faithful provider, a spec ends in a status that has what the spec has, or in a failure of
   the mapping that the spec and the store account for; nothing fails on the way back.
   */
  method SpecToStatus(
    name: Bytes, b: Block, codec: Codec, s: Spec, store: Store, provider: Value -> Value,
    crd: StatusMethods.Unstructured) returns (outcome: Outcome)
    requires Mappable(b) && Supported(b) && WellNamed(b) && Shaped(b, s)
    requires StatusMethods.MayHaveStatus(crd.content) && Faithful(provider, b, s, Against(store))
    modifies crd
    ensures outcome.Synced? <==> SpecOk(b, s, Against(store))
    ensures outcome.Synced? ==>
              && "status" in crd.content && Returns(codec, b, s, Against(store), crd.content["status"])
              && crd.content == old(crd.content)["status" := crd.content["status"]]
    ensures !outcome.Synced? ==>
              outcome.Unmapped? && Maps(b, TOP, s, store, outcome.result) && crd.content == old(crd.content)
  {
    var mapped := MapCRDSpecValuesToTerraformConfig(b, ObjectV(StartFields(b, TOP)), s, store, TOP);
    SpecOkOrFails(b, s, Against(store));
    if mapped.value.None? { return Unmapped(mapped); }
    var newState := provider(mapped.value.value);
    KnowsAlong(name, b, []);
    TypedFits(RootOf(name, b), b, newState);
    var error := ShowEcho(name, b, codec, s, Against(store), newState, crd);
    outcome := Synced;
  }

  /**
   With a provider that returns the configuration itself, the status is written exactly if the
   display_names that were added can be mapped back.
   */
  method ConfigToStatus(
    name: Bytes, b: Block, codec: Codec, s: Spec, store: Store, crd: StatusMethods.Unstructured)
    returns (outcome: Outcome)
    requires Mappable(b) && Supported(b) && WellNamed(b) && Shaped(b, s)
    requires StatusMethods.MayHaveStatus(crd.content)
    modifies crd
    ensures outcome.Synced? <==> SpecOk(b, s, Against(store)) && DisplayOk(RootOf(name, b), b, s)
    ensures outcome.Synced? ==> "status" in crd.content && Returns(codec, b, s, Against(store), crd.content["status"])
    ensures !outcome.Synced? ==> crd.content == old(crd.content)
  {
    var mapped := MapCRDSpecValuesToTerraformConfig(b, ObjectV(StartFields(b, TOP)), s, store, TOP);
    SpecOkOrFails(b, s, Against(store));
    if mapped.value.None? { return Unmapped(mapped); }
    KnowsAlong(name, b, []);
    ConfigEchoes(b, TOP, s, Against(store));
    ConfigFitsIff(RootOf(name, b), b, TOP, s, Against(store));
    var error := ShowEcho(name, b, codec, s, Against(store), mapped.value.value, crd);
    outcome := if error.None? then Synced else Unshown(error.value);
  }
}
