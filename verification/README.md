# Terraform operator bridge: a verified model

The bridge turns every resource of a Terraform provider into a Kubernetes custom resource and
keeps a cloud resource for each object that a user creates. This project models its three hard
parts and proves what they guarantee. `dafny verify dfyconfig.toml` checks everything.

**The reconcile protocol** (`Slot`, `SlotInvariant`, `SlotLosses`, `SlotLog`, `SlotStates`, `World`, `Runs`,
`RunGenerations`, `OtherFinalizers`, `ClosedSets`, `Convergence`, `OrderlyRounds`, `Orphans`, `Controller`,
`MergePatch`, `OperatorStatus`). Many objects, one API server, one cloud, one controller. A reconcile is broken into its atomic steps: read, ensure the finalizer,
look up references, plan and apply, save the state, save the status or remove the finalizer. Users
create, edit and delete between any two steps; any patch may fail, or succeed without its reply
being seen; the controller may stop anywhere; the provider may fail, fail half-way, change a
resource in place, replace it or destroy it. A run is any legal sequence of these events, and the
main theorems hold of all runs. `Controller.Bridge` is the controller as a program, and each of its
calls extends a legal run, so the theorems hold of what it does. `MergePatch` proves that the
patches the source sends do to each field what the protocol says they do, and `OperatorStatus` that the
JSON written under `status._tfoperator` is what the protocol's statuses say and what references read.

What the protocol assumes: one reconcile in flight per object, with a fresh first read; an object
disappears only when it is marked deleting and has no finalizers; only the bridge writes its own
finalizer and `status`; a patch reply refreshes the object in memory; generations grow with edits
and deletions; an apply with a null configuration destroys what the prior state names; state
serialisation is inverted by deserialisation.

**The schema and value translator.** `OpenApi` and `OpenApiMethods` generate the OpenAPI schemas of
a block; `References`, `AttributeMapping`, `AttributeMethods`, `SpecMapping`, `SpecMethods`,
`SpecTypes`, `SpecReferences`, `SpecAdmission` and `Webhook` take a spec to a configuration;
`ConfigMeaning` says of any value, place by place, what makes it the configuration of a spec;
`SpecInWorld` ties the references in a spec to what the protocol can find;
`PropertySearch`, `StatusMapping`, `StatusMethods`, `StatusTyping` and `RoundTrip` take a Terraform
value back to a status; `StatusReading` reads attributes back from it; `StatusAdmission` says what the API server admits of it, and `EndToEnd` goes all
the way from a spec to a status; `Naming` covers kinds, resource names and the list of installed kinds. Where the
source loops over a Go map or a cty set, the method picks the next element arbitrarily, so what is
proved holds for every iteration order. The functions beside the methods say, without any order,
when a mapping succeeds, what it yields and which failures it may report.

**The state codec** (`Cipher`, `Base64`, `StateCodec`). Padding as in section 6.3 of RFC 5652, CFB mode
with full-block segments as in section 6.3 of NIST SP 800-38A, base64 as in section 4 of RFC 4648.
The AES block function is any function from blocks to blocks, the vector any block.

## What the model brought to light

- A failed state save is retried. The comment at reconcile.go:152 says that the result is returned
  "to avoid repeated retries", but controller.go:70-73 looks at the error first. The retry plans
  against the old recorded state, and a deletion afterwards leaves the resource behind:
  `Orphans.OrphanAfterFailedSave` gives the run, and `Runs.OrphanSafety` says exactly which events can
  cost a resource its object.
- The generated status schema has required names (create.go:145-148), and a status is admitted exactly
  if nothing required is missing (`StatusMapping.ObjectConforms`). The first save of a state writes a
  status with nothing in it but `_tfoperator`, so for a resource with a required block every such save
  is refused (`StatusAdmission.RequiredBlockRefusesStates`), and while saves are refused each resource
  that is made is lost (`Runs.RefusedSavesLose`). A state in
  which an optional block is absent is refused as well, if something is required inside that block
  (`StatusAdmission.AbsentIsRefused`).
- The requeue every 15 minutes that is meant to detect drift (controller.go:78-80, and aim 4 of the
  repository's README) is never reached: the reconciler always returns a result or an error.
- Maps of strings, and the items of blocks shown as arrays, arrive in the configuration but not in the
  status: the walk over properties never enters `Items`, and list items and map entries are mapped
  back without a block. The status shows an empty object for a map, and as many empty objects as there
  are items, unless a key is the name of some property of the resource: then the lookup in the block
  that is not there panics (`StatusMethods.GetCRDValueFromTerraformValue`).
- Blocks of nesting mode map that are shown as arrays are dropped from the configuration, and make the
  mapping back fail for every state, supplied or not (`StatusTyping.MapBlockRefused`).
- Every supplied block is given a display_name. If a block declares that name, a provider that returns
  the configuration as it is gets no status, unless the declaring block lies below every supplied block
  (`StatusTyping.ConfigFitsIff`).
- The two checks that skip null and empty attribute values (reconcile.go:382-392) are never taken:
  what is mapped is never null, and an empty collection panics before it gets there.
- An object that references itself, or a set of objects that always reference one another, is never
  applied.
- The finalizers are patched as a whole list, without a check of the resource version. A finalizer that
  another controller sets between the read and the patch is overwritten
  (`OtherFinalizers.OtherIsOverwritten`); the others are kept exactly if they are still those of the last
  read (`OtherFinalizers.OthersKeptIff`).
- An object that is marked deleting before the bridge has put its finalizer on it ends every reconcile
  with an error (reconcile.go:228-231), until others have removed theirs.
- Kinds are paired with schemas by index, and every kind gets its own schema exactly when no failed
  creation comes before a kind that is installed.

## Model

| member | source | states |
|---|---|---|
| `Runs.OrphanSafety` | reconcile.go:89-182 | in every run, a live resource belongs to a stored object of the same incarnation that holds the finalizer and accounts for it if and only if no event of the run lost that resource |
| `Runs.LostIff` | reconcile.go:144-153 | a resource is lost exactly when some event lost it: a half-done apply that made it, or a crash or a rejected state save while the new state named it and the recorded state in memory did not |
| `SlotLosses.LossesOfStep` | reconcile.go:928-953 | every step loses exactly these resources, and none that was lost comes back |
| `SlotLosses.UnnamedStep` | reconcile.go:242-293 | every step keeps that no recorded state and no state in memory names a lost resource |
| `Runs.LosesItsOwn` | reconcile.go:144-153 | the event that loses a resource is one of the reconcile of the object that it was made for |
| `Runs.RefusedSavesLose` | reconcile.go:148-153 | when every save of a state under a name is refused from an apply on, the resource that the apply makes is lost, unless its reconcile is still on its way to the save |
| `Orphans.OrphanAfterFailedSave` | reconcile.go:148-153 | for every configuration and spec without references there is a run whose one fault is a rejected state save and that ends with a live resource and no object |
| `Orphans.RunsInWorld` | controller.go:45-81 | steps possible under one name alone are possible in the cluster, with the same effect |
| `Runs.StateAgreement` | reconcile.go:242-293 | in every run, outside the apply-to-save window, decoding the stored text gives the state of the last successful apply if and only if no crash or rejected save has dropped that state while another one was recorded; without an apply it is empty or null |
| `SlotStates.StandsStep` | reconcile.go:148-153 | every step keeps that the recorded state differs from the last returned one exactly from such a drop until the next successful apply |
| `Runs.PriorState` | reconcile.go:139-147 | the prior state of every plan, with or without the finalizer, is the last state the provider returned for the object if and only if that was not dropped so; it is what the store records for the object while it is stored, and with the finalizer it is stored |
| `Runs.NoLostEdits` | reconcile.go:196-240 | in every run the stored spec is the user's last write |
| `Runs.ReferencesFirst` | reconcile.go:574-654 | the first apply of an object comes strictly after the first "Created" save of every object it used, which comes after that object's own first apply |
| `Runs.AllReferencesUsed` | reconcile.go:120-136 | every reference of the first applied spec was used, from the object it names |
| `Runs.NoReferenceCycle` | reconcile.go:574-654 | references used at first applies never form a cycle, over incarnations of objects |
| `ClosedSets.ClosedSetIsNeverApplied` | reconcile.go:132-136 | while every object stored under a set of names references a name of the set, nothing under these names is applied or exists in the cloud, in any run |
| `ClosedSets.BlockedNext` | reconcile.go:574-654 | every event of the cluster keeps such a set unapplied |
| `Convergence.Convergence` | reconcile.go:89-182 | with acyclic references to strings of specs, or to status strings that every state reports, and no faults, after d+1 rounds every object of reference depth at most d is "Created" |
| `OrderlyRounds.CanConverge` | reconcile.go:89-182 | from every run without a reconcile in flight, such objects can be brought to "Created" up to any depth |
| `OrderlyRounds.RoundExists` | controller.go:45-81 | from every run without a reconcile in flight or an object being deleted, a round without faults can be run |
| `OrderlyRounds.Reconciles` | reconcile.go:89-182 | a reconcile of a stored object can be run from start to end without a fault, leaving all other names alone |
| `Convergence.RoundCreates` | reconcile.go:165-182 | one round of reconciling every object brings the next layer to "Created" and keeps the layers |
| `Convergence.StretchCreates` | reconcile.go:89-182 | without faults, an object whose references are ready is "Created" by the end of its reconcile |
| `RunGenerations.ForwardOverRun` | reconcile.go:295-329 | between any two points of a run, on one incarnation, lastAppliedGeneration never decreases nor exceeds the generation, and provider name, version and checksum stay as first written |
| `RunGenerations.RecordedGeneration` | reconcile.go:155-176 | the recorded generation is that of the applied spec if and only if no edit or deletion fell between the read of the spec and the reply to the state save, and otherwise later by their number |
| `RunGenerations.CountedAfter` | reconcile.go:322-329 | in every run, the generation in memory is that of the spec in use plus the edits and deletions since its read |
| `World.InvAfter` | reconcile.go:89-182 | the invariant of all slots, what is found being "Created", and the order of dependencies hold after every run |
| `SlotLog.LogInvStep` | reconcile.go:89-182 | every step of users, provider and controller, with any fate of its patch, keeps the invariant of a name and its log |
| `SlotLog.SlotInvStep` | reconcile.go:89-182 | every step keeps the finalizer in memory equal to the stored one, the recorded state readable, and every live resource accounted for or lost |
| `SlotLog.RecordedAgreesSave` | reconcile.go:267-293 | after a state save, acknowledged or not, what is recorded for the stored incarnation is the last state applied for it |
| `SlotInvariant.CoveredStep` | reconcile.go:144-168 | every step keeps each live resource that is not lost with a stored object of its incarnation that holds the finalizer |
| `SlotInvariant.HeldStep` | reconcile.go:98-106 | every step keeps the finalizer in memory and in the store in agreement, and the incarnation pinned while it is held |
| `SlotInvariant.RecordedSaved` | reconcile.go:242-293 | a state that is saved, through serialisation and codec, is the state that is read back |
| `SlotLog.ForwardStep` | reconcile.go:295-329 | no step takes generation, deletion, lastAppliedGeneration or provider metadata of an incarnation back |
| `MergePatch.PatchGivesChange` | reconcile.go:267-293 | a merge patch between two objects, applied to the first, gives the second exactly when everything new or changed in it is free of null fields |
| `MergePatch.PatchOnWhatIsStored` | reconcile.go:955-962 | a merge patch between two objects, applied to whatever is stored by then, keeps the stored field where the two agree and writes the second one's where they differ |
| `MergePatch.SpecIsTheUsers` | reconcile.go:196-240 | a patch between two objects with one spec never changes, removes or restores the stored spec |
| `Controller.Bridge.Reconcile` | controller.go:45-81 | every call extends a legal run; a call that reads its object ends with "done" if and only if its last event is an acknowledged status save or finalizer removal, with a retry after 30 seconds if and only if it gave up on a reference that cannot be found with no failed read, and as an error if and only if its last event is a fault; one that does not is done if and only if the read did not fail, and then the object is not there; done means gone, released or "Created", a retry that the cloud was not touched; and where nobody else acts, no patch, read or apply fails and the references can be found, it is done |
| `Controller.Bridge.TerraformReconcile` | reconcile.go:89-182 | an error comes back exactly when the last event is a fault, the empty result exactly when the last patch was acknowledged, 30 seconds exactly when a reference cannot be found; success means that the finalizer is gone or that the object is "Created" and holds it, and is what comes of it when nothing gets in the way |
| `Controller.Bridge.EnsureFinalizer` | reconcile.go:196-215 | whatever others do meanwhile, an error means a patch that was not acknowledged; otherwise the object in memory is as it was read if it held the finalizer, and else the stored one, whose finalizers are those in memory with ours behind them |
| `Controller.Bridge.ResolveReferences` | reconcile.go:358-448 | every reference is found and the reconcile goes on with the same object, or it is over: with a retry because a reference cannot be found, or with an error because a read failed; without faults and with all references to be found it goes on |
| `Controller.Bridge.GetReferencedObjectValue` | reconcile.go:574-654 | one reference less to find, or the reconcile is over: with a retry because it cannot be found, or with an error because the read failed |
| `Controller.Bridge.PlanAndApplyConfig` | reconcile.go:928-953 | an error means that the provider failed, wholly or half-way; otherwise the reconcile holds a new state to save; there is no error if all that the provider may do succeeds |
| `Controller.Bridge.ApplyAndSave` | reconcile.go:139-181 | an error exactly for a fault, otherwise the last patch was acknowledged and the object is released or "Created" |
| `Controller.Bridge.SaveTerraformStateValue` | reconcile.go:267-293 | the stored object is the one in memory and the reconcile goes on, or the patch was not acknowledged and it is over; with no fault, the finalizers are as they were |
| `Controller.Bridge.SaveResourceStatus` | reconcile.go:165-178 | without an error, the stored object is that of the reconcile, holds the finalizer and has the status of its result; an error means a fault |
| `Controller.Bridge.RemoveFinalizerAndSave` | reconcile.go:217-240 | without an error, the finalizer was there and the stored finalizers are those in memory without it; an error means a fault |
| `Controller.SavedShowsResult` | reconcile.go:165-178 | in every run, an acknowledged status save leaves the object of the reconcile stored, held and with the status of the result, and changes nothing else of what is stored |
| `Controller.OneEnding` | reconcile.go:89-182 | no run ends a reconcile in two of the three ways |
| `Controller.RecordedDecodes` | reconcile.go:242-265 | in every run, the recorded state of an object in memory decodes, so one of the faults never happens |
| `OtherFinalizers.WithoutKeepsOthers` | reconcile.go:217-234 | removing our finalizer keeps every other one, as often as it is there, in its order, and leaves none of ours |
| `OtherFinalizers.PatchedAreInMemory` | reconcile.go:196-240 | after either patch of the finalizers that is not refused, the stored ones other than ours are those in memory, and ours is there once or not at all |
| `OtherFinalizers.OthersUntouched` | reconcile.go:89-182 | no other step of a reconcile, and no edit or deletion, touches the list |
| `OtherFinalizers.CopyIsAsRead` | reconcile.go:196-293 | in every run, the object in memory is what was stored when it was last read or came back in a reply, and its finalizers still are if nobody has set them since |
| `OtherFinalizers.OthersKeptIff` | reconcile.go:196-240 | in every run, either patch keeps the stored finalizers of others if and only if they are those of the last read, so whenever nobody has set them since |
| `OtherFinalizers.OtherIsOverwritten` | reconcile.go:196-215 | there is a run in which a finalizer that another controller adds is gone after ours is added |
| `OperatorStatus.GetWhatIsSet` | reconcile.go:284 | a field can be set exactly if only objects are on the way to it, and then it is there |
| `OperatorStatus.GetElsewhere` | reconcile.go:284 | what is at any path that parts from it stays as it is |
| `OperatorStatus.SetTerraformState` | reconcile.go:267-288 | what is recorded is what will be read and decoded, and nothing else changes; the only error is a status that has no place for it |
| `OperatorStatus.EnsureTerraformProviderMetadataValue` | reconcile.go:308-320 | a text that is there stays, a missing one is written, anything else is an error |
| `OperatorStatus.SetLastAppliedGeneration` | reconcile.go:322-329 | writes the generation in decimal, and nothing else |
| `OperatorStatus.DecimalIsNumber` | reconcile.go:323-324 | the text is the digits of the number, with no zero in front |
| `OperatorStatus.SetProvisioningState` | reconcile.go:341-347 | what is written is what references read: the resource is "Created" exactly if that was written |
| `OperatorStatus.RecordResult` | reconcile.go:155-176 | for a state that fits and has no _tfoperator of its own, an error exactly if the operator's fields are mistyped; otherwise the resource is "Created", with the generation, the metadata as first written and the recorded state untouched, and its status shows the state beside that |
| `OperatorStatus.AdmittedCanBeRecorded` | create.go:71-83 | a status that the generated schema admits has none of these mistyped |
| `OperatorStatus.ResultSaid` | reconcile.go:155-176 | recording a result does to the JSON what the protocol's step does to its status |
| `OperatorStatus.StateSaid` | reconcile.go:267-288 | so does recording a state |
| `OperatorStatus.RecordedIsRead` | reconcile.go:242-265 | the recorded state of the protocol is what reading, decoding and unmarshalling the JSON gives |
| `OperatorStatus.RecordedResolves` | reconcile.go:574-654 | a reference to a resource that is "Created" so resolves to a text exactly if its property holds it |
| `OperatorStatus.PatchedIsCreated` | reconcile.go:955-962 | after the patch of the status, merged into whatever is stored by then, the stored resource is "Created" |
| `Cipher.DecryptedEncrypted` | cipher.go:37-92 | for every block function, vector and plaintext, decrypting what was encrypted gives the plaintext |
| `Cipher.EncryptedLength` | cipher.go:37-55 | the ciphertext is a vector and a positive number of whole blocks, at most two blocks longer than the plaintext |
| `Cipher.Pad` | cipher.go:76-81 | the padded text is the text and one to sixteen bytes that all give their number, a whole number of blocks |
| `Cipher.UnpadPad` | cipher.go:76-92 | unpadding undoes padding |
| `Cipher.UnpadIff` | cipher.go:83-92 | a text unpads to another exactly if its last byte gives the number of the bytes that are taken away |
| `Cipher.XorByteBit` | cipher.go:49-50 | bit by bit, the exclusive or of two bytes is set exactly where they differ |
| `Cipher.CfbSegment` | cipher.go:49-50 | for every segment, exclusive or of the ciphertext with the plaintext gives the block function of the segment before it, or of the vector |
| `Cipher.DecryptEncrypt` | cipher.go:49-66 | CFB decryption undoes CFB encryption, for every block function and vector, on texts of any length |
| `Cipher.EncryptDecrypt` | cipher.go:49-66 | CFB encryption undoes CFB decryption |
| `Cipher.XorKeyStreamEncrypt` | cipher.go:42-50 | the stream writes behind the vector, in one buffer, a text each segment of which is its plaintext under the key stream of CFB |
| `Cipher.XorKeyStreamDecrypt` | cipher.go:63-65 | decryption in place over one buffer gives the CFB plaintext of what the buffer held |
| `Cipher.Encrypt` | cipher.go:37-55 | the text is the vector and the CFB ciphertext of the padded plaintext, segment by segment, and decrypts to the plaintext |
| `Cipher.Decrypt` | cipher.go:58-73 | gives the unpadded CFB plaintext, or the error of a padding longer than the text |
| `Base64.RoundTrip` | reconcile.go:692-717 | decoding undoes encoding, through all three group lengths |
| `Base64.GroupIsNumber` | reconcile.go:698 | the letters of a group are the digits to base 64 of the number that its bytes are to base 256, with padding |
| `Base64.SextetIsLetter` | reconcile.go:698 | the 64 letters are those of the standard alphabet, in order |
| `Base64.EncodedGroups` | reconcile.go:698 | the text is that of each group of three bytes, in order |
| `StateCodec.CodecRoundTrip` | reconcile.go:692-717 | with or without a cipher, decoding and decrypting gives the text that was encrypted and encoded |
| `StateCodec.EncodedIsCiphertext` | reconcile.go:692-702 | with a cipher, the text is base64 of the vector and the CFB ciphertext of the padded text |
| `StateCodec.EncodingIsInjective` | reconcile.go:692-702 | different texts never share an encoding, whatever the vectors |
| `StateCodec.EncryptAndEncodeString` | reconcile.go:692-702 | the text that comes back decodes to the plain one, and says whether it is encrypted |
| `StateCodec.DecodeAndDecryptString` | reconcile.go:704-717 | gives what decoding and decrypting gives, errors included, and says whether it decrypted |
| `OpenApi.Partition` | create.go:99-161 | at every nested block, an attribute is a property of exactly the side that Computed says, a block of both with one shape, required lists are Required and MinItems >= 1, and no other name is there |
| `BlockSchema.ShownAsObjectIff` | create.go:442-451 | a list, set or map of blocks is shown as an object exactly if one may be given and never more, as MinItems and MaxItems say |
| `OpenApi.AttributeSchema` | create.go:163-249 | wherever an attribute is, its property is the schema of its type, or missing for the empty object type |
| `OpenApi.TypeMeaning` | create.go:194-249 | the schema of a type admits exactly the JSON values that fit the type, at every depth |
| `OpenApi.BlocksOnBothSides` | create.go:128-159 | following a path of nested blocks, either side has the schema of the block there |
| `OpenApi.NothingElse` | create.go:99-161 | a path in a generated schema that is not a path of blocks leaves them through an attribute of that side |
| `OpenApi.StatusHasProperties` | create.go:71 | the status has a property to begin with exactly when the resource has a nested block or a computed attribute of a type that is not skipped |
| `OpenApiMethods.GetOpenAPISchemaFromTerraformType` | create.go:194-249 | in any order of attributes, an error exactly when a dynamic type is met, otherwise the schema of the type |
| `OpenApiMethods.MapTerraformAttributeToOpenAPISchema` | create.go:163-186 | adds the schema of the attribute's type to the parent, or nothing for the empty object type |
| `OpenApiMethods.MapTerraformBlockToOpenAPISchema` | create.go:99-161 | in any order, an error exactly when a type is not described; otherwise both schemas gain all that the block gives their side and keep the rest |
| `OpenApiMethods.CreateRoots` | create.go:31-97 | one root schema for every resource whose name is at most 63 long, or an error exactly when one of these has a type that is not described |
| `References.WrittenResolves` | reconcile.go:574-654 | a reference written from a key and a property, without colons in them and with any blanks around it, resolves to a text if and only if that object is there with "Created" at status._tfoperator.provisioningState and the text at the property path |
| `References.CreatedIff` | reconcile.go:331-339 | the state that is read is "Created" exactly if the field provisioningState under status and _tfoperator holds that text |
| `References.NestedStringIff` | reconcile.go:640 | reading a path gives a text exactly if it is there, and an error exactly if something else is, there or on the way |
| `References.LaterIff` | reconcile.go:610-652 | it is tried again later exactly if there are six parts and the object is absent, is not "Created", or has nothing where the property would be |
| `References.BrokenIff` | reconcile.go:578-647 | it is an error exactly if there are not six parts, the read fails, or what is read is not a text |
| `References.Trims` | reconcile.go:585 | blanks around a reference are taken away, and nothing else |
| `References.SplitJoin` | reconcile.go:587-590 | splitting undoes joining exactly when no part has the separator in it |
| `References.JoinSplit` | reconcile.go:639-639 | joining undoes splitting |
| `AttributeMapping.OkOrFails` | reconcile.go:450-572 | at every depth, success excludes failure and one of success, error and retry is possible |
| `AttributeMapping.AttrValueType` | reconcile.go:450-572 | the value has exactly the attribute's type and is never null, nor empty if no collection is |
| `AttributeMapping.OkIffResolved` | reconcile.go:450-572 | the mapping succeeds exactly when the plain one does and every reference at a string of the type resolves |
| `AttributeMapping.SubstituteThenMap` | reconcile.go:452-568 | mapping with references is the plain mapping of the value with each reference replaced once |
| `AttributeMethods.GetTerraformValueFromInterface` | reconcile.go:450-572 | in any order of map entries, one of three outcomes: the value, or an error or retry message that the JSON and the store account for |
| `AttributeMethods.ValueIffOk` | reconcile.go:450-572 | a value comes back exactly when the mapping can succeed |
| `SpecMapping.SpecOkOrFails` | reconcile.go:363-448 | for every block tree and spec, success excludes failure and one of success, error and retry is possible |
| `SpecMethods.MapCRDSpecValuesToTerraformConfig` | reconcile.go:363-448 | in any order of attributes and blocks, one of three outcomes: the configuration, which means the spec place by place, items in their order, or an error or retry message that the spec and the store account for |
| `ConfigMeaning.ConfigMeans` | reconcile.go:350-448 | at every place the configuration has what the spec supplies, or an empty value: list blocks item by item in order, sets all items and no others, display_name in every supplied block |
| `ConfigMeaning.AttributeValueMeans` | reconcile.go:450-572 | the value has the texts, with references replaced, the booleans and the elements of the JSON, at every depth |
| `AttributeMethods.ValueMeans` | reconcile.go:450-572 | so has what the method gives, in any order of map entries |
| `SpecMethods.OutcomeIsDetermined` | reconcile.go:363-448 | two visiting orders give the same value, or neither gives one |
| `SpecMethods.ItemsSameType` | reconcile.go:436-440 | items of the same shape map to values of one type, which is what the list and set constructors demand |
| `SpecTypes.ConfigType` | reconcile.go:350-448 | the type of the configuration depends on the block and the tree of supplied blocks only: the implied type with a string display_name in each supplied block |
| `SpecTypes.ItemsOfOneType` | reconcile.go:436-440 | two items map to values of one type if and only if they are of the same shape |
| `SpecTypes.UnmarkedIff` | reconcile.go:350-356 | supplying a block leaves its implied type as it is exactly if it and all that is supplied in it declare a display_name |
| `SpecTypes.SameTypeIffSameShape` | reconcile.go:350-356 | specs have one supplied type if and only if they supply the same nested blocks, but for those where it makes no difference |
| `SpecReferences.SpecOkIffResolved` | reconcile.go:363-448 | a configuration comes back exactly when the spec is acceptable as text and every reference at a place of the schema resolves |
| `SpecReferences.SubstituteThenConfig` | reconcile.go:452-475 | the configuration is the literal one of the spec with each reference replaced once, never looked up again |
| `SpecInWorld.MappingFindsReferences` | reconcile.go:452-475 | over a store that represents the cluster, a configuration comes back exactly when the spec is acceptable as text, its references have six parts, and every reference of the spec as the protocol sees it can be found |
| `SpecInWorld.AllTextsUsed` | reconcile.go:120-136 | the first apply of a spec used, for each reference text at a string of the schema, the object that it names |
| `SpecInWorld.ProtocolStrings` | reconcile.go:639-652 | the string properties of the protocol's spec are those that reading a property path of the resource gives |
| `SpecInWorld.SpecResolvesIff` | reconcile.go:363-448 | all references resolve exactly when each text with a backtick at a string of the schema does |
| `SpecInWorld.ResolvesInWorld` | reconcile.go:574-654 | over resources whose fields say what the objects of the cluster do, reading a reference gives a value exactly when the cluster stores a "Created" object that exposes the property |
| `SpecAdmission.SpecAdmittedIff` | create.go:99-161 | the mapping accepts a spec, reading references as text, and nothing required is missing, if and only if the generated schema admits it and it has no number, object or unmappable computed attribute where the mapping looks |
| `SpecAdmission.AdmittedIsMappedIff` | reconcile.go:107-136 | an admitted spec is mapped exactly if nothing in it goes unhandled and every reference resolves |
| `SpecAdmission.AttributeAdmitted` | create.go:194-249 | for every described type, the mapping accepts exactly what the schema admits and what has no number or object |
| `Webhook.SameConfig` | reconcile.go:119-131 | specs that are equal except for numbers have the same configuration |
| `Webhook.SameSpecMayFail` | reconcile.go:363-448 | specs that are equal except for numbers fail in the same ways |
| `Webhook.Handle` | controller.go:163-195 | allows a resource exactly when its spec maps and the provider validates that configuration |
| `Webhook.PrepareConfig` | reconcile.go:107-137 | after writing the spec out and reading it back, the configuration is that of the spec before it, and so are the failures |
| `Webhook.ValidateThenPrepare` | controller.go:182-195 | the webhook allows exactly what the reconciler can apply and the provider validates: the very same configuration |
| `PropertySearch.BareNameIsPath` | reconcile.go:656-690 | with unique names, the walk over the whole schema meets under a name exactly what the block that declares it has in spec and status |
| `PropertySearch.HereIsPropertyAt` | reconcile.go:656-669 | and that is what following the path in the schema gives |
| `PropertySearch.NamesInArraysAreNotMet` | reconcile.go:656-669 | names inside a block shown as an array are never met |
| `PropertySearch.OccursOnce` | reconcile.go:671-690 | with unique names, any two orders of the search through a block tree find the same thing |
| `PropertySearch.GetTerraformAttributeOrNestedBlockFromBlock` | reconcile.go:671-690 | in any order, nothing comes back exactly when the name is declared nowhere in the tree, otherwise a declaration of it |
| `PropertySearch.KnowsAlong` | reconcile.go:869-890 | for the resource's own schema, every block reachable through objects meets, under every name that the search finds there, the properties generated for it, and none under names declared in array-shaped blocks |
| `PropertySearch.SeekIsFound` | reconcile.go:671-690 | with unique names, any order of the search through the whole tree finds what a search through objects finds |
| `StatusMethods.GetOpenAPIValueFromTerraformValue` | reconcile.go:720-867 | a value that belongs to its place and schema is shown, nulls included; one that is refused never is, in any order; a map is shown empty or panics, by its keys; and whatever comes back has a kind that the schema allows |
| `StatusMethods.GetCRDValueFromTerraformValue` | reconcile.go:870-896 | a field that the block's search finds is shown if it fits and never if it is refused, in any order of the walk; a name that no property has gives nothing; without a block every other name panics |
| `StatusMethods.WalkOpenAPISchemaProperties` | reconcile.go:656-669 | the last match decides, every match of a name gives a correct result or a failure, and without a match the result is unchanged |
| `StatusMethods.FlattenTerraformCollectionValue` | reconcile.go:988-1017 | the only element, any entry of a map, an empty object, the value itself, or a panic, by nesting mode |
| `StatusMethods.MapTerraformValuesToCRDStatus` | reconcile.go:899-926 | every field of the value is written to the status and nothing else changes; for fitting values the only error is a status that is not an object, and a refused value always gives one |
| `StatusMapping.ObjectConforms` | create.go:99-161 | what is shown for a block's value has, at every depth, the kinds of the schema of either side, and is admitted, required names included, if and only if the value is filled |
| `StatusMapping.FilledIff` | create.go:145-148 | a value is filled exactly if all that its side requires is shown and every shown block is filled |
| `StatusAdmission.FirstStateSaveIff` | reconcile.go:267-293 | a status that only records a state is admitted if and only if the status schema requires nothing else |
| `StatusAdmission.RequiredBlockRefusesStates` | create.go:145-148 | with a block of MinItems >= 1 no such status is admitted |
| `StatusAdmission.StoredStatusIff` | reconcile.go:173-178 | with what the operator keeps beside it, a mapped value is admitted if and only if it is filled |
| `StatusAdmission.AbsentIsRefused` | create.go:128-159 | a state of the implied type that can be shown, with an optional block absent that requires something inside, is not admitted |
| `StatusTyping.TypedDecided` | reconcile.go:720-926 | every value of the type a block implies, whatever is null in it, can be shown or is refused in every order: the mapping back succeeds exactly for those that fit |
| `StatusTyping.TypedFits` | reconcile.go:720-926 | every value of the type a block implies, with no null where a block is expected, can be shown |
| `StatusTyping.ConfigFitsIff` | reconcile.go:350-448 | a configuration can be shown if and only if display_name is the name of no property, or the block that declares it lies below every supplied block and no array-shaped block has items; otherwise it is refused |
| `StatusTyping.OwnDisplayNameRefuses` | reconcile.go:350-356 | a resource with a display_name of its own refuses every configuration that supplies a block |
| `StatusTyping.MapBlockRefused` | reconcile.go:829-835 | a state with a map of blocks that is shown as an array is refused, supplied or not |
| `StatusTyping.MapBlockConfigRefused` | reconcile.go:436-440 | so is every configuration of such a block tree |
| `EndToEnd.SpecToStatus` | reconcile.go:107-178 | with a provider that returns states of the implied type and keeps what was configured, a spec ends in a status that has what the spec has, exactly if the mapping accepts it; otherwise in a failure that the spec and the store account for, with nothing changed |
| `EndToEnd.ConfigToStatus` | reconcile.go:107-178 | with a provider that returns the configuration itself, that holds exactly if the added display_names can be mapped back |
| `RoundTrip.StatusReturnsSpec` | reconcile.go:720-926 | if the provider keeps what the configuration says, the status has at every supplied place what the spec has: references resolved, sets up to order, sensitive texts once decoded, and of blocks shown as arrays the number of items |
| `RoundTrip.ShowEcho` | reconcile.go:899-926 | writing such a state with the resource's own schema gives no error and a status that has what the spec has, if it can be shown, and an error and no change if it is refused |
| `RoundTrip.ConfigEchoes` | reconcile.go:363-448 | the configuration itself is such a state: of every list block its items in order, of every set block each item and no other |
| `RoundTrip.FlattenUndoesUnflatten` | reconcile.go:964-1017 | flattening undoes unflattening for every nesting mode |
| `RoundTrip.AttributeReturns` | reconcile.go:450-572 | what is shown for a mapped attribute is what the spec says |
| `StatusReading.ShownIsReadBack` | reconcile.go:719-830 | what is shown for a value of strings, booleans, numbers, lists and sets reads back as that value, with nulls as zero values and sensitive texts decoded |
| `RoundTrip.UpdatedConforms` | reconcile.go:899-926 | what the updated status shows of the value has the kinds of the generated schemas, and is admitted, required names included, if and only if the value is filled |
| `Naming.NameRoundTrip` | reconcile.go:92-94 | a resource name survives the way to a kind and back if and only if azurerm_ is in front and nowhere else, and it has no dash |
| `Naming.KindsAreDistinct` | create.go:288 | such names have kinds of their own |
| `Naming.KindsMayClash` | create.go:288 | for every name, one with a second azurerm_ in front has the same kind |
| `Naming.InstallOpenAPISchemasAsK8sCRDs` | create.go:275-346 | the list has the kinds of the schemas that were there, skipped or created, in order |
| `Naming.InstalledInOrder` | create.go:275-346 | the indices of the list increase and are exactly those of the installed schemas |
| `Naming.InstalledIff` | create.go:275-346 | a schema is among them if and only if creation is skipped, its kind exists or it was created |
| `Naming.InstalledAs` | create.go:286-292 | the kind of azurerm_ and a rest is the rest with dashes for underscores, its resource has an s behind it, in the group azurerm.tfb.local |
| `Naming.AlignedIff` | create.go:333-342 | the list is aligned with the schemas if and only if no failure comes before an installed one |
| `Naming.SetupControllerRuntime` | controller.go:112-142 | the i-th kind is paired with the i-th schema, a later equal kind winning |
| `Naming.OwnSchemasIff` | controller.go:112-117 | with distinct names, every kind is paired with the schema it was made from if and only if no failed creation comes before an installed kind |

## Left out

- Convergence.Convergence: faults, user edits and unaccepted specs are excluded for the whole stretch, and a status string counts only if every state reports it.
- Runs.StateAgreement: the cty JSON encoding is an inverse pair at a fixed type, not modelled further; an unmarshalled empty value is never saved.
- StatusMethods.GetOpenAPIValueFromTerraformValue: every value of an implied type fits or is refused (`StatusTyping.TypedDecided`); for values of other types the contract bounds the kind of what comes back only, and it tells errors from panics only for maps and lookups without a block.
- StatusMapping.ObjectConforms: that a map of blocks shown as an object has one entry at most is taken from its MaxItems of 1; with more, Go shows any of them.
- Webhook.PrepareConfig: that writing a spec out as JSON and reading it back changes nothing but how numbers are held is taken for granted.
- SpecMethods.MapCRDSpecValuesToTerraformConfig: specs on which the source panics (empty collections, items of different shapes, values that are not objects or arrays where blocks are) are excluded.
- RoundTrip.StatusReturnsSpec: block trees with map or object attributes are not covered, since their contents are dropped.
- OperatorStatus.SetTerraformState: nested JSON objects are values; that the source changes them in place, and the reading of metadata.generation, are not modelled.
- Controller.Bridge.Reconcile: writing the generation or the metadata into memory may fail like a read; which statuses make it fail is stated by `OperatorStatus.RecordResult`.
- In the protocol, a spec is its set of references, its string properties and an opaque rest (`SpecInWorld.ProtocolSpec` takes a spec to it), and a configuration is not looked into; a string property is present or absent there, without its value.
- Rounding of numbers to 64-bit floats; the Go type of the zero that stands for a null number, which the copying of unstructured objects may refuse; nil slices, which are written as null.
- The property path and the wording of messages; logging; the order of required lists; descriptions of attributes.
- White space of several bytes around a reference; other characters than bytes.
- A block without attributes and nested blocks, whose value map is nil in the source and cannot take a display_name.
- OpenAPI schemas are values; pointers that several schemas could share are not modelled.
- Secrecy, the quality of random vectors, and the inside of AES.
- The provider's own planning, plugin calls, the download of providers and their configuration in HCL.
- The Kubernetes client, manager, webhook server, certificates, environment variables, and polling for installed kinds.
- Stale cache reads at the start of a reconcile, under which the finalizer in memory would not be the stored one.
