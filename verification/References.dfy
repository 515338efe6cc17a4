/**
 References from one object's spec to a property of another: a string that starts with a
 backtick and reads group:version:kind:namespace:name:propertypath (reconcile.go:574-654).
 */
module References {
  import opened GoStrings
  import opened Cty

  datatype ObjectKey = ObjectKey(group: Bytes, version: Bytes, kind: Bytes, namespace: Bytes, name: Bytes)

  /** What a read of the API server returns; no entry means not found. */
  datatype Lookup = Found(resource: map<Bytes, Json>) | Failed

  type Store = map<ObjectKey, Lookup>

  /** A value; a message, to try again later; or an error. */
  datatype Resolved = Text(text: Bytes) | Later(message: string) | Broken(message: string)

  predicate IsReference(s: Bytes) {
    s != [] && s[0] == '`'
  }

  /** strings.Split, by one character. */
  function Split(s: Bytes, separator: Byte): (parts: seq<Bytes>)
    ensures parts != []
  {
    if s == [] then [[]]
    else
      var rest := Split(s[1..], separator);
      if s[0] == separator then [[]] + rest
      else [[s[0]] + rest[0]] + rest[1..]
  }

  /** The white space of ASCII; strings.TrimSpace also knows characters of several bytes. */
  predicate IsSpace(c: Byte) {
    c == ' ' || 9 <= c as int <= 13
  }

  function TrimLeft(s: Bytes): Bytes {
    if s != [] && IsSpace(s[0]) then TrimLeft(s[1..]) else s
  }

  function TrimSpace(s: Bytes): Bytes {
    TrimRight(TrimLeft(s))
  }

  function TrimRight(s: Bytes): Bytes {
    if s != [] && IsSpace(s[|s| - 1]) then TrimRight(s[..|s| - 1]) else s
  }

  /** unstructured.NestedString: absent, a string, or an error for any other value on the way. */
  function NestedString(fields: map<Bytes, Json>, path: seq<Bytes>): Result<Option<Bytes>>
    requires path != []
    decreases |path|
  {
    if path[0] !in fields then Ok(None)
    else
      var j := fields[path[0]];
      if |path| == 1 then
        if j.JString? then Ok(Some(j.text)) else Err("accessor error: not a string")
      else if j.JNull? then Ok(None)
      else if j.JObject? then NestedString(j.fields, path[1..])
      else Err("accessor error: not a map")
  }

  /** On the way to the end of the path there is something that is neither an object nor null. */
  predicate Blocked(j: Json, path: seq<Bytes>) {
    exists n :: 0 < n < |path| && IsBlock(j, path[..n])
  }

  predicate IsBlock(j: Json, path: seq<Bytes>) {
    var at := Get(j, path);
    at.Some? && !at.value.JObject? && !at.value.JNull?
  }

  /** There is no string to be read there, but something else. */
  predicate Mistyped(fields: map<Bytes, Json>, path: seq<Bytes>) {
    var at := Get(JObject(fields), path);
    Blocked(JObject(fields), path) || (at.Some? && !at.value.JString?)
  }

  lemma BlockedBelow(j: Json, path: seq<Bytes>)
    requires |path| > 1 && j.JObject? && path[0] in j.fields
    ensures Blocked(j, path) <==> IsBlock(j, path[..1]) || Blocked(j.fields[path[0]], path[1..])
  {
    var inner, rest := j.fields[path[0]], path[1..];
    forall n | 0 < n < |rest| ensures IsBlock(inner, rest[..n]) <==> IsBlock(j, path[..n + 1]) {
      assert path[..n + 1][0] == path[0] && path[..n + 1][1..] == rest[..n];
    }
    if Blocked(j, path) {
      var n :| 0 < n < |path| && IsBlock(j, path[..n]);
      assert n > 1 ==> IsBlock(inner, rest[..n - 1]);
    }
    if Blocked(inner, rest) {
      var n :| 0 < n < |rest| && IsBlock(inner, rest[..n]);
      assert IsBlock(j, path[..n + 1]);
    }
  }

  lemma NotBlocked(j: Json, path: seq<Bytes>)
    requires path != [] && (!j.JObject? || path[0] !in j.fields)
    ensures !Blocked(j, path) && Get(j, path).None?
  {
    forall n | 0 < n < |path| ensures !IsBlock(j, path[..n]) {
      assert path[..n][0] == path[0];
    }
  }

  /** A string is read exactly if it is there, and an error reported exactly if something else is. */
  lemma {:induction false} NestedStringIff(fields: map<Bytes, Json>, path: seq<Bytes>, text: Bytes)
    requires path != []
    ensures NestedString(fields, path) == Ok(Some(text)) <==> Get(JObject(fields), path) == Some(JString(text))
    ensures NestedString(fields, path).Err? <==> Mistyped(fields, path)
    decreases |path|
  {
    var j := JObject(fields);
    if path[0] !in fields {
      NotBlocked(j, path);
    } else {
      var inner, rest := fields[path[0]], path[1..];
      assert Get(j, path) == Get(inner, rest);
      if |path| > 1 {
        BlockedBelow(j, path);
        assert path[..1][0] == path[0] && path[..1][1..] == [];
        assert Get(j, path[..1]) == Get(inner, []);
        if inner.JObject? {
          NestedStringIff(inner.fields, rest, text);
        } else {
          NotBlocked(inner, rest);
        }
      }
    }
  }

  const CREATED: Bytes := "Created"

  function ProvisioningState(resource: map<Bytes, Json>): Result<Option<Bytes>> {
    NestedString(resource, ["status", "_tfoperator", "provisioningState"])
  }

  /** What the operator keeps of its own in the status. */
  function OperatorFields(resource: map<Bytes, Json>): map<Bytes, Json> {
    if "status" in resource && resource["status"].JObject? && "_tfoperator" in resource["status"].fields
       && resource["status"].fields["_tfoperator"].JObject?
    then resource["status"].fields["_tfoperator"].fields else map[]
  }

  /** The state that the operator has written: {status: {_tfoperator: {provisioningState: "Created"}}}. */
  predicate IsCreated(resource: map<Bytes, Json>) {
    var fields := OperatorFields(resource);
    "provisioningState" in fields && fields["provisioningState"] == JString("Created")
  }

  lemma GetThree(j: Json, a: Bytes, b: Bytes, c: Bytes)
    ensures Get(j, [a, b, c]) == Get(if j.JObject? && a in j.fields then j.fields[a] else JNull, [b, c])
    ensures Get(j, [b, c]) == Get(if j.JObject? && b in j.fields then j.fields[b] else JNull, [c])
    ensures Get(j, [c]) == if j.JObject? && c in j.fields then Some(j.fields[c]) else None
  {
    assert [a, b, c][1..] == [b, c] && [b, c][1..] == [c] && [c][1..] == [];
  }

  lemma CreatedIff(resource: map<Bytes, Json>)
    ensures ProvisioningState(resource) == Ok(Some(CREATED)) <==> IsCreated(resource)
  {
    var path: seq<Bytes> := ["status", "_tfoperator", "provisioningState"];
    NestedStringIff(resource, path, CREATED);
    GetThree(JObject(resource), path[0], path[1], path[2]);
    if "status" in resource {
      GetThree(resource["status"], path[0], path[1], path[2]);
      if resource["status"].JObject? && "_tfoperator" in resource["status"].fields {
        GetThree(resource["status"].fields["_tfoperator"], path[0], path[1], path[2]);
      }
    }
  }

  function PropertyOf(resource: map<Bytes, Json>, path: Bytes): Resolved {
    match ProvisioningState(resource)
    case Err(e) => Broken(e)
    case Ok(state) =>
      if state != Some(CREATED) then Later("Referenced object not provisioned yet")
      else
        match NestedString(resource, Split(path, '.'))
        case Err(e) => Broken(e)
        case Ok(None) => Later("Value of property not found")
        case Ok(Some(value)) => Text(value)
  }

  function Parts(reference: Bytes): seq<Bytes>
    requires IsReference(reference)
  {
    Split(TrimSpace(reference[1..]), ':')
  }

  function KeyOf(parts: seq<Bytes>): ObjectKey
    requires |parts| == 6
  {
    ObjectKey(parts[0], parts[1], parts[2], parts[3], parts[4])
  }

  /** getReferencedObjectValue */
  function Resolve(store: Store, reference: Bytes): Resolved {
    if !IsReference(reference) then Broken("no backtick")
    else
      var parts := Parts(reference);
      if |parts| != 6 then Broken("input should have six parts")
      else if KeyOf(parts) !in store then Later("Referenced object not found")
      else
        match store[KeyOf(parts)]
        case Failed => Broken("Error getting referenced resource")
        case Found(resource) => PropertyOf(resource, parts[5])
  }

  /** The text at a property path of a resource. */
  predicate HoldsText(resource: map<Bytes, Json>, path: Bytes, value: Bytes) {
    Get(JObject(resource), Split(path, '.')) == Some(JString(value))
  }

  /** The operator's state cannot be read, or the resource is "Created" and the property cannot. */
  predicate Unreadable(resource: map<Bytes, Json>, path: Bytes) {
    || Mistyped(resource, ["status", "_tfoperator", "provisioningState"])
    || (IsCreated(resource) && Mistyped(resource, Split(path, '.')))
  }

  /** A property gives its text once the resource is "Created", an error if something else is there. */
  lemma PropertyIff(resource: map<Bytes, Json>, path: Bytes, value: Bytes)
    ensures PropertyOf(resource, path) == Text(value) <==> IsCreated(resource) && HoldsText(resource, path, value)
    ensures PropertyOf(resource, path).Broken? <==> Unreadable(resource, path)
  {
    CreatedIff(resource);
    NestedStringIff(resource, ["status", "_tfoperator", "provisioningState"], CREATED);
    NestedStringIff(resource, Split(path, '.'), value);
  }

  /** A reference yields a value exactly from a string property of a "Created" object. */
  lemma ResolvesIff(store: Store, reference: Bytes, value: Bytes)
    requires IsReference(reference)
    ensures Resolve(store, reference) == Text(value) <==>
            var parts := Parts(reference);
            && |parts| == 6 && KeyOf(parts) in store && store[KeyOf(parts)].Found?
            && IsCreated(store[KeyOf(parts)].resource) && HoldsText(store[KeyOf(parts)].resource, parts[5], value)
  {
    var parts := Parts(reference);
    if |parts| == 6 && KeyOf(parts) in store && store[KeyOf(parts)].Found? {
      PropertyIff(store[KeyOf(parts)].resource, parts[5], value);
    }
  }

  /** It is an error exactly if it has not six parts, the read fails, or what is read is not a string. */
  lemma BrokenIff(store: Store, reference: Bytes)
    requires IsReference(reference)
    ensures Resolve(store, reference).Broken? <==>
            var parts := Parts(reference);
            || |parts| != 6
            || (KeyOf(parts) in store &&
                (store[KeyOf(parts)].Failed? || Unreadable(store[KeyOf(parts)].resource, parts[5])))
  {
    var parts := Parts(reference);
    if |parts| == 6 && KeyOf(parts) in store && store[KeyOf(parts)].Found? {
      PropertyIff(store[KeyOf(parts)].resource, parts[5], "");
    }
  }

  /**
   It is tried again later exactly if it has six parts and the object is not there, is not
   "Created", or has nothing where the property would be.
   */
  lemma LaterIff(store: Store, reference: Bytes)
    requires IsReference(reference)
    ensures Resolve(store, reference).Later? <==>
            var parts := Parts(reference);
            && |parts| == 6
            && (KeyOf(parts) !in store ||
                (store[KeyOf(parts)].Found? &&
                 var resource := store[KeyOf(parts)].resource;
                 && !Unreadable(resource, parts[5])
                 && (!IsCreated(resource) || Get(JObject(resource), Split(parts[5], '.')).None?)))
  {
    var parts := Parts(reference);
    if |parts| == 6 && KeyOf(parts) in store && store[KeyOf(parts)].Found? {
      var resource := store[KeyOf(parts)].resource;
      var at := Get(JObject(resource), Split(parts[5], '.'));
      PropertyIff(resource, parts[5], if at.Some? && at.value.JString? then at.value.text else "");
      if PropertyOf(resource, parts[5]).Text? { PropertyIff(resource, parts[5], PropertyOf(resource, parts[5]).text); }
    }
  }

  // ---------------------------------------------------------------- writing a reference

  function Join(parts: seq<Bytes>, separator: Byte): Bytes
    requires parts != []
  {
    if |parts| == 1 then parts[0] else parts[0] + [separator] + Join(parts[1..], separator)
  }

  /** No part has the separator in it. */
  predicate Apart(parts: seq<Bytes>, separator: Byte) {
    forall i :: 0 <= i < |parts| ==> separator !in parts[i]
  }

  lemma {:induction false} SplitOne(s: Bytes, separator: Byte)
    requires separator !in s
    ensures Split(s, separator) == [s]
  {
    if s != [] {
      assert s[0] in s && [s[0]] + s[1..] == s;
      SplitOne(s[1..], separator);
    }
  }

  lemma {:induction false} SplitFirst(s: Bytes, separator: Byte, rest: Bytes)
    requires separator !in s
    ensures Split(s + [separator] + rest, separator) == [s] + Split(rest, separator)
  {
    var text := s + [separator] + rest;
    if s == [] {
      assert text[1..] == rest;
    } else {
      assert s[0] in s && [s[0]] + s[1..] == s;
      assert text[0] == s[0] && text[1..] == s[1..] + [separator] + rest;
      SplitFirst(s[1..], separator, rest);
    }
  }

  lemma {:induction false} SplitIsApart(s: Bytes, separator: Byte)
    ensures Apart(Split(s, separator), separator)
  {
    if s != [] { SplitIsApart(s[1..], separator); }
  }

  /** Splitting undoes joining exactly when no part has the separator in it. */
  lemma {:induction false} SplitJoin(parts: seq<Bytes>, separator: Byte)
    requires parts != []
    ensures Split(Join(parts, separator), separator) == parts <==> Apart(parts, separator)
    decreases |parts|
  {
    SplitIsApart(Join(parts, separator), separator);
    if Apart(parts, separator) {
      if |parts| == 1 {
        SplitOne(parts[0], separator);
      } else {
        SplitFirst(parts[0], separator, Join(parts[1..], separator));
        SplitJoin(parts[1..], separator);
      }
    }
  }

  lemma {:induction false} JoinSplit(s: Bytes, separator: Byte)
    ensures Join(Split(s, separator), separator) == s
  {
    if s != [] {
      JoinSplit(s[1..], separator);
      var rest := Split(s[1..], separator);
      if s[0] == separator {
        assert Split(s, separator)[1..] == rest;
      } else {
        assert Split(s, separator)[1..] == rest[1..];
      }
    }
  }

  /** White space that a user may put around a reference. */
  predicate Blank(s: Bytes) {
    forall i :: 0 <= i < |s| ==> s[i] == ' ' || s[i] == '\t' || s[i] == '\n' || s[i] == '\r'
  }

  /** It starts and ends with a character that is none of the white space of ASCII. */
  predicate Trimmed(s: Bytes) {
    s != [] && Visible(s[0]) && Visible(s[|s| - 1])
  }

  predicate Visible(c: Byte) {
    c != ' ' && c as int !in {9, 10, 11, 12, 13}
  }

  lemma {:induction false} LeftTrimmed(before: Bytes, s: Bytes)
    requires Blank(before) && (s == [] || Visible(s[0]))
    ensures TrimLeft(before + s) == s
  {
    if before == [] {
      assert before + s == s;
    } else {
      assert (before + s)[1..] == before[1..] + s;
      LeftTrimmed(before[1..], s);
    }
  }

  lemma {:induction false} RightTrimmed(s: Bytes, after: Bytes)
    requires Blank(after) && (s == [] || Visible(s[|s| - 1]))
    ensures TrimRight(s + after) == s
  {
    if after == [] {
      assert s + after == s;
    } else {
      assert (s + after)[..|s + after| - 1] == s + after[..|after| - 1];
      RightTrimmed(s, after[..|after| - 1]);
    }
  }

  /** Trimming takes away what is put around a text, and no more. */
  lemma Trims(before: Bytes, s: Bytes, after: Bytes)
    requires Blank(before) && Trimmed(s) && Blank(after)
    ensures TrimSpace(before + s + after) == s
  {
    assert before + s + after == before + (s + after);
    LeftTrimmed(before, s + after);
    RightTrimmed(s, after);
  }

  function Address(key: ObjectKey, property: Bytes): Bytes {
    Join([key.group, key.version, key.kind, key.namespace, key.name, property], ':')
  }

  /** What can be written so: no colons in it, and no white space at either end. */
  predicate Writable(key: ObjectKey, property: Bytes) {
    && Apart([key.group, key.version, key.kind, key.namespace, key.name, property], ':')
    && Trimmed(Address(key, property))
  }

  /** A reference to a property of an object, as a user writes it. */
  function Written(before: Bytes, key: ObjectKey, property: Bytes, after: Bytes): Bytes {
    "`" + (before + Address(key, property) + after)
  }

  lemma WrittenIsRead(before: Bytes, key: ObjectKey, property: Bytes, after: Bytes)
    requires Blank(before) && Writable(key, property) && Blank(after)
    ensures var text := Written(before, key, property, after);
            IsReference(text) && |Parts(text)| == 6 && KeyOf(Parts(text)) == key && Parts(text)[5] == property
  {
    var text := Written(before, key, property, after);
    assert text[1..] == before + Address(key, property) + after;
    Trims(before, Address(key, property), after);
    SplitJoin([key.group, key.version, key.kind, key.namespace, key.name, property], ':');
  }

  /** A written reference is resolved by that property of that object, once it is "Created". */
  lemma WrittenResolves(
    store: Store, before: Bytes, key: ObjectKey, property: Bytes, after: Bytes, value: Bytes)
    requires Blank(before) && Writable(key, property) && Blank(after)
    ensures Resolve(store, Written(before, key, property, after)) == Text(value) <==>
            && key in store && store[key].Found?
            && IsCreated(store[key].resource) && HoldsText(store[key].resource, property, value)
  {
    WrittenIsRead(before, key, property, after);
    ResolvesIff(store, Written(before, key, property, after), value);
  }

  /** A "try again" always says why. */
  lemma LaterSaysWhy(store: Store, reference: Bytes)
    ensures Resolve(store, reference).Later? ==> Resolve(store, reference).message != ""
  {
  }

  // ---------------------------------------------------------------- how strings are looked up

  /** Strings taken as they are, or looked up in the API server when they are references. */
  datatype Lookups = Literal | Against(store: Store)

  function ResolveText(l: Lookups, s: Bytes): Resolved {
    if l.Against? && IsReference(s) then Resolve(l.store, s) else Text(s)
  }
}
