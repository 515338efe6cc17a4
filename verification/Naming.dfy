/**
 Names of resources and kinds (create.go:288, reconcile.go:92-94), the list of installed kinds
 (create.go:258-346), and its pairing with the schemas by index (controller.go:112-142).
 */
module Naming {
  import opened GoStrings
  import opened OpenApi

  // ---------------------------------------------------------------- strings.Replace

  function ReplaceByte(s: Bytes, from: Byte, to: Byte): (r: Bytes)
    ensures |r| == |s| && forall i :: 0 <= i < |s| ==> r[i] == if s[i] == from then to else s[i]
  {
    if s == [] then [] else [if s[0] == from then to else s[0]] + ReplaceByte(s[1..], from, to)
  }

  /** All occurrences that do not overlap, from the left, replaced by nothing. */
  function RemoveAll(s: Bytes, pattern: Bytes): Bytes
    requires pattern != []
  {
    if s == [] then []
    else if pattern <= s then RemoveAll(s[|pattern|..], pattern)
    else [s[0]] + RemoveAll(s[1..], pattern)
  }

  const DASHED: Bytes := "azurerm-"
  const PREFIX: Bytes := "azurerm_"

  function KindOf(resourceName: Bytes): Bytes {
    RemoveAll(ReplaceByte(resourceName, '_', '-'), DASHED)
  }

  function ResourceNameOf(kind: Bytes): Bytes {
    PREFIX + ReplaceByte(kind, '-', '_')
  }

  // ---------------------------------------------------------------- there and back

  predicate Contains(s: Bytes, pattern: Bytes) {
    exists i :: 0 <= i <= |s| - |pattern| && pattern <= s[i..]
  }

  /** Nothing is removed exactly when there is no occurrence; otherwise the result is shorter. */
  lemma {:induction false} RemoveNothing(s: Bytes, pattern: Bytes)
    requires pattern != []
    ensures !Contains(s, pattern) ==> RemoveAll(s, pattern) == s
    ensures Contains(s, pattern) ==> |RemoveAll(s, pattern)| < |s|
    ensures |RemoveAll(s, pattern)| <= |s|
    decreases |s|
  {
    if s == [] {
    } else if pattern <= s {
      assert pattern <= s[0..];
      RemoveNothing(s[|pattern|..], pattern);
    } else {
      RemoveNothing(s[1..], pattern);
      ContainsInRest(s, pattern);
    }
  }

  lemma ContainsInRest(s: Bytes, pattern: Bytes)
    requires s != [] && pattern != [] && !(pattern <= s)
    ensures Contains(s, pattern) <==> Contains(s[1..], pattern)
  {
    if i :| 0 <= i <= |s| - |pattern| && pattern <= s[i..] {
      assert s[0..] == s;
      assert s[1..][i - 1..] == s[i..];
    }
    if i :| 0 <= i <= |s| - 1 - |pattern| && pattern <= s[1..][i..] {
      assert s[1..][i..] == s[i + 1..];
    }
  }

  predicate NoDash(s: Bytes) {
    forall i :: 0 <= i < |s| ==> s[i] != '-'
  }

  function Dashes(s: Bytes): Bytes {
    ReplaceByte(s, '_', '-')
  }

  lemma DashesInjective(s: Bytes, t: Bytes)
    requires NoDash(s) && NoDash(t) && Dashes(s) == Dashes(t)
    ensures s == t
  {
    forall i | 0 <= i < |s| ensures s[i] == t[i] {
      assert Dashes(s)[i] == Dashes(t)[i];
    }
  }

  lemma DashedPrefix()
    ensures Dashes(PREFIX) == DASHED && NoDash(PREFIX)
  {
    var d := Dashes(PREFIX);
    assert d[0] == DASHED[0] && d[7] == DASHED[7];
    assert forall i :: 0 <= i < 7 ==> PREFIX[i] == DASHED[i] && PREFIX[i] != '_' && PREFIX[i] != '-';
  }

  lemma OccursAt(s: Bytes, i: nat)
    requires NoDash(s) && i <= |s| - |PREFIX|
    ensures DASHED <= Dashes(s)[i..] <==> PREFIX <= s[i..]
  {
    DashedPrefix();
    var here := s[i..i + |PREFIX|];
    assert Dashes(s)[i..i + |PREFIX|] == Dashes(here);
    assert PREFIX <= s[i..] <==> here == PREFIX;
    assert DASHED <= Dashes(s)[i..] <==> Dashes(here) == DASHED;
    if Dashes(here) == DASHED { DashesInjective(here, PREFIX); }
  }

  lemma DashesContain(s: Bytes)
    requires NoDash(s)
    ensures Contains(Dashes(s), DASHED) <==> Contains(s, PREFIX)
  {
    forall i: nat | i <= |s| - |PREFIX| { OccursAt(s, i); }
  }

  /** The names that survive: azurerm_ in front and nowhere else, and no dash. */
  predicate RoundTrips(name: Bytes) {
    PREFIX <= name && NoDash(name) && !Contains(name[|PREFIX|..], PREFIX)
  }

  lemma KindOfPrefixed(rest: Bytes)
    requires NoDash(rest)
    ensures KindOf(PREFIX + rest) == RemoveAll(Dashes(rest), DASHED)
  {
    DashedPrefix();
    assert Dashes(PREFIX + rest) == DASHED + Dashes(rest);
    assert (DASHED + Dashes(rest))[|DASHED|..] == Dashes(rest);
  }

  lemma BackToUnderscores(s: Bytes)
    requires NoDash(s)
    ensures ReplaceByte(Dashes(s), '-', '_') == s
  {
  }

  /** Turning a resource name into a kind and back gives the same name exactly for such names. */
  lemma NameRoundTrip(name: Bytes)
    ensures ResourceNameOf(KindOf(name)) == name <==> RoundTrips(name)
  {
    var back := ResourceNameOf(KindOf(name));
    DashedPrefix();
    assert NoDash(back);
    if PREFIX <= name && NoDash(name) {
      var rest := name[|PREFIX|..];
      assert name == PREFIX + rest;
      KindOfPrefixed(rest);
      RemoveNothing(Dashes(rest), DASHED);
      DashesContain(rest);
      BackToUnderscores(rest);
    } else {
      assert PREFIX <= back;
    }
  }

  /** So such names have kinds of their own. */
  lemma KindsAreDistinct(n: Bytes, m: Bytes)
    requires RoundTrips(n) && RoundTrips(m) && KindOf(n) == KindOf(m)
    ensures n == m
  {
    NameRoundTrip(n);
    NameRoundTrip(m);
  }

  /** Names that do not may share a kind: a second azurerm_ is lost. */
  lemma KindsMayClash(rest: Bytes)
    requires NoDash(rest)
    ensures KindOf(PREFIX + (PREFIX + rest)) == KindOf(PREFIX + rest)
  {
    DashedPrefix();
    KindOfPrefixed(rest);
    KindOfPrefixed(PREFIX + rest);
  }

  // ---------------------------------------------------------------- the installed kinds

  const GROUP: Bytes := "azurerm.tfb.local"
  const VERSION: Bytes := "valpha1"

  datatype GroupVersionFull = GroupVersionFull(group: Bytes, version: Bytes, kind: Bytes, resource: Bytes)

  function Gv(name: Bytes): GroupVersionFull {
    GroupVersionFull(GROUP, VERSION, KindOf(name), KindOf(name) + "s")
  }

  function CrdName(name: Bytes): Bytes {
    KindOf(name) + "s" + "." + GROUP
  }

  /** The i-th schema ends up as an installed kind: nothing to create, or created without an error. */
  function Installed(roots: seq<Root>, existing: set<Bytes>, skip: bool, creates: nat -> bool): nat -> bool {
    (i: nat) => i < |roots| && (skip || CrdName(roots[i].description) in existing || creates(i))
  }

  /** A resource with such a name is installed as the kind of the rest of it, with dashes. */
  lemma InstalledAs(rest: Bytes)
    requires RoundTrips("azurerm_" + rest)
    ensures var gv, kind := Gv("azurerm_" + rest), KindOf("azurerm_" + rest);
            && |kind| == |rest|
            && (forall i :: 0 <= i < |rest| ==> kind[i] == if rest[i] == '_' then '-' else rest[i])
            && gv == GroupVersionFull("azurerm.tfb.local", "valpha1", kind, kind + "s")
            && CrdName("azurerm_" + rest) == kind + "s.azurerm.tfb.local"
  {
    assert ("azurerm_" + rest)[|PREFIX|..] == rest;
    forall i | 0 <= i < |rest| ensures rest[i] != '-' {
      assert ("azurerm_" + rest)[|PREFIX| + i] == rest[i];
    }
    KindOfPrefixed(rest);
    RemoveNothing(Dashes(rest), DASHED);
    DashesContain(rest);
    CrdNameIs("azurerm_" + rest);
  }

  /** The indices below n for which this holds, in order. */
  function Chosen(ok: nat -> bool, n: nat): (r: seq<nat>)
    ensures |r| <= n && forall j :: 0 <= j < |r| ==> r[j] < n
  {
    if n == 0 then [] else Chosen(ok, n - 1) + if ok(n - 1) then [n - 1] else []
  }

  function Gvs(roots: seq<Root>, indices: seq<nat>): (r: seq<GroupVersionFull>)
    requires forall j :: 0 <= j < |indices| ==> indices[j] < |roots|
    ensures |r| == |indices|
  {
    seq(|indices|, j requires 0 <= j < |indices| => Gv(roots[indices[j]].description))
  }

  /** installOpenAPISchemasAsK8sCRDs; whether the i-th creation succeeds is a parameter. */
  method InstallOpenAPISchemasAsK8sCRDs(roots: seq<Root>, existing: set<Bytes>, skip: bool, creates: nat -> bool)
    returns (gvArray: seq<GroupVersionFull>)
    ensures gvArray == Gvs(roots, Chosen(Installed(roots, existing, skip, creates), |roots|))
  {
    gvArray := [];
    for i := 0 to |roots|
      invariant gvArray == Gvs(roots, Chosen(Installed(roots, existing, skip, creates), i))
    {
      var gvFull := Gv(roots[i].description);
      if !skip && CrdName(roots[i].description) !in existing && !creates(i) {
        continue;
      }
      gvArray := gvArray + [gvFull];
    }
  }

  /** The list is the installed schemas, each once, in order. */
  lemma {:induction false} InstalledInOrder(ok: nat -> bool, n: nat)
    ensures forall j, k :: 0 <= j < k < |Chosen(ok, n)| ==> Chosen(ok, n)[j] < Chosen(ok, n)[k]
    ensures forall i :: 0 <= i < n ==> (i in Chosen(ok, n) <==> ok(i))
  {
    if n > 0 { InstalledInOrder(ok, n - 1); }
  }

  /** A schema is among them exactly if creation is skipped, its kind exists, or it was created. */
  lemma InstalledIff(roots: seq<Root>, existing: set<Bytes>, skip: bool, creates: nat -> bool, i: nat)
    requires i < |roots|
    ensures i in Chosen(Installed(roots, existing, skip, creates), |roots|) <==>
            skip || KindOf(roots[i].description) + "s.azurerm.tfb.local" in existing || creates(i)
  {
    var ok := Installed(roots, existing, skip, creates);
    InstalledInOrder(ok, |roots|);
    CrdNameIs(roots[i].description);
    assert ok(i) <==> skip || CrdName(roots[i].description) in existing || creates(i);
  }

  lemma CrdNameIs(name: Bytes)
    ensures CrdName(name) == KindOf(name) + "s.azurerm.tfb.local"
  {
    var kind := KindOf(name);
    assert kind + "s" + "." + GROUP == kind + "s.azurerm.tfb.local";
  }

  predicate Identity(r: seq<nat>) {
    forall j :: 0 <= j < |r| ==> r[j] == j
  }

  /** No schema that failed comes before one that is installed. */
  predicate FailuresLast(ok: nat -> bool, n: nat) {
    forall i, j :: 0 <= i < j < n && ok(j) ==> ok(i)
  }

  /** The list is aligned with the schemas exactly when failures come last. */
  lemma {:induction false} AlignedIff(ok: nat -> bool, n: nat)
    ensures Identity(Chosen(ok, n)) <==> FailuresLast(ok, n)
    ensures FailuresLast(ok, n) ==> forall i :: 0 <= i < n ==> (ok(i) <==> i < |Chosen(ok, n)|)
  {
    if n > 0 {
      AlignedIff(ok, n - 1);
      var r := Chosen(ok, n - 1);
      assert Chosen(ok, n)[..|r|] == r;
      assert Identity(Chosen(ok, n)) ==> Identity(r);
      assert FailuresLast(ok, n) ==> FailuresLast(ok, n - 1);
      if ok(n - 1) {
        assert Chosen(ok, n)[|r|] == n - 1;
      }
    }
  }

  // ---------------------------------------------------------------- pairing with the schemas

  function Pairing(gvs: seq<GroupVersionFull>, roots: seq<Root>, n: nat): map<GroupVersionFull, Root>
    requires n <= |gvs| <= |roots|
  {
    if n == 0 then map[] else Pairing(gvs, roots, n - 1)[gvs[n - 1] := roots[n - 1]]
  }

  /** setupControllerRuntime: the i-th kind is given the i-th schema. */
  method SetupControllerRuntime(
    gvs: seq<GroupVersionFull>, roots: seq<Root>) returns (gvkToReconcilerMap: map<GroupVersionFull, Root>)
    requires |gvs| <= |roots|
    ensures gvkToReconcilerMap == Pairing(gvs, roots, |gvs|)
  {
    gvkToReconcilerMap := map[];
    for i := 0 to |gvs|
      invariant gvkToReconcilerMap == Pairing(gvs, roots, i)
    {
      gvkToReconcilerMap := gvkToReconcilerMap[gvs[i] := roots[i]];
    }
  }

  lemma {:induction false} PairedByIndex(gvs: seq<GroupVersionFull>, roots: seq<Root>, n: nat)
    requires n <= |gvs| <= |roots|
    requires forall i, j :: 0 <= i < j < |gvs| ==> gvs[i] != gvs[j]
    ensures forall i :: 0 <= i < n ==> gvs[i] in Pairing(gvs, roots, n) && Pairing(gvs, roots, n)[gvs[i]] == roots[i]
  {
    if n > 0 { PairedByIndex(gvs, roots, n - 1); }
  }

  predicate DistinctNames(roots: seq<Root>) {
    && (forall i :: 0 <= i < |roots| ==> RoundTrips(roots[i].description))
    && (forall i, j :: 0 <= i < j < |roots| ==> roots[i].description != roots[j].description)
  }

  lemma SameGvSameIndex(roots: seq<Root>, i: nat, j: nat)
    requires DistinctNames(roots) && i < |roots| && j < |roots| && Gv(roots[i].description) == Gv(roots[j].description)
    ensures i == j
  {
    KindsAreDistinct(roots[i].description, roots[j].description);
  }

  /** Every kind is handled with the schema it was made from. */
  predicate OwnSchemas(roots: seq<Root>, indices: seq<nat>)
    requires |indices| <= |roots| && forall j :: 0 <= j < |indices| ==> indices[j] < |roots|
  {
    var gvs := Gvs(roots, indices);
    forall j :: 0 <= j < |gvs| ==>
      gvs[j] in Pairing(gvs, roots, |gvs|) && Gv(Pairing(gvs, roots, |gvs|)[gvs[j]].description) == gvs[j]
  }

  lemma ChosenGvs(roots: seq<Root>, ok: nat -> bool)
    requires DistinctNames(roots)
    ensures var r := Chosen(ok, |roots|);
            var gvs := Gvs(roots, r);
            && (forall i, j :: 0 <= i < j < |gvs| ==> gvs[i] != gvs[j])
            && (forall j :: 0 <= j < |r| ==> (Gv(roots[j].description) == gvs[j] <==> r[j] == j))
  {
    var r := Chosen(ok, |roots|);
    var gvs := Gvs(roots, r);
    InstalledInOrder(ok, |roots|);
    forall i, j | 0 <= i < j < |gvs| ensures gvs[i] != gvs[j] {
      if gvs[i] == gvs[j] { SameGvSameIndex(roots, r[i], r[j]); }
    }
    forall j | 0 <= j < |r| ensures Gv(roots[j].description) == gvs[j] <==> r[j] == j {
      if Gv(roots[j].description) == gvs[j] { SameGvSameIndex(roots, j, r[j]); }
    }
  }

  lemma OwnAt(roots: seq<Root>, gvs: seq<GroupVersionFull>, j: nat)
    requires j < |gvs| <= |roots| && forall i, k :: 0 <= i < k < |gvs| ==> gvs[i] != gvs[k]
    ensures gvs[j] in Pairing(gvs, roots, |gvs|) && Pairing(gvs, roots, |gvs|)[gvs[j]] == roots[j]
  {
    PairedByIndex(gvs, roots, |gvs|);
  }

  lemma OwnIffIdentity(roots: seq<Root>, r: seq<nat>, gvs: seq<GroupVersionFull>)
    requires |r| <= |roots| && (forall j :: 0 <= j < |r| ==> r[j] < |roots|) && gvs == Gvs(roots, r)
    requires forall i, j :: 0 <= i < j < |gvs| ==> gvs[i] != gvs[j]
    requires forall j :: 0 <= j < |r| ==> (Gv(roots[j].description) == gvs[j] <==> r[j] == j)
    ensures OwnSchemas(roots, r) <==> Identity(r)
  {
    forall j | 0 <= j < |gvs|
      ensures gvs[j] in Pairing(gvs, roots, |gvs|) && Pairing(gvs, roots, |gvs|)[gvs[j]] == roots[j]
    {
      OwnAt(roots, gvs, j);
    }
  }

  /** Pairing by index is right exactly when no failed creation comes before a kind that is installed. */
  lemma OwnSchemasIff(roots: seq<Root>, ok: nat -> bool)
    requires DistinctNames(roots)
    ensures OwnSchemas(roots, Chosen(ok, |roots|)) <==> FailuresLast(ok, |roots|)
  {
    var r := Chosen(ok, |roots|);
    ChosenGvs(roots, ok);
    OwnIffIdentity(roots, r, Gvs(roots, r));
    AlignedIff(ok, |roots|);
  }
}
