/**
 Reading a status back: what is shown for an attribute determines the value that was shown, but
 for nulls, which look like the zero value of their type, and for what is in a map
 (reconcile.go:719-830).
 */
module StatusReading {
  import opened GoStrings
  import opened Cty
  import opened StateCodec
  import opened StatusMapping

  /** Strings, booleans, numbers, and lists and sets of these. */
  predicate Plain(t: Type) {
    match t
    case TString => true
    case TBool => true
    case TNumber => true
    case TList(e) => Plain(e)
    case TSet(e) => Plain(e)
    case _ => false
  }

  predicate HasType(v: Value, t: Type)
    decreases t
  {
    v == NullV(t) ||
    match t
    case TString => v.StringV?
    case TBool => v.BoolV?
    case TNumber => v.NumberV?
    case TList(e) => v.ListV? && v.listElem == e && forall i :: 0 <= i < |v.items| ==> HasType(v.items[i], e)
    case TSet(e) => v.SetV? && v.setElem == e && forall m :: m in v.members ==> HasType(m, e)
    case _ => false
  }

  /** The value that a shown attribute stands for; sensitive texts are decoded first. */
  function ReadBack(codec: Codec, sensitive: bool, t: Type, j: Json): Value
    decreases t, 0
  {
    match t
    case TString => if j.JString? then StringV(TextOf(codec, sensitive, j.text)) else NullV(t)
    case TBool => if j.JBool? then BoolV(j.flag) else NullV(t)
    case TNumber => if j.JNumber? then NumberV(j.number) else NullV(t)
    case TList(e) => if j.JArray? then ListV(e, ReadAll(codec, sensitive, e, j.items)) else NullV(t)
    case TSet(e) => if j.JArray? then SetV(e, Elements(ReadAll(codec, sensitive, e, j.items))) else NullV(t)
    case _ => NullV(t)
  }

  function ReadAll(codec: Codec, sensitive: bool, e: Type, items: seq<Json>): seq<Value>
    decreases e, 1
  {
    seq(|items|, i requires 0 <= i < |items| => ReadBack(codec, sensitive, e, items[i]))
  }

  function Elements(values: seq<Value>): set<Value> {
    set i | 0 <= i < |values| :: values[i]
  }

  function TextOf(codec: Codec, sensitive: bool, text: Bytes): Bytes {
    if !sensitive then text
    else
      match DecodeAndDecrypt(codec, text)
      case Ok(plain) => plain
      case Err(_) => text
  }

  /** The value with its nulls replaced: by no text, false, zero and no elements. */
  function Zeroed(t: Type, v: Value): Value
    decreases t, 0
  {
    match t
    case TString => if v.NullV? then StringV("") else v
    case TBool => if v.NullV? then BoolV(false) else v
    case TNumber => if v.NullV? then NumberV(0.0) else v
    case TList(e) =>
      if v.ListV? then ListV(e, seq(|v.items|, i requires 0 <= i < |v.items| => Zeroed(e, v.items[i])))
      else ListV(e, [])
    case TSet(e) => if v.SetV? then SetV(e, ZeroedAll(e, v.members)) else SetV(e, {})
    case _ => v
  }

  function ZeroedAll(e: Type, members: set<Value>): set<Value>
    decreases e, 1
  {
    set m | m in members :: Zeroed(e, m)
  }

  /** No null in it: a sensitive null is shown as the empty text, which is not an encoded one. */
  predicate NoNulls(t: Type, v: Value)
    decreases t
  {
    !v.NullV? &&
    match t
    case TList(e) => v.ListV? ==> forall i :: 0 <= i < |v.items| ==> NoNulls(e, v.items[i])
    case TSet(e) => v.SetV? ==> forall m :: m in v.members ==> NoNulls(e, m)
    case _ => true
  }

  /** What is shown is read back as the value, with nulls replaced. */
  lemma {:induction false} ShownIsReadBack(codec: Codec, sensitive: bool, t: Type, v: Value, j: Json)
    requires Plain(t) && HasType(v, t) && ShowsAttribute(codec, sensitive, v, j)
    requires sensitive ==> NoNulls(t, v)
    ensures ReadBack(codec, sensitive, t, j) == Zeroed(t, v)
    decreases t, 1
  {
    match t
    case TList(e) =>
      if v.ListV? {
        forall i | 0 <= i < |v.items|
          ensures ReadAll(codec, sensitive, e, j.items)[i] == Zeroed(e, v.items[i])
        {
          ShownIsReadBack(codec, sensitive, e, v.items[i], j.items[i]);
        }
      }
    case TSet(e) => if v.SetV? { SetIsReadBack(codec, sensitive, e, v, j.items); }
    case _ =>
  }

  lemma {:induction false} SetIsReadBack(codec: Codec, sensitive: bool, e: Type, v: Value, items: seq<Json>)
    requires Plain(e) && v.SetV? && HasType(v, TSet(e)) && ShowsAttribute(codec, sensitive, v, JArray(items))
    requires sensitive ==> NoNulls(TSet(e), v)
    ensures ReadBack(codec, sensitive, TSet(e), JArray(items)) == Zeroed(TSet(e), v)
    decreases e, 3
  {
    var order: seq<Value> :| Enumerates(order, v.members) && ShowsInOrder(codec, sensitive, order, v, items);
    AllReadBack(codec, sensitive, e, v, order, items);
    SameImages(e, order, v.members, ReadAll(codec, sensitive, e, items));
    assert ReadBack(codec, sensitive, TSet(e), JArray(items)) ==
           SetV(e, Elements(ReadAll(codec, sensitive, e, items)));
  }

  lemma {:induction false} AllReadBack(
    codec: Codec, sensitive: bool, e: Type, v: Value, order: seq<Value>, items: seq<Json>)
    requires Plain(e) && v.SetV? && HasType(v, TSet(e)) && (sensitive ==> NoNulls(TSet(e), v))
    requires Enumerates(order, v.members) && ShowsInOrder(codec, sensitive, order, v, items)
    ensures |items| == |order|
    ensures forall i :: 0 <= i < |items| ==> ReadAll(codec, sensitive, e, items)[i] == Zeroed(e, order[i])
    decreases e, 2
  {
    forall i | 0 <= i < |items| ensures ReadAll(codec, sensitive, e, items)[i] == Zeroed(e, order[i]) {
      MemberIsShown(codec, sensitive, e, v, order, items, i);
      ShownIsReadBack(codec, sensitive, e, order[i], items[i]);
    }
  }

  lemma MemberIsShown(
    codec: Codec, sensitive: bool, e: Type, v: Value, order: seq<Value>, items: seq<Json>, i: nat)
    requires v.SetV? && HasType(v, TSet(e)) && (sensitive ==> NoNulls(TSet(e), v))
    requires Enumerates(order, v.members) && ShowsInOrder(codec, sensitive, order, v, items) && i < |items|
    ensures HasType(order[i], e) && ShowsAttribute(codec, sensitive, order[i], items[i])
    ensures sensitive ==> NoNulls(e, order[i])
  {
    assert order[i] in v.members;
  }

  lemma SameImages(e: Type, order: seq<Value>, members: set<Value>, read: seq<Value>)
    requires Enumerates(order, members) && |read| == |order|
    requires forall i :: 0 <= i < |read| ==> read[i] == Zeroed(e, order[i])
    ensures Elements(read) == ZeroedAll(e, members)
  {
    forall m | m in members ensures Zeroed(e, m) in Elements(read) {
      var i :| 0 <= i < |order| && order[i] == m;
      assert read[i] in Elements(read);
    }
  }

  /** So two states that are shown alike differ in nulls only. */
  lemma ShownAlike(codec: Codec, sensitive: bool, t: Type, v: Value, w: Value, j: Json)
    requires Plain(t) && HasType(v, t) && HasType(w, t) && (sensitive ==> NoNulls(t, v) && NoNulls(t, w))
    requires ShowsAttribute(codec, sensitive, v, j) && ShowsAttribute(codec, sensitive, w, j)
    ensures Zeroed(t, v) == Zeroed(t, w)
  {
    ShownIsReadBack(codec, sensitive, t, v, j);
    ShownIsReadBack(codec, sensitive, t, w, j);
  }
}
