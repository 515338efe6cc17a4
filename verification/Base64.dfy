/**
 Standard base64 with padding (section 4 of RFC 4648), as Go's base64.StdEncoding reads and
 writes it: the decoder skips line breaks, wants whole groups of four, allows padding in the
 last group only, and does not look at the bits that padding leaves over.
 */
module Base64 {
  import opened GoStrings

  type Sextet = n: int | 0 <= n < 64

  function EncodeSextet(n: Sextet): Byte {
    if n < 26 then ByteOf(65 + n)
    else if n < 52 then ByteOf(71 + n)
    else if n < 62 then ByteOf(n - 4)
    else if n == 62 then '+'
    else '/'
  }

  function DecodeSextet(c: Byte): (n: Option<int>)
    ensures n.Some? ==> 0 <= n.value < 64
  {
    var n := c as int;
    if 'A' <= c <= 'Z' then Some(n - 65)
    else if 'a' <= c <= 'z' then Some(n - 71)
    else if '0' <= c <= '9' then Some(n + 4)
    else if c == '+' then Some(62)
    else if c == '/' then Some(63)
    else None
  }

  /** The alphabet of the standard: capital letters, small letters, digits, plus and slash. */
  lemma SextetIsLetter(n: Sextet)
    ensures var letter := EncodeSextet(n);
            if n < 26 then letter as int - 'A' as int == n && letter <= 'Z'
            else if n < 52 then letter as int - 'a' as int == n - 26 && letter <= 'z'
            else if n < 62 then letter as int - '0' as int == n - 52 && letter <= '9'
            else letter == if n == 62 then '+' else '/'
  {
  }

  lemma SextetRoundTrip(n: Sextet)
    ensures DecodeSextet(EncodeSextet(n)) == Some(n)
    ensures EncodeSextet(n) != '=' && EncodeSextet(n) != '\r' && EncodeSextet(n) != '\n'
  {
  }

  // The four sextets of three bytes given as numbers.
  function First(x: int): Sextet requires 0 <= x < 256 { x / 4 }
  function Second(x: int, y: int): Sextet requires 0 <= x < 256 && 0 <= y < 256 { x % 4 * 16 + y / 16 }
  function Third(y: int, z: int): Sextet requires 0 <= y < 256 && 0 <= z < 256 { y % 16 * 4 + z / 64 }
  function Fourth(z: int): Sextet requires 0 <= z < 256 { z % 64 }

  /** One, two or three bytes as a group of four characters; missing bytes count as zero. */
  function EncodeGroup(data: Bytes): (text: Bytes)
    requires 1 <= |data| <= 3
    ensures |text| == 4
  {
    var x := data[0] as int;
    if |data| == 1 then
      [EncodeSextet(First(x)), EncodeSextet(Second(x, 0)), '=', '=']
    else
      var y := data[1] as int;
      if |data| == 2 then
        [EncodeSextet(First(x)), EncodeSextet(Second(x, y)), EncodeSextet(Third(y, 0)), '=']
      else
        var z := data[2] as int;
        [EncodeSextet(First(x)), EncodeSextet(Second(x, y)), EncodeSextet(Third(y, z)), EncodeSextet(Fourth(z))]
  }

  function Encode(data: Bytes): Bytes
    decreases |data|
  {
    if |data| == 0 then []
    else if |data| <= 3 then EncodeGroup(data)
    else EncodeGroup(data[..3]) + Encode(data[3..])
  }

  /** Three bytes as one number, the first byte highest; missing bytes count as zero. */
  function GroupNumber(data: Bytes): nat
    requires 1 <= |data| <= 3
  {
    data[0] as int * 65536
    + (if |data| > 1 then data[1] as int * 256 else 0)
    + (if |data| > 2 then data[2] as int else 0)
  }

  /** The four digits of a number to base 64. */
  function DigitsOf(v: nat): (digits: seq<Sextet>)
    requires v < 16777216
    ensures |digits| == 4
  {
    [v / 64 / 64 / 64, v / 64 / 64 % 64, v / 64 % 64, v % 64]
  }

  /** The characters of a group are these digits of its number, and padding for what is missing. */
  lemma GroupIsNumber(data: Bytes)
    requires 1 <= |data| <= 3
    ensures var text, digits := EncodeGroup(data), DigitsOf(GroupNumber(data));
            && text[0] == EncodeSextet(digits[0]) && text[1] == EncodeSextet(digits[1])
            && text[2] == (if |data| > 1 then EncodeSextet(digits[2]) else '=')
            && text[3] == (if |data| > 2 then EncodeSextet(digits[3]) else '=')
  {
    var x := data[0] as int;
    var y := if |data| > 1 then data[1] as int else 0;
    var z := if |data| > 2 then data[2] as int else 0;
    Digits(x, y, z);
    assert GroupNumber(data) == x * 65536 + y * 256 + z;
  }

  function Number(p: Sextet, q: Sextet, r: Sextet, s: Sextet): (v: nat)
    ensures v < 16777216
  {
    ((p * 64 + q) * 64 + r) * 64 + s
  }

  lemma DigitsOfNumber(p: Sextet, q: Sextet, r: Sextet, s: Sextet)
    ensures DigitsOf(Number(p, q, r, s)) == [p, q, r, s]
  {
    LastDigit((p * 64 + q) * 64 + r, s);
    LastDigit(p * 64 + q, r);
    LastDigit(p, q);
  }

  lemma SameNumber(x: int, y: int, z: int)
    requires 0 <= x < 256 && 0 <= y < 256 && 0 <= z < 256
    ensures Number(First(x), Second(x, y), Third(y, z), Fourth(z)) == x * 65536 + y * 256 + z
  {
    assert x == First(x) * 4 + x % 4 && y == y / 16 * 16 + y % 16 && z == z / 64 * 64 + Fourth(z);
  }

  lemma Digits(x: int, y: int, z: int)
    requires 0 <= x < 256 && 0 <= y < 256 && 0 <= z < 256
    ensures DigitsOf(x * 65536 + y * 256 + z) == [First(x), Second(x, y), Third(y, z), Fourth(z)]
  {
    SameNumber(x, y, z);
    DigitsOfNumber(First(x), Second(x, y), Third(y, z), Fourth(z));
  }

  lemma LastDigit(high: nat, low: nat)
    requires low < 64
    ensures (high * 64 + low) / 64 == high && (high * 64 + low) % 64 == low
  {
  }

  /** The text is that of its groups, in order. */
  lemma {:induction false} EncodedGroups(data: Bytes, n: nat)
    requires 3 * n < |data|
    ensures 4 * n + 4 <= |Encode(data)| && Encode(data)[4 * n..4 * n + 4] == EncodeGroup(GroupAt(data, n))
    decreases |data|
  {
    if |data| <= 3 {
      assert GroupAt(data, n) == data && Encode(data)[0..4] == EncodeGroup(data);
    } else if n == 0 {
      var head, tail := EncodeGroup(data[..3]), Encode(data[3..]);
      assert GroupAt(data, n) == data[..3] && (head + tail)[0..4] == head;
    } else {
      EncodedGroups(data[3..], n - 1);
      GroupShifts(data, n);
      LaterGroup(EncodeGroup(data[..3]), Encode(data[3..]), n);
    }
  }

  /** The n-th three bytes, or what is left of them. */
  function GroupAt(data: Bytes, n: nat): (group: Bytes)
    requires 3 * n < |data|
    ensures 1 <= |group| <= 3
  {
    data[3 * n..if 3 * n + 3 < |data| then 3 * n + 3 else |data|]
  }

  lemma GroupShifts(data: Bytes, n: nat)
    requires 0 < n && 3 * n < |data|
    ensures GroupAt(data, n) == GroupAt(data[3..], n - 1)
  {
    var rest, from := data[3..], 3 * (n - 1);
    var end := if from + 3 < |rest| then from + 3 else |rest|;
    assert data == data[..3] + rest;
    LaterPart(data[..3], rest, from, end);
  }

  lemma LaterGroup(head: Bytes, tail: Bytes, n: nat)
    requires |head| == 4 && 0 < n && 4 * (n - 1) + 4 <= |tail|
    ensures (head + tail)[4 * n..4 * n + 4] == tail[4 * (n - 1)..4 * (n - 1) + 4]
  {
    LaterPart(head, tail, 4 * (n - 1), 4 * (n - 1) + 4);
  }

  predicate IsLineBreak(c: Byte) {
    c == '\r' || c == '\n'
  }

  function SkipLineBreaks(text: Bytes): Bytes {
    if text == [] then []
    else if IsLineBreak(text[0]) then SkipLineBreaks(text[1..])
    else [text[0]] + SkipLineBreaks(text[1..])
  }

  /** A group of four characters; padding is for the last group. */
  function DecodeGroup(text: Bytes, last: bool): Result<Bytes>
    requires |text| == 4
  {
    match (DecodeSextet(text[0]), DecodeSextet(text[1]), DecodeSextet(text[2]), DecodeSextet(text[3]))
    case (Some(a), Some(b), Some(c), Some(d)) =>
      Ok([ByteOf(a * 4 + b / 16), ByteOf(b % 16 * 16 + c / 4), ByteOf(c % 4 * 64 + d)])
    case (Some(a), Some(b), Some(c), None) =>
      if text[3] == '=' && last then Ok([ByteOf(a * 4 + b / 16), ByteOf(b % 16 * 16 + c / 4)])
      else Err("illegal base64 data")
    case (Some(a), Some(b), None, None) =>
      if text[2] == '=' && text[3] == '=' && last then Ok([ByteOf(a * 4 + b / 16)])
      else Err("illegal base64 data")
    case (_, _, _, _) => Err("illegal base64 data")
  }

  function DecodeGroups(text: Bytes): Result<Bytes>
    decreases |text|
  {
    if |text| == 0 then Ok([])
    else if |text| < 4 then Err("illegal base64 data")
    else
      var head := DecodeGroup(text[..4], |text| == 4);
      var tail := DecodeGroups(text[4..]);
      if head.Err? then head
      else if tail.Err? then tail
      else Ok(head.value + tail.value)
  }

  function Decode(text: Bytes): Result<Bytes> {
    DecodeGroups(SkipLineBreaks(text))
  }

  lemma {:induction false} EncodedHasNoLineBreaks(data: Bytes)
    ensures forall i :: 0 <= i < |Encode(data)| ==> !IsLineBreak(Encode(data)[i])
    decreases |data|
  {
    if |data| > 3 {
      EncodedHasNoLineBreaks(data[3..]);
    }
  }

  lemma {:induction false} NothingToSkip(text: Bytes)
    requires forall i :: 0 <= i < |text| ==> !IsLineBreak(text[i])
    ensures SkipLineBreaks(text) == text
  {
    if text != [] {
      assert !IsLineBreak(text[0]);
      NothingToSkip(text[1..]);
    }
  }

  /** Three bytes, as numbers, cut into sextets and put together again. */
  lemma Regroup(x: int, y: int, z: int)
    requires 0 <= x < 256 && 0 <= y < 256 && 0 <= z < 256
    ensures First(x) * 4 + Second(x, y) / 16 == x
    ensures Second(x, y) % 16 * 16 + Third(y, z) / 4 == y
    ensures Third(y, z) % 4 * 64 + Fourth(z) == z
  {
    var (x1, x0, y1, y0, z1, z0) := (x / 4, x % 4, y / 16, y % 16, z / 64, z % 64);
    assert (x0 * 16 + y1) / 16 == x0 && (x0 * 16 + y1) % 16 == y1;
    assert (y0 * 4 + z1) / 4 == y0 && (y0 * 4 + z1) % 4 == z1;
  }

  lemma DecodeSextets(p: Sextet, q: Sextet, r: Sextet, s: Sextet, last: bool)
    ensures DecodeGroup([EncodeSextet(p), EncodeSextet(q), EncodeSextet(r), EncodeSextet(s)], last)
            == Ok([ByteOf(p * 4 + q / 16), ByteOf(q % 16 * 16 + r / 4), ByteOf(r % 4 * 64 + s)])
    ensures DecodeGroup([EncodeSextet(p), EncodeSextet(q), EncodeSextet(r), '='], true)
            == Ok([ByteOf(p * 4 + q / 16), ByteOf(q % 16 * 16 + r / 4)])
    ensures DecodeGroup([EncodeSextet(p), EncodeSextet(q), '=', '='], true) == Ok([ByteOf(p * 4 + q / 16)])
  {
    SextetRoundTrip(p);
    SextetRoundTrip(q);
    SextetRoundTrip(r);
    SextetRoundTrip(s);
    assert DecodeSextet('=') == None;
  }

  lemma GroupOfOne(a: Byte)
    ensures DecodeGroup(EncodeGroup([a]), true) == Ok([a])
  {
    var x := a as int;
    Regroup(x, 0, 0);
    DecodeSextets(First(x), Second(x, 0), 0, 0, true);
  }

  lemma GroupOfTwo(a: Byte, b: Byte)
    ensures DecodeGroup(EncodeGroup([a, b]), true) == Ok([a, b])
  {
    var (x, y) := (a as int, b as int);
    Regroup(x, y, 0);
    DecodeSextets(First(x), Second(x, y), Third(y, 0), 0, true);
  }

  lemma GroupOfThree(a: Byte, b: Byte, c: Byte, last: bool)
    ensures DecodeGroup(EncodeGroup([a, b, c]), last) == Ok([a, b, c])
  {
    var (x, y, z) := (a as int, b as int, c as int);
    Regroup(x, y, z);
    DecodeSextets(First(x), Second(x, y), Third(y, z), Fourth(z), last);
  }

  lemma GroupRoundTrip(data: Bytes, last: bool)
    requires 1 <= |data| <= 3 && (|data| < 3 ==> last)
    ensures DecodeGroup(EncodeGroup(data), last) == Ok(data)
  {
    if |data| == 1 {
      GroupOfOne(data[0]);
      assert data == [data[0]];
    } else if |data| == 2 {
      GroupOfTwo(data[0], data[1]);
      assert data == [data[0], data[1]];
    } else {
      GroupOfThree(data[0], data[1], data[2], last);
      assert data == [data[0], data[1], data[2]];
    }
  }

  lemma {:induction false} GroupsRoundTrip(data: Bytes)
    ensures DecodeGroups(Encode(data)) == Ok(data)
    decreases |data|
  {
    if 0 < |data| <= 3 {
      GroupRoundTrip(data, true);
      assert Encode(data)[..4] == Encode(data) && Encode(data)[4..] == [];
      assert data + [] == data;
    } else if |data| > 3 {
      var head, tail := EncodeGroup(data[..3]), Encode(data[3..]);
      GroupRoundTrip(data[..3], false);
      GroupsRoundTrip(data[3..]);
      assert (head + tail)[..4] == head && (head + tail)[4..] == tail;
      assert data[..3] + data[3..] == data;
    }
  }

  lemma RoundTrip(data: Bytes)
    ensures Decode(Encode(data)) == Ok(data)
  {
    EncodedHasNoLineBreaks(data);
    NothingToSkip(Encode(data));
    GroupsRoundTrip(data);
  }
}
