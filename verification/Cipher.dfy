/**
 The state cipher of cipher.go: padding to the AES block size (section 6.3 of RFC 5652) and
 CFB mode with full-block segments (section 6.3 of NIST SP 800-38A), the last segment taken as
 long as the data that is left.  The AES block function is an arbitrary function from blocks
 to blocks: CFB never needs its inverse.  The initialisation vector is any block.
 */
module Cipher {
  import opened GoStrings

  const BLOCK_SIZE := 16

  type Block = s: Bytes | |s| == BLOCK_SIZE witness "aaaaaaaaaaaaaaaa"

  // ---------------------------------------------------------------- exclusive or

  function XorBits(a: nat, b: nat, bits: nat): (r: nat)
    decreases bits
  {
    if bits == 0 then 0
    else (if a % 2 == b % 2 then 0 else 1) + 2 * XorBits(a / 2, b / 2, bits - 1)
  }

  function Pow2(n: nat): nat {
    if n == 0 then 1 else 2 * Pow2(n - 1)
  }

  lemma {:induction false} XorBitsBound(a: nat, b: nat, bits: nat)
    ensures XorBits(a, b, bits) < Pow2(bits)
  {
    if bits > 0 { XorBitsBound(a / 2, b / 2, bits - 1); }
  }

  lemma {:induction false} XorBitsTwice(a: nat, b: nat, bits: nat)
    requires a < Pow2(bits)
    ensures XorBits(XorBits(a, b, bits), b, bits) == a
  {
    if bits > 0 {
      XorBitsTwice(a / 2, b / 2, bits - 1);
      var r := XorBits(a / 2, b / 2, bits - 1);
      assert XorBits(a, b, bits) / 2 == r;
    }
  }

  /** The i-th bit of a number, the lowest first. */
  function Bit(a: nat, i: nat): (r: nat)
    ensures r < 2
    decreases i
  {
    if i == 0 then a % 2 else Bit(a / 2, i - 1)
  }

  lemma {:induction false} BitIsQuotient(a: nat, i: nat)
    ensures Pow2(i) > 0 && Bit(a, i) == a / Pow2(i) % 2
    decreases i
  {
    if i > 0 {
      BitIsQuotient(a / 2, i - 1);
      DivideTwice(a, Pow2(i - 1));
    }
  }

  lemma DivideTwice(a: nat, n: nat)
    requires n > 0
    ensures a / 2 / n == a / (2 * n)
  {
    var q, r := a / (2 * n), a % (2 * n);
    assert a == 2 * (n * q) + r;
    assert a / 2 == n * q + r / 2;
    assert r / 2 < n;
    assert (n * q + r / 2) / n == q by { QuotientOf(n, q, r / 2); }
  }

  lemma QuotientOf(n: nat, q: nat, r: nat)
    requires r < n
    ensures (n * q + r) / n == q
  {
    var m := n * q + r;
    assert m == n * (m / n) + m % n;
    if m / n < q {
      TimesLess(n, m / n, q);
    } else if m / n > q {
      TimesLess(n, q, m / n);
    }
  }

  lemma TimesLess(n: nat, a: nat, b: nat)
    requires a < b
    ensures n * a + n <= n * b
  {
    assert n * (a + 1) <= n * b;
  }

  /** Each bit of the result says whether the two bits differ. */
  lemma {:induction false} XorBitsBit(a: nat, b: nat, bits: nat, i: nat)
    requires i < bits
    ensures Bit(XorBits(a, b, bits), i) == 1 <==> Bit(a, i) != Bit(b, i)
    decreases bits
  {
    var rest := XorBits(a / 2, b / 2, bits - 1);
    assert XorBits(a, b, bits) / 2 == rest;
    if i > 0 { XorBitsBit(a / 2, b / 2, bits - 1, i - 1); }
  }

  /** The same with division: bit i of the exclusive or of two bytes is set if and only if theirs differ. */
  lemma XorByteBit(a: Byte, b: Byte, i: nat)
    requires i < 8
    ensures Pow2(i) > 0
    ensures XorByte(a, b) as int / Pow2(i) % 2 == 1 <==> a as int / Pow2(i) % 2 != b as int / Pow2(i) % 2
  {
    BitIsQuotient(XorByte(a, b) as int, i);
    BitIsQuotient(a as int, i);
    BitIsQuotient(b as int, i);
    XorBitsBit(a as int, b as int, 8, i);
  }

  lemma {:induction false} XorBitsBack(a: nat, b: nat, bits: nat)
    requires b < Pow2(bits)
    ensures XorBits(XorBits(a, b, bits), a, bits) == b
  {
    if bits > 0 {
      XorBitsBack(a / 2, b / 2, bits - 1);
      assert XorBits(a, b, bits) / 2 == XorBits(a / 2, b / 2, bits - 1);
    }
  }

  lemma XorByteBack(a: Byte, b: Byte)
    ensures XorByte(XorByte(a, b), a) == b
  {
    assert Pow2(8) == 256;
    XorBitsBack(a as int, b as int, 8);
  }

  function XorByte(a: Byte, b: Byte): (r: Byte) {
    XorBitsBound(a as int, b as int, 8);
    assert Pow2(8) == 256;
    ByteOf(XorBits(a as int, b as int, 8))
  }

  lemma XorByteTwice(a: Byte, b: Byte)
    ensures XorByte(XorByte(a, b), b) == a
  {
    assert Pow2(8) == 256;
    XorBitsTwice(a as int, b as int, 8);
  }

  /** Exclusive or of the data with as much of the key stream block as the data needs. */
  function Xor(data: Bytes, key: Bytes): (r: Bytes)
    requires |data| <= |key|
    ensures |r| == |data|
  {
    seq(|data|, i requires 0 <= i < |data| => XorByte(data[i], key[i]))
  }

  lemma XorTwice(data: Bytes, key: Bytes)
    requires |data| <= |key|
    ensures Xor(Xor(data, key), key) == data
  {
    forall i | 0 <= i < |data| ensures Xor(Xor(data, key), key)[i] == data[i] {
      XorByteTwice(data[i], key[i]);
    }
  }

  // ---------------------------------------------------------------- padding

  function Pad(text: Bytes): (padded: Bytes)
    ensures text <= padded
    ensures |padded| % BLOCK_SIZE == 0 && |text| < |padded| <= |text| + BLOCK_SIZE
    ensures forall i :: |text| <= i < |padded| ==> padded[i] as int == |padded| - |text|
  {
    var paddingSize := BLOCK_SIZE - |text| % BLOCK_SIZE;
    text + seq(paddingSize, _ => ByteOf(paddingSize))
  }

  /** text[length-1] is a run-time panic on the empty text, hence the requires. */
  function Unpad(text: Bytes): (r: Result<Bytes>)
    requires |text| > 0
  {
    var paddingSize := text[|text| - 1] as int;
    if paddingSize > |text| then Err("unpad error")
    else Ok(text[..|text| - paddingSize])
  }

  lemma UnpadPad(text: Bytes)
    ensures Unpad(Pad(text)) == Ok(text)
  {
    var padded := Pad(text);
    assert padded[|padded| - 1] as int == |padded| - |text|;
    assert padded[..|text|] == text;
  }

  /** The last byte says how much is taken off; it is refused if that is more than there is. */
  lemma UnpadIff(text: Bytes, rest: Bytes)
    requires text != []
    ensures Unpad(text) == Ok(rest) <==> rest <= text && |rest| + text[|text| - 1] as int == |text|
    ensures Unpad(text).Err? <==> text[|text| - 1] as int > |text|
  {
    if rest <= text { assert rest == text[..|rest|]; }
  }

  // ---------------------------------------------------------------- CFB mode

  function CfbEncrypt(block: Block -> Block, iv: Block, plain: Bytes): (cipher: Bytes)
    ensures |cipher| == |plain|
    decreases |plain|
  {
    if |plain| < BLOCK_SIZE then Xor(plain, block(iv))
    else
      var c := Xor(plain[..BLOCK_SIZE], block(iv));
      c + CfbEncrypt(block, c, plain[BLOCK_SIZE..])
  }

  function CfbDecrypt(block: Block -> Block, iv: Block, cipher: Bytes): (plain: Bytes)
    ensures |plain| == |cipher|
    decreases |cipher|
  {
    if |cipher| < BLOCK_SIZE then Xor(cipher, block(iv))
    else
      Xor(cipher[..BLOCK_SIZE], block(iv)) + CfbDecrypt(block, cipher[..BLOCK_SIZE], cipher[BLOCK_SIZE..])
  }

  lemma {:induction false} DecryptEncrypt(block: Block -> Block, iv: Block, plain: Bytes)
    ensures CfbDecrypt(block, iv, CfbEncrypt(block, iv, plain)) == plain
    decreases |plain|
  {
    if |plain| < BLOCK_SIZE {
      XorTwice(plain, block(iv));
    } else {
      var c := Xor(plain[..BLOCK_SIZE], block(iv));
      var rest := CfbEncrypt(block, c, plain[BLOCK_SIZE..]);
      assert (c + rest)[..BLOCK_SIZE] == c && (c + rest)[BLOCK_SIZE..] == rest;
      XorTwice(plain[..BLOCK_SIZE], block(iv));
      DecryptEncrypt(block, c, plain[BLOCK_SIZE..]);
      assert plain == plain[..BLOCK_SIZE] + plain[BLOCK_SIZE..];
    }
  }

  lemma {:induction false} EncryptDecrypt(block: Block -> Block, iv: Block, cipher: Bytes)
    ensures CfbEncrypt(block, iv, CfbDecrypt(block, iv, cipher)) == cipher
    decreases |cipher|
  {
    if |cipher| < BLOCK_SIZE {
      XorTwice(cipher, block(iv));
    } else {
      var c := cipher[..BLOCK_SIZE];
      var p := Xor(c, block(iv));
      var rest := CfbDecrypt(block, c, cipher[BLOCK_SIZE..]);
      assert (p + rest)[..BLOCK_SIZE] == p && (p + rest)[BLOCK_SIZE..] == rest;
      XorTwice(c, block(iv));
      EncryptDecrypt(block, c, cipher[BLOCK_SIZE..]);
      assert cipher == c + cipher[BLOCK_SIZE..];
    }
  }

  /** Where the n-th segment of data begins and ends. */
  function SegmentEnd(data: Bytes, n: nat): (end: nat)
    requires n * BLOCK_SIZE <= |data|
    ensures n * BLOCK_SIZE <= end <= |data| && end <= (n + 1) * BLOCK_SIZE
  {
    if |data| < (n + 1) * BLOCK_SIZE then |data| else (n + 1) * BLOCK_SIZE
  }

  function Segment(data: Bytes, n: nat): Bytes
    requires n * BLOCK_SIZE <= |data|
  {
    data[n * BLOCK_SIZE..SegmentEnd(data, n)]
  }

  /** What is encrypted for the n-th segment: the ciphertext segment before it, or the vector. */
  function Feedback(iv: Block, cipher: Bytes, n: nat): Block
    requires n * BLOCK_SIZE <= |cipher|
  {
    if n == 0 then iv else cipher[(n - 1) * BLOCK_SIZE..n * BLOCK_SIZE]
  }

  lemma XorBack(data: Bytes, key: Bytes)
    requires |data| <= |key|
    ensures Xor(Xor(data, key), data) == key[..|data|]
  {
    forall i | 0 <= i < |data| ensures Xor(Xor(data, key), data)[i] == key[i] {
      XorByteBack(data[i], key[i]);
    }
  }

  lemma SegmentShifts(first: Bytes, rest: Bytes, n: nat)
    requires |first| == BLOCK_SIZE && 0 < n && (n - 1) * BLOCK_SIZE <= |rest|
    ensures Segment(first + rest, n) == Segment(rest, n - 1)
  {
    var data, from, end := first + rest, (n - 1) * BLOCK_SIZE, SegmentEnd(rest, n - 1);
    assert SegmentEnd(data, n) == BLOCK_SIZE + end;
    LaterPart(first, rest, from, end);
  }

  lemma FeedbackShifts(iv: Block, first: Block, rest: Bytes, n: nat)
    requires 0 < n && (n - 1) * BLOCK_SIZE <= |rest|
    ensures Feedback(iv, first + rest, n) == Feedback(first, rest, n - 1)
  {
    var data := first + rest;
    if n == 1 {
      assert data[..BLOCK_SIZE] == first;
    } else {
      LaterPart(first, rest, (n - 2) * BLOCK_SIZE, (n - 1) * BLOCK_SIZE);
    }
  }

  /**
   CFB mode, segment by segment: the exclusive or of a ciphertext segment with its plaintext segment
   is the encryption of the ciphertext segment before it, or of the vector.
   */
  lemma {:induction false} CfbSegment(block: Block -> Block, iv: Block, plain: Bytes, n: nat)
    requires n * BLOCK_SIZE < |plain|
    ensures var cipher := CfbEncrypt(block, iv, plain);
            var segment := Segment(plain, n);
            Xor(Segment(cipher, n), segment) == block(Feedback(iv, cipher, n))[..|segment|]
    decreases |plain|
  {
    var cipher := CfbEncrypt(block, iv, plain);
    if |plain| < BLOCK_SIZE {
      assert Segment(plain, n) == plain && Segment(cipher, n) == cipher;
      XorBack(plain, block(iv));
    } else {
      var first := Xor(plain[..BLOCK_SIZE], block(iv));
      var rest := CfbEncrypt(block, first, plain[BLOCK_SIZE..]);
      if n == 0 {
        assert Segment(plain, n) == plain[..BLOCK_SIZE] && Segment(cipher, n) == first;
        XorBack(plain[..BLOCK_SIZE], block(iv));
      } else {
        CfbSegment(block, first, plain[BLOCK_SIZE..], n - 1);
        SegmentShifts(plain[..BLOCK_SIZE], plain[BLOCK_SIZE..], n);
        assert plain == plain[..BLOCK_SIZE] + plain[BLOCK_SIZE..];
        SegmentShifts(first, rest, n);
        FeedbackShifts(iv, first, rest, n);
      }
    }
  }

  /** Ciphertext of this plaintext in CFB mode, said of its segments. */
  ghost predicate IsCfb(block: Block -> Block, iv: Block, plain: Bytes, cipher: Bytes) {
    |cipher| == |plain| &&
    forall n: nat :: n * BLOCK_SIZE < |plain| ==>
      Xor(Segment(cipher, n), Segment(plain, n)) == block(Feedback(iv, cipher, n))[..|Segment(plain, n)|]
  }

  lemma EncryptIsCfb(block: Block -> Block, iv: Block, plain: Bytes)
    ensures IsCfb(block, iv, plain, CfbEncrypt(block, iv, plain))
  {
    forall n: nat | n * BLOCK_SIZE < |plain| { CfbSegment(block, iv, plain, n); }
  }

  // ---------------------------------------------------------------- the stream over buffers

  lemma BufferHolds(b: array<Byte>, out: Bytes, segment: Bytes, tail: Bytes)
    requires b.Length == |out| + |segment| + |tail|
    requires forall i :: 0 <= i < |out| ==> b[i] == out[i]
    requires forall i :: 0 <= i < |segment| ==> b[|out| + i] == segment[i]
    requires forall i :: 0 <= i < |tail| ==> b[|out| + |segment| + i] == tail[i]
    ensures b[..] == (out + segment) + tail
    ensures b[|out|..|out| + |segment|] == segment
  {
    forall k | 0 <= k < b.Length ensures b[..][k] == ((out + segment) + tail)[k] {
      if k >= |out| + |segment| {
        assert b[|out| + |segment| + (k - |out| - |segment|)] == tail[k - |out| - |segment|];
      } else if k >= |out| {
        assert b[|out| + (k - |out|)] == segment[k - |out|];
      }
    }
  }

  /**
   One segment, in a buffer that holds out + rest: the bytes after `out` take the exclusive or
   of the data with the key stream block.  Returns the bytes written.
   */
  method XorSegment(b: array<Byte>, data: Bytes, key: Block, ghost out: Bytes, ghost rest: Bytes, at: nat)
    returns (written: Bytes)
    requires |data| <= BLOCK_SIZE && |data| <= |rest| && at == |out| && b[..] == out + rest
    modifies b
    ensures written == Xor(data, key)
    ensures b[..] == (out + written) + rest[|data|..]
  {
    ghost var segment, tail := Xor(data, key), rest[|data|..];
    for j := 0 to |data|
      invariant forall i :: 0 <= i < at ==> b[i] == out[i]
      invariant forall i :: 0 <= i < j ==> b[at + i] == segment[i]
      invariant forall i :: 0 <= i < |tail| ==> b[at + |data| + i] == tail[i]
    {
      b[at + j] := XorByte(data[j], key[j]);
    }
    BufferHolds(b, out, segment, tail);
    written := b[at..at + |data|];
  }

  function SegmentLength(rest: nat): (n: nat)
    ensures n <= rest && n <= BLOCK_SIZE && (rest > 0 ==> n > 0)
  {
    if rest < BLOCK_SIZE then rest else BLOCK_SIZE
  }

  /** What is written so far and the cipher text of the rest, before and after one segment. */
  lemma EncryptStep(block: Block -> Block, feedback: Block, out: Bytes, rest: Bytes, written: Bytes, next: Block)
    requires written == Xor(rest[..SegmentLength(|rest|)], block(feedback))
    requires next == if |written| == BLOCK_SIZE then written else feedback
    ensures out + CfbEncrypt(block, feedback, rest) == (out + written) + CfbEncrypt(block, next, rest[|written|..])
  {
    if |rest| < BLOCK_SIZE { assert rest[..|rest|] == rest; }
  }

  lemma DecryptStep(block: Block -> Block, feedback: Block, out: Bytes, rest: Bytes, written: Bytes, next: Block)
    requires written == Xor(rest[..SegmentLength(|rest|)], block(feedback))
    requires next == if |written| == BLOCK_SIZE then rest[..BLOCK_SIZE] else feedback
    ensures out + CfbDecrypt(block, feedback, rest) == (out + written) + CfbDecrypt(block, next, rest[|written|..])
  {
    if |rest| < BLOCK_SIZE { assert rest[..|rest|] == rest; }
  }

  /** Encrypting stream: writes the cipher text of `src` into `dst`, after the `head` it holds. */
  method XorKeyStreamEncrypt(block: Block -> Block, iv: Block, dst: array<Byte>, src: Bytes, ghost head: Bytes)
    requires |head| + |src| == dst.Length && dst[..|head|] == head
    modifies dst
    ensures dst[..] == head + CfbEncrypt(block, iv, src)
    ensures IsCfb(block, iv, src, dst[|head|..])
  {
    var rest, feedback: Block := src, iv;
    ghost var out: Bytes, left: Bytes := head, dst[|head|..];
    while rest != []
      invariant |out| + |rest| == dst.Length && |left| == |rest| && dst[..] == out + left
      invariant out + CfbEncrypt(block, feedback, rest) == head + CfbEncrypt(block, iv, src)
      decreases |rest|
    {
      var n := SegmentLength(|rest|);
      var written := XorSegment(dst, rest[..n], block(feedback), out, left, dst.Length - |rest|);
      var next: Block := if n == BLOCK_SIZE then written else feedback;
      EncryptStep(block, feedback, out, rest, written, next);
      out, left := out + written, left[n..];
      rest, feedback := rest[n..], next;
    }
    EncryptIsCfb(block, iv, src);
    assert dst[..] == head + CfbEncrypt(block, iv, src);
    assert dst[|head|..] == CfbEncrypt(block, iv, src);
  }

  /**
   Decrypting stream over one buffer, in place: the cipher text that feeds the next block is
   kept before it is overwritten.
   */
  method XorKeyStreamDecrypt(block: Block -> Block, iv: Block, b: array<Byte>)
    modifies b
    ensures b[..] == CfbDecrypt(block, iv, old(b[..]))
  {
    var at, feedback: Block := 0, iv;
    ghost var out: Bytes, rest: Bytes := [], b[..];
    ghost var whole := CfbDecrypt(block, iv, rest);
    while at < b.Length
      invariant at == |out| && b[..] == out + rest
      invariant out + CfbDecrypt(block, feedback, rest) == whole
      decreases b.Length - at
    {
      var n := SegmentLength(b.Length - at);
      var kept: Bytes := b[at..at + n];
      assert kept == b[..][at..at + n] == rest[..n];
      var written := XorSegment(b, kept, block(feedback), out, rest, at);
      var next: Block := if n == BLOCK_SIZE then kept else feedback;
      DecryptStep(block, feedback, out, rest, written, next);
      out, rest := out + written, rest[n..];
      at, feedback := at + n, next;
    }
  }

  // ---------------------------------------------------------------- TerraformAesStateCipher

  datatype TerraformAesStateCipher = TerraformAesStateCipher(cipherBlock: Block -> Block)

  /** What Encrypt computes: the vector, then the padded text in CFB mode. */
  function Encrypted(c: TerraformAesStateCipher, iv: Block, plaintext: Bytes): Bytes {
    iv + CfbEncrypt(c.cipherBlock, iv, Pad(plaintext))
  }

  /** What Decrypt computes on a text longer than the vector (a shorter one is a run-time panic). */
  function Decrypted(c: TerraformAesStateCipher, ciphertext: Bytes): Result<Bytes>
    requires |ciphertext| > BLOCK_SIZE
  {
    Unpad(CfbDecrypt(c.cipherBlock, ciphertext[..BLOCK_SIZE], ciphertext[BLOCK_SIZE..]))
  }

  lemma EncryptedLength(c: TerraformAesStateCipher, iv: Block, plaintext: Bytes)
    ensures var ciphertext := Encrypted(c, iv, plaintext);
            |ciphertext| > BLOCK_SIZE && |ciphertext| % BLOCK_SIZE == 0
            && |ciphertext| <= |plaintext| + 2 * BLOCK_SIZE
  {
  }

  lemma DecryptedEncrypted(c: TerraformAesStateCipher, iv: Block, plaintext: Bytes)
    ensures var ciphertext := Encrypted(c, iv, plaintext);
            |ciphertext| > BLOCK_SIZE && Decrypted(c, ciphertext) == Ok(plaintext)
  {
    var padded := Pad(plaintext);
    var body := CfbEncrypt(c.cipherBlock, iv, padded);
    assert (iv + body)[..BLOCK_SIZE] == iv && (iv + body)[BLOCK_SIZE..] == body;
    DecryptEncrypt(c.cipherBlock, iv, padded);
    UnpadPad(plaintext);
  }

  /** The vector is drawn at random by the source; here it is any block. */
  method Encrypt(c: TerraformAesStateCipher, iv: Block, plaintext: Bytes) returns (text: Bytes)
    ensures text == Encrypted(c, iv, plaintext)
    ensures |text| > BLOCK_SIZE && Decrypted(c, text) == Ok(plaintext)
    ensures text[..BLOCK_SIZE] == iv && IsCfb(c.cipherBlock, iv, Pad(plaintext), text[BLOCK_SIZE..])
  {
    var padded := Pad(plaintext);
    var ciphertext := new Byte[BLOCK_SIZE + |padded|];
    for i := 0 to BLOCK_SIZE
      invariant ciphertext[..i] == iv[..i]
    {
      ciphertext[i] := iv[i];
    }
    XorKeyStreamEncrypt(c.cipherBlock, iv, ciphertext, padded, iv);
    text := ciphertext[..];
    DecryptedEncrypted(c, iv, plaintext);
  }

  method Decrypt(c: TerraformAesStateCipher, ciphertext: Bytes) returns (r: Result<Bytes>)
    requires |ciphertext| > BLOCK_SIZE
    ensures r == Decrypted(c, ciphertext)
  {
    var iv := ciphertext[..BLOCK_SIZE];
    var text := ciphertext[BLOCK_SIZE..];
    var b := new Byte[|text|](i requires 0 <= i < |text| => text[i]);
    assert b[..] == text;
    XorKeyStreamDecrypt(c.cipherBlock, iv, b);
    r := Unpad(b[..]);
  }
}
