/**
 The text codec of the reconciler (reconcile.go): encrypt then base64 when a cipher is
 configured, the text unchanged otherwise.  Recorded Terraform states and sensitive status
 values go through it.
 */
module StateCodec {
  import opened GoStrings
  import Cipher
  import Base64

  type Vector = Cipher.Block

  datatype Codec = Plain | Aes(cipher: Cipher.TerraformAesStateCipher)

  function EncryptAndEncode(c: Codec, iv: Vector, plain: Bytes): Bytes {
    match c
    case Plain => plain
    case Aes(cipher) => Base64.Encode(Cipher.Encrypted(cipher, iv, plain))
  }

  /** A decoded text no longer than the vector is a run-time panic in the source; an Err here. */
  function DecodeAndDecrypt(c: Codec, encoded: Bytes): Result<Bytes> {
    match c
    case Plain => Ok(encoded)
    case Aes(cipher) =>
      match Base64.Decode(encoded)
      case Err(e) => Err(e)
      case Ok(text) =>
        if |text| > Cipher.BLOCK_SIZE then Cipher.Decrypted(cipher, text)
        else Err("index out of range")
  }

  lemma CodecRoundTrip(c: Codec, iv: Vector, plain: Bytes)
    ensures DecodeAndDecrypt(c, EncryptAndEncode(c, iv, plain)) == Ok(plain)
  {
    match c
    case Plain =>
    case Aes(cipher) =>
      Cipher.DecryptedEncrypted(cipher, iv, plain);
      Base64.RoundTrip(Cipher.Encrypted(cipher, iv, plain));
  }

  /** What is stored is base64 of the vector and the CFB ciphertext of the padded text. */
  lemma EncodedIsCiphertext(c: Codec, iv: Vector, plain: Bytes)
    requires c.Aes?
    ensures var stored := Base64.Decode(EncryptAndEncode(c, iv, plain));
            && stored.Ok? && |stored.value| > Cipher.BLOCK_SIZE && stored.value[..Cipher.BLOCK_SIZE] == iv
            && Cipher.IsCfb(c.cipher.cipherBlock, iv, Cipher.Pad(plain), stored.value[Cipher.BLOCK_SIZE..])
  {
    var text := Cipher.Encrypted(c.cipher, iv, plain);
    Base64.RoundTrip(text);
    Cipher.EncryptIsCfb(c.cipher.cipherBlock, iv, Cipher.Pad(plain));
    assert text[Cipher.BLOCK_SIZE..] == Cipher.CfbEncrypt(c.cipher.cipherBlock, iv, Cipher.Pad(plain));
  }

  /** Different plain texts never have the same encoding, whatever the vectors. */
  lemma EncodingIsInjective(c: Codec, iv1: Vector, plain1: Bytes, iv2: Vector, plain2: Bytes)
    requires EncryptAndEncode(c, iv1, plain1) == EncryptAndEncode(c, iv2, plain2)
    ensures plain1 == plain2
  {
    CodecRoundTrip(c, iv1, plain1);
    CodecRoundTrip(c, iv2, plain2);
  }

  method EncryptAndEncodeString(c: Codec, iv: Vector, plain: Bytes) returns (text: Bytes, encrypted: bool)
    ensures text == EncryptAndEncode(c, iv, plain)
    ensures DecodeAndDecrypt(c, text) == Ok(plain)
    ensures encrypted <==> c.Aes?
    ensures !encrypted ==> text == plain
  {
    CodecRoundTrip(c, iv, plain);
    if c.Aes? {
      var ciphertext := Cipher.Encrypt(c.cipher, iv, plain);
      return Base64.Encode(ciphertext), true;
    }
    return plain, false;
  }

  method DecodeAndDecryptString(c: Codec, encoded: Bytes) returns (r: Result<Bytes>, decrypted: bool)
    ensures r == DecodeAndDecrypt(c, encoded)
    ensures decrypted <==> c.Aes? && r.Ok?
  {
    if c.Plain? { return Ok(encoded), false; }
    var decoded := Base64.Decode(encoded);
    if decoded.Err? { return decoded, false; }
    if |decoded.value| <= Cipher.BLOCK_SIZE { return Err("index out of range"), false; }
    r := Cipher.Decrypt(c.cipher, decoded.value);
    decrypted := r.Ok?;
  }
}
