/**
 Go strings.  A Go string is a sequence of bytes; a byte is written here as the character
 with that code, so that string literals and string values have the same form.
 Also the (value, error) pairs of the Go code as one datatype.
 */
module GoStrings {

  type Byte = c: char | c as int < 256 witness 'a'
  type Bytes = seq<Byte>

  function ByteOf(n: int): (b: Byte)
    requires 0 <= n < 256
    ensures b as int == n
  {
    n as char
  }

  /** A part of what comes second is a part of the two together. */
  lemma LaterPart(head: Bytes, tail: Bytes, from: nat, end: nat)
    requires from <= end <= |tail|
    ensures (head + tail)[|head| + from..|head| + end] == tail[from..end]
  {
    var part := (head + tail)[|head| + from..|head| + end];
    forall i | 0 <= i < end - from ensures part[i] == tail[from..end][i] {
      assert part[i] == (head + tail)[|head| + from + i];
    }
  }

  datatype Option<+T> = None | Some(value: T)

  datatype Result<+T> = Ok(value: T) | Err(error: string)
}
