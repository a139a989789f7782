/** The foreign calls of the manifest layer, as types of function-valued
    parameters: the model fixes their result shapes and nothing else. */
module Foreign {
  import opened Outcomes

  type Bytes = seq<bv8>

  /** A SHA-1 digest: always 160 bits. */
  type Digest = d: Bytes | |d| == 20 witness seq(20, i => 0)

  /** `hashlib.sha1(data).digest()`. */
  type Sha1 = Bytes -> Digest

  /** `bytes.decode()` with the default strict UTF-8 codec: `None` when the
      bytes are not well-formed UTF-8 (UnicodeDecodeError). */
  type Utf8 = Bytes -> Option<string>

  /** The ASCII bytes of a literal, as in Python's `b"..."`. */
  function Ascii(s: string): (r: Bytes)
    requires forall i :: 0 <= i < |s| ==> s[i] < 128 as char
    ensures |r| == |s|
    ensures forall i :: 0 <= i < |s| ==> r[i] as int == s[i] as int
  {
    seq(|s|, i requires 0 <= i < |s| => (s[i] as int) as bv8)
  }
}
