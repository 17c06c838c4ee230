/** Bytes, the SHA-256 digest type and the lowercase hex encoding that
    `hashlib`'s `hexdigest()` produces. SHA-256 itself (FIPS 180-4, section
    6.2) is not defined here: every operation that needs it takes it as a
    parameter `sha: Bytes -> Digest`, so what is proved holds for any hash. */
module Fingerprint {

  newtype byte = b: int | 0 <= b < 256

  type Bytes = seq<byte>

  /** A SHA-256 digest is 32 bytes long. */
  type Digest = d: Bytes | |d| == 32 witness seq(32, _ => 0)

  /** The character `hexdigest()` uses for a nibble 0..15. */
  function HexDigit(n: nat): (c: char)
    requires n < 16
    ensures IsHexDigit(c) && DigitValue(c) == n
  {
    if n < 10 then ('0' as int + n) as char else ('a' as int + n - 10) as char
  }

  predicate IsHexDigit(c: char) {
    '0' <= c <= '9' || 'a' <= c <= 'f'
  }

  function DigitValue(c: char): (n: nat)
    requires IsHexDigit(c)
    ensures n < 16
  {
    if '0' <= c <= '9' then c as int - '0' as int else c as int - 'a' as int + 10
  }

  predicate IsHex(s: string) {
    forall i :: 0 <= i < |s| ==> IsHexDigit(s[i])
  }

  /** `hexdigest()`: two lowercase hex digits per byte, high nibble first. */
  function Hex(d: Bytes): (s: string)
    ensures |s| == 2 * |d|
    ensures IsHex(s)
    decreases |d|
  {
    if d == [] then ""
    else [HexDigit(d[0] as int / 16), HexDigit(d[0] as int % 16)] + Hex(d[1..])
  }

  /** The inverse of Hex: reads pairs of hex digits back into bytes. */
  function Unhex(s: string): (d: Bytes)
    requires |s| % 2 == 0 && IsHex(s)
    ensures 2 * |d| == |s|
    decreases |s|
  {
    if s == [] then []
    else [(16 * DigitValue(s[0]) + DigitValue(s[1])) as byte] + Unhex(s[2..])
  }

  lemma {:induction false} UnhexHex(d: Bytes)
    ensures Unhex(Hex(d)) == d
    decreases |d|
  {
    if d != [] {
      var h := Hex(d);
      var hi, lo := d[0] as int / 16, d[0] as int % 16;
      assert h[..2] == [HexDigit(hi), HexDigit(lo)];
      assert h[2..] == Hex(d[1..]);
      UnhexHex(d[1..]);
      assert 16 * DigitValue(h[0]) + DigitValue(h[1]) == d[0] as int;
      assert d == [d[0]] + d[1..];
    }
  }

  /** Two different digests never have the same hex text. */
  lemma HexInjective(a: Bytes, b: Bytes)
    requires Hex(a) == Hex(b)
    ensures a == b
  {
    UnhexHex(a);
    UnhexHex(b);
  }

  predicate IsAscii(s: string) {
    forall i :: 0 <= i < |s| ==> s[i] as int < 128
  }

  /** The bytes a text-mode write of an ASCII string puts in a file. */
  function Ascii(s: string): (b: Bytes)
    requires IsAscii(s)
    ensures |b| == |s|
    ensures forall i :: 0 <= i < |s| ==> b[i] as int == s[i] as int
  {
    seq(|s|, i requires 0 <= i < |s| => s[i] as int as byte)
  }

  lemma AsciiInjective(s: string, t: string)
    requires IsAscii(s) && IsAscii(t)
    requires Ascii(s) == Ascii(t)
    ensures s == t
  {
    assert |s| == |t|;
    forall i | 0 <= i < |s| ensures s[i] == t[i] {
      assert Ascii(s)[i] == Ascii(t)[i];
    }
  }

  lemma HexIsAscii(d: Bytes)
    ensures IsAscii(Hex(d))
  {
    var h := Hex(d);
    forall i | 0 <= i < |h| ensures h[i] as int < 128 {
      assert IsHexDigit(h[i]);
    }
  }

  /** `hexdigest()` of the SHA-256 of `data`, as the bytes written to a file:
      64 bytes for every input. */
  function HexDigest(sha: Bytes -> Digest, data: Bytes): (text: Bytes)
    ensures |text| == 64
  {
    HexIsAscii(sha(data));
    Ascii(Hex(sha(data)))
  }

  /** Equal fingerprint text means equal digests: hexdigest loses nothing. */
  lemma HexDigestInjective(sha: Bytes -> Digest, x: Bytes, y: Bytes)
    ensures HexDigest(sha, x) == HexDigest(sha, y) <==> sha(x) == sha(y)
  {
    if HexDigest(sha, x) == HexDigest(sha, y) {
      HexIsAscii(sha(x));
      HexIsAscii(sha(y));
      AsciiInjective(Hex(sha(x)), Hex(sha(y)));
      HexInjective(sha(x), sha(y));
    }
  }
}
