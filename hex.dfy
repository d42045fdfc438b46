/** Base16 encoding with lower-case digits (section 8 of RFC 4648), as `hex.EncodeToString` writes it. */
module Hex {
  import opened Wrappers
  import opened Bytes

  predicate IsLowerHexChar(c: char) { '0' <= c <= '9' || 'a' <= c <= 'f' }

  function HexChar(n: nat): (c: char)
    requires n < 16
    ensures IsLowerHexChar(c)
  {
    if n < 10 then (n + '0' as int) as char else (n - 10 + 'a' as int) as char
  }

  function HexValue(c: char): (n: nat)
    requires IsLowerHexChar(c)
    ensures n < 16
  {
    if c <= '9' then (c as int) - ('0' as int) else (c as int) - ('a' as int) + 10
  }

  /** Each byte becomes two characters, high nibble first. */
  function Encode(b: Bytes): (s: string)
    ensures |s| == 2 * |b|
    ensures forall i | 0 <= i < |s| :: IsLowerHexChar(s[i])
  {
    if b == [] then []
    else [HexChar((b[0] as int) / 16), HexChar((b[0] as int) % 16)] + Encode(b[1..])
  }

  /** The inverse of Encode: pairs of lower-case hex digits back to bytes. */
  function Decode(s: string): Option<Bytes>
    decreases |s|
  {
    if s == [] then Some([])
    else if |s| == 1 || !IsLowerHexChar(s[0]) || !IsLowerHexChar(s[1]) then None
    else
      match Decode(s[2..])
      case None => None
      case Some(rest) => Some([(HexValue(s[0]) * 16 + HexValue(s[1])) as byte] + rest)
  }

  lemma HexCharValue(n: nat)
    requires n < 16
    ensures HexValue(HexChar(n)) == n
  {
  }

  /** Decoding an encoding gives the bytes back. */
  lemma {:induction false} DecodeEncode(b: Bytes)
    ensures Decode(Encode(b)) == Some(b)
  {
    if b != [] {
      var s := Encode(b);
      var h, l := (b[0] as int) / 16, (b[0] as int) % 16;
      HexCharValue(h);
      HexCharValue(l);
      assert s[0] == HexChar(h) && s[1] == HexChar(l);
      assert s[2..] == Encode(b[1..]);
      DecodeEncode(b[1..]);
      assert h * 16 + l == b[0] as int;
      assert Decode(s) == Some([(HexValue(s[0]) * 16 + HexValue(s[1])) as byte] + b[1..]);
      assert [b[0]] + b[1..] == b;
    }
  }

  /** Distinct byte strings have distinct encodings. */
  lemma EncodeInjective(a: Bytes, b: Bytes)
    requires Encode(a) == Encode(b)
    ensures a == b
  {
    DecodeEncode(a);
    DecodeEncode(b);
  }
}
