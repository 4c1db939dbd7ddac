/** Lower-case hexadecimal encoding of bytes, as Node's
    `Buffer.toString('hex')` writes it, and its inverse. */
module Hex {
  import opened Wrappers

  newtype byte = x: int | 0 <= x < 256

  const Digits: string := "0123456789abcdef"

  predicate IsHexDigit(c: char) {
    '0' <= c <= '9' || 'a' <= c <= 'f'
  }

  function DigitOf(d: nat): (c: char)
    requires d < 16
    ensures IsHexDigit(c)
  {
    Digits[d]
  }

  function ValueOf(c: char): (d: Option<nat>)
    ensures d.Some? <==> IsHexDigit(c)
    ensures d.Some? ==> d.value < 16
  {
    if '0' <= c <= '9' then Some(c as int - '0' as int)
    else if 'a' <= c <= 'f' then Some(c as int - 'a' as int + 10)
    else None
  }

  /** Two digits per byte, high nibble first. */
  function Encode(bytes: seq<byte>): (s: string)
    ensures |s| == 2 * |bytes|
    ensures forall k :: 0 <= k < |s| ==> IsHexDigit(s[k])
    decreases |bytes|
  {
    if bytes == [] then ""
    else [DigitOf(bytes[0] as int / 16), DigitOf(bytes[0] as int % 16)] + Encode(bytes[1..])
  }

  /** The bytes a string of hex digit pairs denotes; `None` for odd length or a
      character that is not a lower-case hex digit. */
  function Decode(s: string): Option<seq<byte>>
    decreases |s|
  {
    if s == [] then Some([])
    else if |s| == 1 then None
    else
      var hi :- ValueOf(s[0]);
      var lo :- ValueOf(s[1]);
      var rest :- Decode(s[2..]);
      Some([(hi * 16 + lo) as byte] + rest)
  }

  lemma ValueOfDigitOf(d: nat)
    requires d < 16
    ensures ValueOf(DigitOf(d)) == Some(d)
  {
    assert Digits[d] == "0123456789abcdef"[d];
  }

  /** Decoding what was encoded gives back the bytes. */
  lemma {:induction false} DecodeEncode(bytes: seq<byte>)
    ensures Decode(Encode(bytes)) == Some(bytes)
    decreases |bytes|
  {
    if bytes != [] {
      var b := bytes[0] as int;
      var s := Encode(bytes);
      ValueOfDigitOf(b / 16);
      ValueOfDigitOf(b % 16);
      assert s[2..] == Encode(bytes[1..]);
      DecodeEncode(bytes[1..]);
      assert ((b / 16) * 16 + b % 16) as byte == bytes[0];
      assert bytes == [bytes[0]] + bytes[1..];
    }
  }
}
