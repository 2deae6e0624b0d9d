/** Go's encoding/hex as the session id generator uses it: lower-case, high nibble first. */
module Hex {
  import opened Common

  newtype byte = b: int | 0 <= b < 256

  predicate IsLowerHexDigit(c: char) {
    ('0' <= c <= '9') || ('a' <= c <= 'f')
  }

  function HexDigit(n: int): (c: char)
    requires 0 <= n < 16
    ensures IsLowerHexDigit(c)
  {
    if n < 10 then ('0' as int + n) as char else ('a' as int + n - 10) as char
  }

  /** The value of one hex digit; hex.DecodeString accepts either case. */
  function DigitValue(c: char): Option<int> {
    if '0' <= c <= '9' then Some(c as int - '0' as int)
    else if 'a' <= c <= 'f' then Some(c as int - 'a' as int + 10)
    else if 'A' <= c <= 'F' then Some(c as int - 'A' as int + 10)
    else None
  }

  /** hex.EncodeToString. */
  function EncodeHex(bs: seq<byte>): (r: string)
    ensures |r| == 2 * |bs|
    ensures forall i :: 0 <= i < |r| ==> IsLowerHexDigit(r[i])
  {
    if bs == [] then []
    else [HexDigit(bs[0] as int / 16), HexDigit(bs[0] as int % 16)] + EncodeHex(bs[1..])
  }

  /** hex.DecodeString: the inverse reading, failing on odd length or a non-digit. */
  function DecodeHex(s: string): Option<seq<byte>>
    decreases |s|
  {
    if s == [] then Some([])
    else if |s| == 1 then None
    else match (DigitValue(s[0]), DigitValue(s[1]), DecodeHex(s[2..]))
      case (Some(hi), Some(lo), Some(rest)) =>
        if 0 <= hi < 16 && 0 <= lo < 16 then Some([(hi * 16 + lo) as byte] + rest) else None
      case _ => None
  }

  /** Every encoded id decodes back to the bytes it was made from. */
  lemma {:induction false} DecodeEncode(bs: seq<byte>)
    ensures DecodeHex(EncodeHex(bs)) == Some(bs)
  {
    if bs != [] {
      var b := bs[0] as int;
      var e := EncodeHex(bs);
      assert e[2..] == EncodeHex(bs[1..]);
      assert DigitValue(e[0]) == Some(b / 16);
      assert DigitValue(e[1]) == Some(b % 16);
      DecodeEncode(bs[1..]);
      assert [bs[0]] + bs[1..] == bs;
    }
  }

  /** Distinct random draws give distinct ids. */
  lemma EncodeInjective(a: seq<byte>, b: seq<byte>)
    requires a != b
    ensures EncodeHex(a) != EncodeHex(b)
  {
    DecodeEncode(a);
    DecodeEncode(b);
  }
}
