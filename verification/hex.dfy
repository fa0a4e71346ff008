/** Node's `Buffer.toString('hex')`: every byte becomes two lower-case
    hexadecimal digits, high nibble first. The services use it on the output
    of `randomBytes(n)` to make verification and exchange codes. */
module Hex {

  newtype byte = x: int | 0 <= x < 256

  const Digits: string := "0123456789abcdef"

  predicate IsHexDigit(c: char) {
    c in Digits
  }

  /** A string made only of lower-case hexadecimal digits. */
  predicate IsHexString(s: string) {
    forall i :: 0 <= i < |s| ==> IsHexDigit(s[i])
  }

  function DigitOf(n: nat): (c: char)
    requires n < 16
    ensures IsHexDigit(c)
  {
    Digits[n]
  }

  /** The value of a hexadecimal digit; the inverse of DigitOf. */
  function ValueOf(c: char): (n: nat)
    requires IsHexDigit(c)
    ensures n < 16 && DigitOf(n) == c
  {
    if c == Digits[0] then 0 else if c == Digits[1] then 1
    else if c == Digits[2] then 2 else if c == Digits[3] then 3
    else if c == Digits[4] then 4 else if c == Digits[5] then 5
    else if c == Digits[6] then 6 else if c == Digits[7] then 7
    else if c == Digits[8] then 8 else if c == Digits[9] then 9
    else if c == Digits[10] then 10 else if c == Digits[11] then 11
    else if c == Digits[12] then 12 else if c == Digits[13] then 13
    else if c == Digits[14] then 14 else 15
  }

  lemma ValueOfDigit(n: nat)
    requires n < 16
    ensures ValueOf(DigitOf(n)) == n
  {
  }

  function Encode(bytes: seq<byte>): (s: string)
    ensures |s| == 2 * |bytes|
    ensures IsHexString(s)
  {
    if bytes == [] then ""
    else
      var b := bytes[0] as int;
      [DigitOf(b / 16), DigitOf(b % 16)] + Encode(bytes[1..])
  }

  function Decode(s: string): (bytes: seq<byte>)
    requires |s| % 2 == 0 && IsHexString(s)
    ensures 2 * |bytes| == |s|
  {
    if s == "" then []
    else [(ValueOf(s[0]) * 16 + ValueOf(s[1])) as byte] + Decode(s[2..])
  }

  /** Decoding recovers the bytes, so distinct random bytes give distinct codes. */
  lemma {:induction false} DecodeEncode(bytes: seq<byte>)
    ensures Decode(Encode(bytes)) == bytes
  {
    if bytes != [] {
      var b := bytes[0] as int;
      var s := Encode(bytes);
      assert s[2..] == Encode(bytes[1..]);
      ValueOfDigit(b / 16);
      ValueOfDigit(b % 16);
      DecodeEncode(bytes[1..]);
    }
  }

  lemma EncodeInjective(a: seq<byte>, b: seq<byte>)
    requires Encode(a) == Encode(b)
    ensures a == b
  {
    DecodeEncode(a);
    DecodeEncode(b);
  }
}
