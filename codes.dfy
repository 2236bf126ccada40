/** Verification codes: 32 random bytes written as 64 lower-case hexadecimal characters
    (`crypto.randomBytes(32).toString('hex')`), and the mail body that carries one. */
module VerificationCodes {

  /** The output of `crypto.randomBytes(32)`. */
  type Bytes32 = b: seq<bv8> | |b| == 32 witness seq(32, _ => 0 as bv8)

  predicate IsHexDigit(c: char) {
    '0' <= c <= '9' || 'a' <= c <= 'f'
  }

  predicate IsHex(s: string) {
    forall i :: 0 <= i < |s| ==> IsHexDigit(s[i])
  }

  /** The lower-case digit of a nibble. */
  function HexDigit(n: nat): (c: char)
    requires n < 16
    ensures IsHexDigit(c)
  {
    if n < 10 then ('0' as int + n) as char else ('a' as int + n - 10) as char
  }

  /** The value of a hexadecimal digit; it inverts HexDigit. */
  function DigitValue(c: char): (n: nat)
    requires IsHexDigit(c)
    ensures n < 16 && HexDigit(n) == c
  {
    if c <= '9' then c as int - '0' as int else c as int - 'a' as int + 10
  }

  /** Buffer's 'hex' encoding: two lower-case digits per byte, high nibble first. */
  function Hex(bytes: seq<bv8>): (s: string)
    ensures |s| == 2 * |bytes|
    ensures IsHex(s)
  {
    if bytes == [] then ""
    else [HexDigit(bytes[0] as int / 16), HexDigit(bytes[0] as int % 16)] + Hex(bytes[1..])
  }

  /** Reads a hexadecimal string back into bytes. */
  function Unhex(s: string): (bytes: seq<bv8>)
    requires |s| % 2 == 0 && IsHex(s)
    ensures |bytes| == |s| / 2
  {
    if s == [] then []
    else [ByteOf(DigitValue(s[0]), DigitValue(s[1]))] + Unhex(s[2..])
  }

  function ByteOf(hi: nat, lo: nat): bv8
    requires hi < 16 && lo < 16
  {
    (hi * 16 + lo) as bv8
  }

  lemma DigitValueOfDigit(n: nat)
    requires n < 16
    ensures DigitValue(HexDigit(n)) == n
  {
  }

  lemma ByteOfNibbles(b: bv8)
    ensures ByteOf(b as int / 16, b as int % 16) == b
  {
    var n := b as int;
    assert n / 16 * 16 + n % 16 == n;
  }

  /** A code determines the random bytes it was made from: reading it back gives them. */
  lemma {:induction false} UnhexHex(bytes: seq<bv8>)
    ensures Unhex(Hex(bytes)) == bytes
  {
    if bytes != [] {
      var s := Hex(bytes);
      assert s[2..] == Hex(bytes[1..]);
      UnhexHex(bytes[1..]);
      var b := bytes[0] as int;
      DigitValueOfDigit(b / 16);
      DigitValueOfDigit(b % 16);
      ByteOfNibbles(bytes[0]);
    }
  }

  /** Two different draws of random bytes never give the same code. */
  lemma HexInjective(a: seq<bv8>, b: seq<bv8>)
    ensures Hex(a) == Hex(b) <==> a == b
  {
    UnhexHex(a);
    UnhexHex(b);
  }

  /** The html of the verification mail. */
  const HtmlPrefix := "<b>Verification code: "
  const HtmlSuffix := "</b>"

  function VerificationHtml(code: string): (html: string)
    ensures |html| == |HtmlPrefix| + |code| + |HtmlSuffix|
    ensures html[|HtmlPrefix|..|HtmlPrefix| + |code|] == code
  {
    HtmlPrefix + code + HtmlSuffix
  }
}
