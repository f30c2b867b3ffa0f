/** Go's built-in value types as the conventions package uses them.

    A Go `string` is an immutable sequence of bytes, and `len` on it counts
    bytes. A string literal in a Go source file denotes the UTF-8 encoding
    (section 3 of RFC 3629) of the characters written between the quotes,
    because Go source files are UTF-8. `Literal` gives that byte sequence for
    a Dafny string, so the model can use the source's literals as written.
 */
module GoText {

  /** Go's `int` on a 64-bit platform. */
  newtype Int = x: int | -0x8000_0000_0000_0000 <= x < 0x8000_0000_0000_0000

  /** Go's `byte` (an alias of `uint8`). */
  newtype Byte = x: int | 0 <= x < 0x100

  /** Go's `string`: a sequence of bytes. */
  type String = seq<Byte>

  /** Go's `error`, with `None` as the nil error. */
  datatype Error = Error(message: string)

  datatype Option<T> = None | Some(value: T)

  predicate IsAscii(s: string) {
    forall i | 0 <= i < |s| :: s[i] < '\U{80}'
  }

  /** The UTF-8 encoding of one Unicode scalar value. */
  function EncodeRune(c: char): (r: seq<Byte>)
    ensures 1 <= |r| <= 4
    ensures |r| == 1 <==> c < '\U{80}'
    ensures |r| == 1 ==> r[0] as int == c as int
    // the leading byte announces the length of the sequence
    ensures |r| == 2 ==> 0xC0 <= r[0] < 0xE0
    ensures |r| == 3 ==> 0xE0 <= r[0] < 0xF0
    ensures |r| == 4 ==> 0xF0 <= r[0] < 0xF8
    // every further byte is a continuation byte 10xxxxxx
    ensures forall k | 1 <= k < |r| :: 0x80 <= r[k] < 0xC0
  {
    var cp := c as int;
    if cp < 0x80 then
      [cp as Byte]
    else if cp < 0x800 then
      [(0xC0 + cp / 0x40) as Byte, (0x80 + cp % 0x40) as Byte]
    else if cp < 0x1_0000 then
      [(0xE0 + cp / 0x1000) as Byte, (0x80 + cp / 0x40 % 0x40) as Byte, (0x80 + cp % 0x40) as Byte]
    else
      [(0xF0 + cp / 0x4_0000) as Byte, (0x80 + cp / 0x1000 % 0x40) as Byte,
       (0x80 + cp / 0x40 % 0x40) as Byte, (0x80 + cp % 0x40) as Byte]
  }

  /** The bytes a Go string literal with the characters `s` denotes.
      Each character takes one to four bytes, and exactly one when all
      characters are ASCII. */
  function Literal(s: string): (r: String)
    ensures |s| <= |r| <= 4 * |s|
    ensures |r| == |s| <==> IsAscii(s)
  {
    if s == [] then []
    else
      var rest := Literal(s[1..]);
      assert IsAscii(s) <==> s[0] < '\U{80}' && IsAscii(s[1..]) by {
        assert forall i | 1 <= i < |s| :: s[i] == s[1..][i - 1];
      }
      EncodeRune(s[0]) + rest
  }

  /** For an ASCII string, the literal is the string's own character codes. */
  lemma {:induction false} LiteralOfAscii(s: string)
    requires IsAscii(s)
    ensures |Literal(s)| == |s|
    ensures forall i | 0 <= i < |s| :: Literal(s)[i] as int == s[i] as int
  {
    if s != [] {
      assert s[0] < '\U{80}';
      assert IsAscii(s[1..]) by {
        assert forall i | 0 <= i < |s[1..]| :: s[1..][i] == s[i + 1];
      }
      LiteralOfAscii(s[1..]);
      var r := Literal(s);
      assert r == EncodeRune(s[0]) + Literal(s[1..]);
      forall i | 0 <= i < |s|
        ensures r[i] as int == s[i] as int
      {
        if i > 0 {
          assert r[i] == Literal(s[1..])[i - 1];
          assert s[i] == s[1..][i - 1];
        }
      }
    }
  }
}
