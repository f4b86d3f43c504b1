/** PHP strings as the card composer sees them: sequences of bytes, measured by
    `strlen` in bytes and upper-cased by `strtoupper`, which (from PHP 8.2 on)
    maps only the ASCII letters a-z and leaves every other byte alone. */
module Bytes {

  type Byte = b: int | 0 <= b < 256

  type Bytes = seq<Byte>

  /** The bytes of a string literal written in plain ASCII. */
  function Ascii(s: string): (bs: Bytes)
    requires forall i :: 0 <= i < |s| ==> s[i] < 128 as char
    ensures |bs| == |s|
  {
    seq(|s|, i requires 0 <= i < |s| => s[i] as int)
  }

  predicate IsLower(b: Byte) {
    'a' as int <= b <= 'z' as int
  }

  predicate IsUpper(b: Byte) {
    'A' as int <= b <= 'Z' as int
  }

  function UpperByte(b: Byte): Byte {
    if IsLower(b) then b - 32 else b
  }

  /** `strtoupper`: ASCII-only upper-casing, byte for byte. */
  function ToUpper(s: Bytes): (u: Bytes)
    ensures |u| == |s|
    ensures forall i :: 0 <= i < |u| ==> !IsLower(u[i])
    ensures forall i :: 0 <= i < |s| && IsLower(s[i]) ==> IsUpper(u[i]) && u[i] + 32 == s[i]
    ensures forall i :: 0 <= i < |s| && !IsLower(s[i]) ==> u[i] == s[i]
  {
    seq(|s|, i requires 0 <= i < |s| => UpperByte(s[i]))
  }

  /** Upper-casing a title twice is the same as upper-casing it once. */
  lemma ToUpperIdempotent(s: Bytes)
    ensures ToUpper(ToUpper(s)) == ToUpper(s)
  {
    var u := ToUpper(s);
    assert forall i :: 0 <= i < |u| ==> ToUpper(u)[i] == u[i];
  }

  /** A string with no lower-case letter is its own upper-casing, and only such a string is. */
  lemma ToUpperFixedPoints(s: Bytes)
    ensures ToUpper(s) == s <==> forall i :: 0 <= i < |s| ==> !IsLower(s[i])
  {
    if forall i :: 0 <= i < |s| ==> !IsLower(s[i]) {
      assert forall i :: 0 <= i < |s| ==> ToUpper(s)[i] == s[i];
    }
  }
}
