/** Bytes, fixed-width integers and the byte order of strings. */
module Bytes {
  type byte = x: int | 0 <= x < 256
  type u64 = x: int | 0 <= x <= 0xFFFF_FFFF_FFFF_FFFF
  type i64 = x: int | -0x8000_0000_0000_0000 <= x <= 0x7FFF_FFFF_FFFF_FFFF

  const MAX_U64: u64 := 0xFFFF_FFFF_FFFF_FFFF

  /** The order of strings and of identity arrays: lexicographic by byte. */
  predicate Less(a: seq<byte>, b: seq<byte>) {
    if b == [] then false
    else if a == [] then true
    else a[0] < b[0] || (a[0] == b[0] && Less(a[1..], b[1..]))
  }

  lemma {:induction false} LessIrreflexive(a: seq<byte>)
    ensures !Less(a, a)
  {
    if a != [] { LessIrreflexive(a[1..]); }
  }

  lemma {:induction false} LessTransitive(a: seq<byte>, b: seq<byte>, c: seq<byte>)
    requires Less(a, b) && Less(b, c)
    ensures Less(a, c)
  {
    if a != [] && a[0] == b[0] && b[0] == c[0] { LessTransitive(a[1..], b[1..], c[1..]); }
  }

  lemma {:induction false} LessTotal(a: seq<byte>, b: seq<byte>)
    ensures a == b || Less(a, b) || Less(b, a)
  {
    if a != [] && b != [] && a[0] == b[0] {
      LessTotal(a[1..], b[1..]);
      if a[1..] == b[1..] { assert a == [a[0]] + a[1..] == [b[0]] + b[1..] == b; }
    }
  }

  /** Well-formed UTF-8, section 4 of RFC 3629: what `String::from_utf8` accepts. */
  predicate Utf8(s: seq<byte>) {
    if s == [] then true
    else if s[0] < 0x80 then Utf8(s[1..])
    else if |s| < 2 || !Continuation(s[1]) then false
    else if 0xC2 <= s[0] <= 0xDF then Utf8(s[2..])
    else if |s| < 3 || !Continuation(s[2]) then false
    else if 0xE0 <= s[0] <= 0xEF then
      && (s[0] == 0xE0 ==> 0xA0 <= s[1])
      && (s[0] == 0xED ==> s[1] <= 0x9F)
      && Utf8(s[3..])
    else if |s| < 4 || !Continuation(s[3]) then false
    else
      && 0xF0 <= s[0] <= 0xF4
      && (s[0] == 0xF0 ==> 0x90 <= s[1])
      && (s[0] == 0xF4 ==> s[1] <= 0x8F)
      && Utf8(s[4..])
  }

  predicate Continuation(b: byte) { 0x80 <= b <= 0xBF }

  /** Identities are arrays of fixed width; the all-zero one is reserved. */
  predicate Identity(s: seq<byte>, width: nat) { |s| == width && exists i | 0 <= i < width :: s[i] != 0 }

  /** The bytes of an ASCII name. */
  function Ascii(s: string): (bytes: seq<byte>)
    ensures |bytes| == |s|
  {
    seq(|s|, i requires 0 <= i < |s| => s[i] as int % 256)
  }

  /** Bytes as text, one character for each. */
  function Chars(bytes: seq<byte>): (s: string)
    ensures |s| == |bytes|
  {
    seq(|bytes|, i requires 0 <= i < |bytes| => bytes[i] as char)
  }

  lemma AsciiChars(bytes: seq<byte>)
    ensures Ascii(Chars(bytes)) == bytes
  {
  }

  lemma CharsAscii(s: string)
    requires forall c | c in s :: c < 256 as char
    ensures Chars(Ascii(s)) == s
  {
    forall i | 0 <= i < |s| ensures Chars(Ascii(s))[i] == s[i] { assert s[i] in s; }
  }
}
