/** `encodeURIComponent`: every character outside the unreserved set of
    section 2.3 of RFC 2396 is written as the `%XX` escapes (section 2.4.1 of
    RFC 2396) of its UTF-8 bytes, with upper-case hexadecimal digits. A Dafny
    `char` is a Unicode scalar value, so the lone surrogates for which the
    JavaScript function throws cannot occur. */
module UriEncoding {
  import opened Js

  /** The unreserved characters: letters, digits and the marks `-_.!~*'()`. */
  predicate Unreserved(c: char) {
    ('A' <= c <= 'Z') || ('a' <= c <= 'z') || ('0' <= c <= '9') ||
    c == '-' || c == '_' || c == '.' || c == '!' || c == '~' || c == '*' || c == '\'' || c == '(' || c == ')'
  }

  predicate AllUnreserved(s: string) {
    forall i :: 0 <= i < |s| ==> Unreserved(s[i])
  }

  /** An upper-case hexadecimal digit. */
  function HexDigit(n: nat): (c: char)
    requires n < 16
    ensures Unreserved(c)
    ensures HexValue(c) == Some(n)
  {
    if n < 10 then ('0' as int + n) as char else ('A' as int + n - 10) as char
  }

  /** The value of a hexadecimal digit of either case. */
  function HexValue(c: char): (v: Option<nat>)
    ensures v.Some? ==> v.value < 16
  {
    if '0' <= c <= '9' then Some(c as int - '0' as int)
    else if 'A' <= c <= 'F' then Some(c as int - 'A' as int + 10)
    else if 'a' <= c <= 'f' then Some(c as int - 'a' as int + 10)
    else None
  }

  /** The UTF-8 encoding of one scalar value (RFC 3629 section 3). */
  function Utf8(c: char): (bytes: seq<nat>)
    ensures 1 <= |bytes| <= 4
    ensures forall i :: 0 <= i < |bytes| ==> bytes[i] < 256
  {
    var n := c as int;
    if n < 0x80 then [n]
    else if n < 0x800 then [0xC0 + n / 0x40, 0x80 + n % 0x40]
    else if n < 0x10000 then [0xE0 + n / 0x1000, 0x80 + (n / 0x40) % 0x40, 0x80 + n % 0x40]
    else [0xF0 + n / 0x40000, 0x80 + (n / 0x1000) % 0x40, 0x80 + (n / 0x40) % 0x40, 0x80 + n % 0x40]
  }

  /** `%XX` for each byte. */
  function Escape(bytes: seq<nat>): (r: string)
    requires forall i :: 0 <= i < |bytes| ==> bytes[i] < 256
    ensures |r| == 3 * |bytes|
    ensures forall i :: 0 <= i < |r| ==> Unreserved(r[i]) || r[i] == '%'
  {
    if bytes == [] then []
    else ['%', HexDigit(bytes[0] / 16), HexDigit(bytes[0] % 16)] + Escape(bytes[1..])
  }

  /** One character encoded: itself when unreserved, else its escaped UTF-8
      bytes (three to twelve characters). */
  function EncodeChar(c: char): (r: string)
    ensures Unreserved(c) ==> r == [c]
    ensures !Unreserved(c) ==> 3 <= |r| <= 12 && r[0] == '%'
    ensures forall i :: 0 <= i < |r| ==> Unreserved(r[i]) || r[i] == '%'
  {
    if Unreserved(c) then [c] else Escape(Utf8(c))
  }

  /** `encodeURIComponent(s)`. */
  function Encode(s: string): (r: string)
    ensures |r| >= |s|
    ensures forall i :: 0 <= i < |r| ==> Unreserved(r[i]) || r[i] == '%'
  {
    if s == [] then [] else EncodeChar(s[0]) + Encode(s[1..])
  }

  /** Encoding works character by character, so it distributes over concatenation. */
  lemma {:induction false} EncodeAppend(a: string, b: string)
    ensures Encode(a + b) == Encode(a) + Encode(b)
  {
    if a == [] {
      assert a + b == b;
    } else {
      assert (a + b)[0] == a[0] && (a + b)[1..] == a[1..] + b;
      EncodeAppend(a[1..], b);
    }
  }

  /** Encoding leaves a string unchanged exactly when all its characters are
      unreserved; otherwise it makes it strictly longer. */
  lemma {:induction false} EncodeIdentity(s: string)
    ensures Encode(s) == s <==> AllUnreserved(s)
    ensures !AllUnreserved(s) ==> |Encode(s)| > |s|
  {
    if s != [] {
      EncodeIdentity(s[1..]);
      if Unreserved(s[0]) {
        assert s == [s[0]] + s[1..];
        assert AllUnreserved(s) <==> AllUnreserved(s[1..]) by {
          if AllUnreserved(s[1..]) {
            forall i | 0 <= i < |s| ensures Unreserved(s[i]) {
              if i > 0 { assert s[i] == s[1..][i - 1]; }
            }
          }
        }
      } else {
        assert |Encode(s)| == |EncodeChar(s[0])| + |Encode(s[1..])|;
      }
    }
  }

  /** The encoded text contains no `/`, so it is a single path segment. */
  lemma EncodeNoSlash(s: string)
    ensures '/' !in Encode(s)
  {
    var r := Encode(s);
    forall i | 0 <= i < |r| ensures r[i] != '/' {
      assert Unreserved(r[i]) || r[i] == '%';
    }
  }

  /** The byte written as `%XX` at position `i`, if there is one. */
  function ByteAt(r: string, i: nat): (b: Option<nat>)
    ensures b.Some? ==> b.value < 256
  {
    if i + 3 <= |r| && r[i] == '%' && HexValue(r[i + 1]).Some? && HexValue(r[i + 2]).Some? then
      Some(16 * HexValue(r[i + 1]).value + HexValue(r[i + 2]).value)
    else None
  }

  /** The six payload bits of a UTF-8 continuation byte written at position `i`. */
  function ContinuationAt(r: string, i: nat): (v: Option<nat>)
    ensures v.Some? ==> v.value < 64
  {
    match ByteAt(r, i)
    case Some(b) => if 0x80 <= b < 0xC0 then Some(b - 0x80) else None
    case None => None
  }

  predicate IsScalar(n: int) {
    (0 <= n < 0xD800) || (0xE000 <= n < 0x110000)
  }

  /** A decoded code point of a multi-byte sequence, rejected when it is
      written with more bytes than needed or is not a scalar value. */
  function Scalar(cp: int, least: int, used: nat): Option<(char, nat)> {
    if least <= cp && IsScalar(cp) then Some((cp as char, used)) else None
  }

  /** The first character of an encoded text and how many characters of the
      text it took: a plain character stands for itself, an escape starts a
      UTF-8 sequence of one to four escaped bytes. */
  function DecodeFirst(r: string): (d: Option<(char, nat)>)
    requires r != []
    ensures d.Some? ==> 1 <= d.value.1 <= |r|
  {
    if r[0] != '%' then Some((r[0], 1))
    else
      match ByteAt(r, 0)
      case None => None
      case Some(b0) =>
        if b0 < 0x80 then Some((b0 as char, 3))
        else if 0xC0 <= b0 < 0xE0 then
          match ContinuationAt(r, 3)
          case None => None
          case Some(c1) => Scalar((b0 - 0xC0) * 0x40 + c1, 0x80, 6)
        else if 0xE0 <= b0 < 0xF0 then
          match (ContinuationAt(r, 3), ContinuationAt(r, 6))
          case (Some(c1), Some(c2)) => Scalar((b0 - 0xE0) * 0x1000 + c1 * 0x40 + c2, 0x800, 9)
          case _ => None
        else if 0xF0 <= b0 < 0xF8 then
          match (ContinuationAt(r, 3), ContinuationAt(r, 6), ContinuationAt(r, 9))
          case (Some(c1), Some(c2), Some(c3)) =>
            Scalar((b0 - 0xF0) * 0x40000 + c1 * 0x1000 + c2 * 0x40 + c3, 0x10000, 12)
          case _ => None
        else None
  }

  /** `decodeURIComponent(r)`, `None` where it throws a URIError. */
  function Decode(r: string): Option<string>
    decreases |r|
  {
    if r == [] then Some([])
    else
      match DecodeFirst(r)
      case None => None
      case Some((c, used)) =>
        match Decode(r[used..])
        case None => None
        case Some(t) => Some([c] + t)
  }

  /** `ByteAt` looks only at the three characters from its position on. */
  lemma ByteAtShift(prefix: string, tail: string, i: nat)
    ensures ByteAt(prefix + tail, |prefix| + i) == ByteAt(tail, i)
  {
    var r := prefix + tail;
    if i + 3 <= |tail| {
      assert r[|prefix| + i] == tail[i] && r[|prefix| + i + 1] == tail[i + 1] && r[|prefix| + i + 2] == tail[i + 2];
    }
  }

  /** The byte written by one `%XX` group is read back at its position. */
  lemma EscapeHeadByte(b: nat, tail: string)
    requires b < 256
    ensures ByteAt(['%', HexDigit(b / 16), HexDigit(b % 16)] + tail, 0) == Some(b)
  {
    var r := ['%', HexDigit(b / 16), HexDigit(b % 16)] + tail;
    assert r[0] == '%' && r[1] == HexDigit(b / 16) && r[2] == HexDigit(b % 16);
    assert 16 * (b / 16) + b % 16 == b;
  }

  lemma {:induction false} EscapeAt(bytes: seq<nat>, j: nat, rest: string)
    requires forall i :: 0 <= i < |bytes| ==> bytes[i] < 256
    requires j < |bytes|
    ensures ByteAt(Escape(bytes) + rest, 3 * j) == Some(bytes[j])
  {
    var b := bytes[0];
    var head := ['%', HexDigit(b / 16), HexDigit(b % 16)];
    var tail := Escape(bytes[1..]) + rest;
    assert Escape(bytes) + rest == head + tail;
    if j == 0 {
      assert 16 * (b / 16) + b % 16 == b;
    } else {
      EscapeAt(bytes[1..], j - 1, rest);
      ByteAtShift(head, tail, 3 * (j - 1));
    }
  }

  /** Decoding the escapes of one character, followed by anything, yields
      that character and consumes exactly its escapes. */
  lemma DecodeFirstChar(c: char, rest: string)
    ensures DecodeFirst(EncodeChar(c) + rest) == Some((c, |EncodeChar(c)|))
  {
    if !Unreserved(c) {
      var n := c as int;
      if n < 0x80 {
        DecodeOneByte(c, rest);
      } else if n < 0x800 {
        DecodeTwoBytes(c, rest);
      } else if n < 0x10000 {
        DecodeThreeBytes(c, rest);
      } else {
        DecodeFourBytes(c, rest);
      }
    }
  }

  lemma DecodeOneByte(c: char, rest: string)
    requires c as int < 0x80
    ensures DecodeFirst(Escape(Utf8(c)) + rest) == Some((c, 3))
  {
    EscapeAt(Utf8(c), 0, rest);
  }

  lemma DecodeTwoBytes(c: char, rest: string)
    requires 0x80 <= c as int < 0x800
    ensures DecodeFirst(Escape(Utf8(c)) + rest) == Some((c, 6))
  {
    var n := c as int;
    var bytes := Utf8(c);
    var r := Escape(bytes) + rest;
    assert bytes == [0xC0 + n / 0x40, 0x80 + n % 0x40];
    EscapeAt(bytes, 0, rest);
    EscapeAt(bytes, 1, rest);
    assert ContinuationAt(r, 3) == Some(n % 0x40);
  }

  /** The bit fields of a code point put back together. */
  lemma Recompose3(n: int)
    requires 0 <= n
    ensures (n / 0x1000) * 0x1000 + ((n / 0x40) % 0x40) * 0x40 + n % 0x40 == n
  {
    var q := n / 0x40;
    assert q * 0x40 + n % 0x40 == n;
    assert (q / 0x40) * 0x40 + q % 0x40 == q;
    assert q / 0x40 == n / 0x1000;
  }

  lemma Recompose4(n: int)
    requires 0 <= n
    ensures (n / 0x40000) * 0x40000 + ((n / 0x1000) % 0x40) * 0x1000 + ((n / 0x40) % 0x40) * 0x40 + n % 0x40 == n
  {
    var q := n / 0x1000;
    assert (q / 0x40) * 0x40 + q % 0x40 == q;
    assert q / 0x40 == n / 0x40000;
    Recompose3(n);
  }

  /** A three-byte lead followed by two continuations decodes to the scalar
      they spell. */
  lemma DecodeFirstOfThree(r: string, b0: nat, c1: nat, c2: nat)
    requires r != [] && r[0] == '%'
    requires ByteAt(r, 0) == Some(b0) && 0xE0 <= b0 < 0xF0
    requires ContinuationAt(r, 3) == Some(c1) && ContinuationAt(r, 6) == Some(c2)
    ensures DecodeFirst(r) == Scalar((b0 - 0xE0) * 0x1000 + c1 * 0x40 + c2, 0x800, 9)
  {
    assert !(b0 < 0x80) && !(0xC0 <= b0 < 0xE0);
  }

  /** A four-byte lead followed by three continuations decodes to the scalar
      they spell. */
  lemma DecodeFirstOfFour(r: string, b0: nat, c1: nat, c2: nat, c3: nat)
    requires r != [] && r[0] == '%'
    requires ByteAt(r, 0) == Some(b0) && 0xF0 <= b0 < 0xF8
    requires ContinuationAt(r, 3) == Some(c1) && ContinuationAt(r, 6) == Some(c2) && ContinuationAt(r, 9) == Some(c3)
    ensures DecodeFirst(r) == Scalar((b0 - 0xF0) * 0x40000 + c1 * 0x1000 + c2 * 0x40 + c3, 0x10000, 12)
  {
    assert !(b0 < 0x80) && !(0xC0 <= b0 < 0xE0) && !(0xE0 <= b0 < 0xF0);
  }

  lemma DecodeThreeBytes(c: char, rest: string)
    requires 0x800 <= c as int < 0x10000
    ensures DecodeFirst(Escape(Utf8(c)) + rest) == Some((c, 9))
  {
    var n := c as int;
    var bytes := Utf8(c);
    var r := Escape(bytes) + rest;
    var b0, c1, c2 := 0xE0 + n / 0x1000, (n / 0x40) % 0x40, n % 0x40;
    assert bytes == [b0, 0x80 + c1, 0x80 + c2];
    EscapeAt(bytes, 0, rest);
    EscapeAt(bytes, 1, rest);
    EscapeAt(bytes, 2, rest);
    assert ByteAt(r, 0) == Some(b0) && 0xE0 <= b0 < 0xF0;
    assert ContinuationAt(r, 3) == Some(c1);
    assert ContinuationAt(r, 6) == Some(c2);
    Recompose3(n);
    assert (b0 - 0xE0) * 0x1000 + c1 * 0x40 + c2 == n;
    DecodeFirstOfThree(r, b0, c1, c2);
  }

  lemma DecodeFourBytes(c: char, rest: string)
    requires 0x10000 <= c as int
    ensures DecodeFirst(Escape(Utf8(c)) + rest) == Some((c, 12))
  {
    var n := c as int;
    var bytes := Utf8(c);
    var r := Escape(bytes) + rest;
    var b0, c1, c2, c3 := 0xF0 + n / 0x40000, (n / 0x1000) % 0x40, (n / 0x40) % 0x40, n % 0x40;
    assert bytes == [b0, 0x80 + c1, 0x80 + c2, 0x80 + c3];
    EscapeAt(bytes, 0, rest);
    EscapeAt(bytes, 1, rest);
    EscapeAt(bytes, 2, rest);
    EscapeAt(bytes, 3, rest);
    assert ByteAt(r, 0) == Some(b0) && 0xF0 <= b0 < 0xF8;
    assert ContinuationAt(r, 3) == Some(c1);
    assert ContinuationAt(r, 6) == Some(c2);
    assert ContinuationAt(r, 9) == Some(c3);
    Recompose4(n);
    assert (b0 - 0xF0) * 0x40000 + c1 * 0x1000 + c2 * 0x40 + c3 == n;
    DecodeFirstOfFour(r, b0, c1, c2, c3);
  }

  /** `decodeURIComponent` inverts `encodeURIComponent`. */
  lemma {:induction false} DecodeEncode(s: string)
    ensures Decode(Encode(s)) == Some(s)
  {
    if s != [] {
      var first := EncodeChar(s[0]);
      var tail := Encode(s[1..]);
      DecodeFirstChar(s[0], tail);
      assert (first + tail)[|first|..] == tail;
      DecodeEncode(s[1..]);
      assert s == [s[0]] + s[1..];
    }
  }

  /** So distinct texts have distinct encodings. */
  lemma EncodeInjective(a: string, b: string)
    requires Encode(a) == Encode(b)
    ensures a == b
  {
    DecodeEncode(a);
    DecodeEncode(b);
  }
}
