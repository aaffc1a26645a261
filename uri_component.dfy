/**
 * `encodeURIComponent`: every character outside the unreserved set of the
 * ECMAScript specification (ASCII letters, digits and `-_.!~*'()`) becomes
 * the `%XY` escapes of its UTF-8 bytes, in the manner of section 2.1 of
 * RFC 3986 (upper-case hexadecimal digits).
 */
module UriComponent {

  predicate IsUnreserved(c: char) {
    ('A' <= c <= 'Z') || ('a' <= c <= 'z') || ('0' <= c <= '9')
    || c == '-' || c == '_' || c == '.' || c == '!' || c == '~' || c == '*'
    || c == '\'' || c == '(' || c == ')'
  }

  /** What an encoded string is made of: unreserved characters and `%`. */
  predicate IsEncodedChar(c: char) {
    IsUnreserved(c) || c == '%'
  }

  function HexDigit(n: nat): (c: char)
    requires n < 16
    ensures IsUnreserved(c)
  {
    if n < 10 then ('0' as int + n) as char else ('A' as int + n - 10) as char
  }

  /** The UTF-8 encoding of one Unicode scalar value. */
  function Utf8(c: char): (bytes: seq<nat>)
    ensures 1 <= |bytes| <= 4
    ensures forall i :: 0 <= i < |bytes| ==> bytes[i] < 256
    ensures |bytes| == 1 <==> c as int < 0x80
  {
    var cp := c as int;
    if cp < 0x80 then [cp]
    else if cp < 0x800 then [0xC0 + cp / 64, 0x80 + cp % 64]
    else if cp < 0x10000 then [0xE0 + cp / 4096, 0x80 + (cp / 64) % 64, 0x80 + cp % 64]
    else [0xF0 + cp / 262144, 0x80 + (cp / 4096) % 64, 0x80 + (cp / 64) % 64, 0x80 + cp % 64]
  }

  function PercentEncode(bytes: seq<nat>): (r: string)
    requires forall i :: 0 <= i < |bytes| ==> bytes[i] < 256
    ensures |r| == 3 * |bytes|
    ensures forall i :: 0 <= i < |r| ==> IsEncodedChar(r[i])
  {
    if |bytes| == 0 then ""
    else ['%', HexDigit(bytes[0] / 16), HexDigit(bytes[0] % 16)] + PercentEncode(bytes[1..])
  }

  /** The encoding of one character. */
  function EncodeChar(c: char): (r: string)
    ensures forall i :: 0 <= i < |r| ==> IsEncodedChar(r[i])
    ensures IsUnreserved(c) ==> r == [c]
    ensures !IsUnreserved(c) ==> |r| >= 3
  {
    if IsUnreserved(c) then [c] else PercentEncode(Utf8(c))
  }

  /** `encodeURIComponent(s)`. */
  function Encode(s: string): (r: string)
    ensures forall i :: 0 <= i < |r| ==> IsEncodedChar(r[i])
    ensures |r| >= |s|
  {
    if |s| == 0 then "" else EncodeChar(s[0]) + Encode(s[1..])
  }

  /** The query-string delimiters never appear in an encoded value. */
  lemma EncodedHasNoDelimiters(s: string)
    ensures '&' !in Encode(s) && '=' !in Encode(s) && '?' !in Encode(s) && '#' !in Encode(s)
  {
    var r := Encode(s);
    forall i | 0 <= i < |r| ensures r[i] != '&' && r[i] != '=' && r[i] != '?' && r[i] != '#' {
      assert IsEncodedChar(r[i]);
    }
  }

  /** A string comes through unchanged exactly when it has only unreserved characters. */
  lemma {:induction false} EncodeIsIdentityIff(s: string)
    ensures Encode(s) == s <==> forall i :: 0 <= i < |s| ==> IsUnreserved(s[i])
  {
    if |s| > 0 {
      EncodeIsIdentityIff(s[1..]);
      var head, tail := EncodeChar(s[0]), Encode(s[1..]);
      assert Encode(s) == head + tail;
      if IsUnreserved(s[0]) {
        assert s == [s[0]] + s[1..];
        if Encode(s) == s {
          assert tail == s[1..];
        }
        assert (forall i :: 0 <= i < |s| ==> IsUnreserved(s[i]))
               <==> (forall i :: 0 <= i < |s[1..]| ==> IsUnreserved(s[1..][i]));
      } else {
        assert |Encode(s)| > |s|;
      }
    }
  }
}
