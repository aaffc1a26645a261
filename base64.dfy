/**
 * `atob` as the browser defines it (the forgiving-base64 decode of the WHATWG
 * Infra standard): the alphabet of section 4 of RFC 4648 (`+` and `/`, not
 * the `-` and `_` of the base64url alphabet of section 5), ASCII whitespace
 * ignored, trailing padding optional. The decoded bytes come back as a
 * "binary string", one character per byte. `btoa`, its encoding partner,
 * is here to state the round trip.
 */
module Base64 {

  import opened Wrappers

  /** A binary string: every character stands for one byte. */
  predicate IsBinary(s: string) {
    forall i :: 0 <= i < |s| ==> s[i] as int < 256
  }

  predicate IsAsciiWhitespace(c: char) {
    c == '\t' || c == '\n' || c as int == 0x0C || c == '\r' || c == ' '
  }

  /** The 64 characters of the base64 alphabet. */
  predicate InAlphabet(c: char) {
    ('A' <= c <= 'Z') || ('a' <= c <= 'z') || ('0' <= c <= '9') || c == '+' || c == '/'
  }

  predicate AllInAlphabet(s: string) {
    forall i :: 0 <= i < |s| ==> InAlphabet(s[i])
  }

  function SextetOf(c: char): (v: nat)
    requires InAlphabet(c)
    ensures v < 64
  {
    if 'A' <= c <= 'Z' then c as int - 'A' as int
    else if 'a' <= c <= 'z' then c as int - 'a' as int + 26
    else if '0' <= c <= '9' then c as int - '0' as int + 52
    else if c == '+' then 62
    else 63
  }

  function CharOf(v: nat): (c: char)
    requires v < 64
    ensures InAlphabet(c) && SextetOf(c) == v
  {
    if v < 26 then ('A' as int + v) as char
    else if v < 52 then ('a' as int + v - 26) as char
    else if v < 62 then ('0' as int + v - 52) as char
    else if v == 62 then '+'
    else '/'
  }

  function RemoveWhitespace(s: string): (r: string)
    ensures forall c :: c in r <==> c in s && !IsAsciiWhitespace(c)
  {
    if |s| == 0 then ""
    else if IsAsciiWhitespace(s[0]) then RemoveWhitespace(s[1..])
    else [s[0]] + RemoveWhitespace(s[1..])
  }

  /** When the length is a multiple of four, one or two trailing `=` go. */
  function StripPadding(d: string): (r: string)
    ensures |r| <= |d| && r == d[..|r|]
    ensures forall i :: |r| <= i < |d| ==> d[i] == '='
  {
    if |d| % 4 == 0 && |d| >= 2 && d[|d| - 1] == '=' && d[|d| - 2] == '=' then d[..|d| - 2]
    else if |d| % 4 == 0 && |d| >= 1 && d[|d| - 1] == '=' then d[..|d| - 1]
    else d
  }

  /** The sextet values of alphabet characters. */
  function SextetsOf(d: string): (v: seq<nat>)
    requires AllInAlphabet(d)
    ensures |v| == |d| && forall i :: 0 <= i < |v| ==> v[i] < 64
  {
    seq(|d|, i requires 0 <= i < |d| => SextetOf(d[i]))
  }

  predicate AreSextets(v: seq<nat>) {
    forall i :: 0 <= i < |v| ==> v[i] < 64
  }

  /** Four sextets make three bytes; a final two or three make one or two. */
  function DecodeSextets(v: seq<nat>): (bytes: string)
    requires AreSextets(v) && |v| % 4 != 1
    ensures IsBinary(bytes)
    decreases |v|
  {
    if |v| < 2 then ""
    else if |v| == 2 then [FirstByte(v[0], v[1])]
    else if |v| == 3 then [FirstByte(v[0], v[1]), SecondByte(v[1], v[2])]
    else [FirstByte(v[0], v[1]), SecondByte(v[1], v[2]), ThirdByte(v[2], v[3])] + DecodeSextets(v[4..])
  }

  /** The byte made of all six bits of one sextet and the top two of the next. */
  function FirstByte(s0: nat, s1: nat): (c: char)
    requires s0 < 64 && s1 < 64
    ensures c as int < 256
  {
    (s0 * 4 + s1 / 16) as char
  }

  /** The byte made of the low four bits of one sextet and the top four of the next. */
  function SecondByte(s1: nat, s2: nat): (c: char)
    requires s1 < 64 && s2 < 64
    ensures c as int < 256
  {
    ((s1 % 16) * 16 + s2 / 4) as char
  }

  /** The byte made of the low two bits of one sextet and all six of the next. */
  function ThirdByte(s2: nat, s3: nat): (c: char)
    requires s2 < 64 && s3 < 64
    ensures c as int < 256
  {
    ((s2 % 4) * 64 + s3) as char
  }

  /** `atob(s)`; None where it throws InvalidCharacterError. */
  function Atob(s: string): (r: Option<string>)
    ensures r.Some? ==> IsBinary(r.value)
  {
    var d := StripPadding(RemoveWhitespace(s));
    if |d| % 4 == 1 || !AllInAlphabet(d) then None
    else Some(DecodeSextets(SextetsOf(d)))
  }

  /** A character outside the alphabet, `=` and whitespace makes `atob` throw. */
  lemma ForeignCharacterRejected(s: string, c: char)
    requires c in s && !InAlphabet(c) && !IsAsciiWhitespace(c) && c != '='
    ensures Atob(s) == None
  {
    var w := RemoveWhitespace(s);
    var d := StripPadding(w);
    assert c in w;
    var k :| 0 <= k < |w| && w[k] == c;
    assert d[k] == c;
  }

  /** The sextets of `btoa`, without padding. */
  function EncodeSextets(x: string): (v: seq<nat>)
    requires IsBinary(x)
    ensures AreSextets(v) && |v| % 4 != 1
    decreases |x|
  {
    if |x| == 0 then []
    else
      var b0 := x[0] as int;
      if |x| == 1 then [b0 / 4, (b0 % 4) * 16]
      else
        var b1 := x[1] as int;
        if |x| == 2 then [b0 / 4, (b0 % 4) * 16 + b1 / 16, (b1 % 16) * 4]
        else
          var g, rest := EncodeGroup(b0, b1, x[2] as int), EncodeSextets(x[3..]);
          FourMore(|rest|);
          SextetsAppend(g, rest);
          g + rest
  }

  /** Three bytes as four sextets. */
  function EncodeGroup(b0: nat, b1: nat, b2: nat): (v: seq<nat>)
    requires b0 < 256 && b1 < 256 && b2 < 256
    ensures |v| == 4 && AreSextets(v)
  {
    [b0 / 4, (b0 % 4) * 16 + b1 / 16, (b1 % 16) * 4 + b2 / 64, b2 % 64]
  }

  /** One step of the encoding: the first three bytes, then the rest. */
  lemma EncodeStep(x: string)
    requires IsBinary(x) && |x| >= 3
    ensures IsBinary(x[3..])
    ensures EncodeSextets(x) == EncodeGroup(x[0] as int, x[1] as int, x[2] as int) + EncodeSextets(x[3..])
  {
  }

  function CharsOf(v: seq<nat>): (d: string)
    requires AreSextets(v)
    ensures |d| == |v| && AllInAlphabet(d) && SextetsOf(d) == v
  {
    seq(|v|, i requires 0 <= i < |v| => CharOf(v[i]))
  }

  /** `btoa(x)` for a binary string: the sextet characters padded to a multiple of four. */
  function Btoa(x: string): string
    requires IsBinary(x)
  {
    CharsOf(EncodeSextets(x)) + Padding(x)
  }

  /** The arithmetic of one group: three bytes to four sextets and back. */
  lemma GroupArithmetic(b0: nat, b1: nat, b2: nat)
    requires b0 < 256 && b1 < 256 && b2 < 256
    ensures FirstByte(b0 / 4, (b0 % 4) * 16 + b1 / 16) == b0 as char
    ensures SecondByte((b0 % 4) * 16 + b1 / 16, (b1 % 16) * 4 + b2 / 64) == b1 as char
    ensures ThirdByte((b1 % 16) * 4 + b2 / 64, b2 % 64) == b2 as char
  {
  }

  /** The `=` characters `btoa` appends after the sextets of `x`. */
  function Padding(x: string): string {
    if |x| % 3 == 1 then "==" else if |x| % 3 == 2 then "=" else ""
  }

  /** Taking one group of three bytes keeps the remainder; adding four sextets keeps alignment. */
  lemma RemainderStep(n: int, m: int)
    requires n >= 3
    ensures (n - 3) % 3 == n % 3
    ensures m % 4 == 0 ==> (m + 4) % 4 == 0
  {
  }

  lemma {:induction false} PaddedLength(x: string)
    requires IsBinary(x)
    ensures (|EncodeSextets(x)| + |Padding(x)|) % 4 == 0
    ensures |x| > 0 ==> |EncodeSextets(x)| > 0
    decreases |x|
  {
    if |x| >= 3 {
      EncodeStep(x);
      PaddedLength(x[3..]);
      RemainderStep(|x|, |EncodeSextets(x[3..])| + |Padding(x[3..])|);
      assert |x[3..]| == |x| - 3;
      assert Padding(x) == Padding(x[3..]);
    } else if |x| == 2 {
      assert |EncodeSextets(x)| == 3 && Padding(x) == "=";
    } else if |x| == 1 {
      assert |EncodeSextets(x)| == 2 && Padding(x) == "==";
    }
  }

  lemma DecodeOne(b0: nat)
    requires b0 < 256
    ensures DecodeSextets([b0 / 4, (b0 % 4) * 16]) == [b0 as char]
  {
    GroupArithmetic(b0, 0, 0);
  }

  lemma DecodeTwo(b0: nat, b1: nat)
    requires b0 < 256 && b1 < 256
    ensures DecodeSextets([b0 / 4, (b0 % 4) * 16 + b1 / 16, (b1 % 16) * 4]) == [b0 as char, b1 as char]
  {
    GroupArithmetic(b0, b1, 0);
  }

  lemma GroupDecodes(b0: nat, b1: nat, b2: nat)
    requires b0 < 256 && b1 < 256 && b2 < 256
    ensures var g := EncodeGroup(b0, b1, b2);
            FirstByte(g[0], g[1]) == b0 as char && SecondByte(g[1], g[2]) == b1 as char
            && ThirdByte(g[2], g[3]) == b2 as char
  {
    GroupArithmetic(b0, b1, b2);
  }

  lemma SextetsAppend(a: seq<nat>, b: seq<nat>)
    requires AreSextets(a) && AreSextets(b)
    ensures AreSextets(a + b)
  {
    forall i | 0 <= i < |a + b| ensures (a + b)[i] < 64 {
      if i < |a| { assert (a + b)[i] == a[i]; } else { assert (a + b)[i] == b[i - |a|]; }
    }
  }

  lemma PadRemainder(n: int, p: int)
    requires 0 <= p <= 2 && (n + p) % 4 == 0 && (p > 0 ==> n > 0)
    ensures n % 4 != 1
  {
  }

  lemma FourMore(m: int)
    ensures (m + 4) % 4 == m % 4
  {
  }

  lemma DecodeThree(b0: nat, b1: nat, b2: nat, rest: seq<nat>)
    requires b0 < 256 && b1 < 256 && b2 < 256
    requires AreSextets(rest) && |rest| % 4 != 1
    ensures DecodeSextets(EncodeGroup(b0, b1, b2) + rest) == [b0 as char, b1 as char, b2 as char] + DecodeSextets(rest)
  {
    GroupDecodes(b0, b1, b2);
    DecodeGroupThen(EncodeGroup(b0, b1, b2), rest);
  }

  /** Decoding a group of four sextets followed by more sextets. */
  lemma DecodeGroupThen(g: seq<nat>, rest: seq<nat>)
    requires |g| == 4 && AreSextets(g)
    requires AreSextets(rest) && |rest| % 4 != 1
    ensures AreSextets(g + rest) && |g + rest| % 4 != 1
    ensures DecodeSextets(g + rest)
            == [FirstByte(g[0], g[1]), SecondByte(g[1], g[2]), ThirdByte(g[2], g[3])] + DecodeSextets(rest)
  {
    var v := g + rest;
    FourMore(|rest|);
    SextetsAppend(g, rest);
    assert v[4..] == rest;
    assert v[0] == g[0] && v[1] == g[1] && v[2] == g[2] && v[3] == g[3];
  }

  lemma {:induction false} DecodeEncodeSextets(x: string)
    requires IsBinary(x)
    ensures DecodeSextets(EncodeSextets(x)) == x
    decreases |x|
  {
    if |x| == 1 {
      DecodeOne(x[0] as int);
    } else if |x| == 2 {
      DecodeTwo(x[0] as int, x[1] as int);
    } else if |x| >= 3 {
      var rest := x[3..];
      var b0, b1, b2 := x[0] as int, x[1] as int, x[2] as int;
      EncodeStep(x);
      DecodeEncodeSextets(rest);
      DecodeThree(b0, b1, b2, EncodeSextets(rest));
      assert x == [b0 as char, b1 as char, b2 as char] + rest;
    }
  }

  lemma {:induction false} NoWhitespaceKept(s: string)
    requires forall i :: 0 <= i < |s| ==> !IsAsciiWhitespace(s[i])
    ensures RemoveWhitespace(s) == s
    decreases |s|
  {
    if |s| > 0 {
      NoWhitespaceKept(s[1..]);
      assert [s[0]] + s[1..] == s;
    }
  }

  /** Padding after alphabet characters is exactly what StripPadding removes. */
  lemma StripAddedPadding(body: string, pad: string)
    requires AllInAlphabet(body)
    requires pad == "" || pad == "=" || pad == "=="
    requires |body + pad| % 4 == 0 && (pad != "" ==> |body| > 0)
    ensures StripPadding(body + pad) == body
  {
    var e := body + pad;
    if pad == "" {
      assert e == body;
      if |body| > 0 { assert InAlphabet(e[|e| - 1]); }
    } else if pad == "=" {
      assert e[|e| - 2] == body[|body| - 1];
      assert InAlphabet(e[|e| - 2]);
      assert e[..|e| - 1] == body;
    } else {
      assert e[..|e| - 2] == body;
    }
  }

  lemma PaddedNoWhitespace(body: string, pad: string)
    requires AllInAlphabet(body)
    requires pad == "" || pad == "=" || pad == "=="
    ensures forall i :: 0 <= i < |body + pad| ==> !IsAsciiWhitespace((body + pad)[i])
  {
    var e := body + pad;
    forall i | 0 <= i < |e| ensures !IsAsciiWhitespace(e[i]) {
      if i < |body| { assert InAlphabet(body[i]); } else { assert e[i] == '='; }
    }
  }

  /** Alphabet characters with the padding `btoa` adds decode to their sextets. */
  lemma AtobOfPadded(body: string, pad: string)
    requires AllInAlphabet(body)
    requires pad == "" || pad == "=" || pad == "=="
    requires |body + pad| % 4 == 0 && (pad != "" ==> |body| > 0)
    ensures |body| % 4 != 1 && Atob(body + pad) == Some(DecodeSextets(SextetsOf(body)))
  {
    var e := body + pad;
    PadRemainder(|body|, |pad|);
    PaddedNoWhitespace(body, pad);
    NoWhitespaceKept(e);
    StripAddedPadding(body, pad);
  }

  /** `atob(btoa(x)) == x`: decoding undoes encoding. */
  lemma AtobBtoa(x: string)
    requires IsBinary(x)
    ensures Atob(Btoa(x)) == Some(x)
  {
    var v := EncodeSextets(x);
    var body := CharsOf(v);
    var pad := Padding(x);
    PaddedLength(x);
    assert |body + pad| == |v| + |pad|;
    assert pad != "" ==> |x| > 0;
    AtobOfPadded(body, pad);
    DecodeEncodeSextets(x);
  }
}
