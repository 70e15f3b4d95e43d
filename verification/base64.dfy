/**
 * The browser's `btoa` and `atob` as the crypto utility uses them: the
 * standard Base64 alphabet of section 4 of RFC 4648 with `=` padding,
 * encoding a string whose characters are all at most U+00FF (one byte per
 * character) and decoding with the "forgiving-base64 decode" algorithm of the
 * WHATWG Infra standard (ASCII whitespace is ignored, padding is optional,
 * left-over bits are discarded). `btoa` throws on a character above U+00FF and
 * `atob` throws on input it cannot decode; both throws are `None` here.
 */
module Base64 {
  import opened Types

  /** Every character fits in one byte, as `btoa` demands. */
  predicate IsLatin1(s: string) {
    forall i :: 0 <= i < |s| ==> s[i] as int < 0x100
  }

  /** Every character is 7-bit ASCII. */
  predicate IsAscii(s: string) {
    forall i :: 0 <= i < |s| ==> s[i] as int < 0x80
  }

  /** The symbol of the Base64 alphabet that stands for the 6-bit value `v`. */
  function Sym(v: int): (c: char)
    requires 0 <= v < 64
    ensures IsSym(c)
  {
    if v < 26 then (65 + v) as char
    else if v < 52 then (97 + v - 26) as char
    else if v < 62 then (48 + v - 52) as char
    else if v == 62 then '+'
    else '/'
  }

  /** `c` is one of the 64 symbols of the alphabet (padding `=` is not). */
  predicate IsSym(c: char) {
    ('A' <= c <= 'Z') || ('a' <= c <= 'z') || ('0' <= c <= '9') || c == '+' || c == '/'
  }

  /** The 6-bit value a symbol stands for; the inverse of `Sym`. */
  function SymValue(c: char): (v: int)
    requires IsSym(c)
    ensures 0 <= v < 64
  {
    if 'A' <= c <= 'Z' then c as int - 65
    else if 'a' <= c <= 'z' then c as int - 97 + 26
    else if '0' <= c <= '9' then c as int - 48 + 52
    else if c == '+' then 62
    else 63
  }

  lemma SymValueOfSym(v: int)
    requires 0 <= v < 64
    ensures SymValue(Sym(v)) == v
  {
  }

  /** One byte becomes two symbols (the last four bits are zero). */
  function Pair(c0: char): (r: string)
    requires c0 as int < 0x100
    ensures |r| == 2 && forall i :: 0 <= i < |r| ==> IsSym(r[i])
  {
    var b0 := c0 as int;
    [Sym(b0 / 4), Sym(b0 % 4 * 16)]
  }

  /** Two bytes become three symbols (the last two bits are zero). */
  function Triple(c0: char, c1: char): (r: string)
    requires c0 as int < 0x100 && c1 as int < 0x100
    ensures |r| == 3 && forall i :: 0 <= i < |r| ==> IsSym(r[i])
  {
    var b0, b1 := c0 as int, c1 as int;
    [Sym(b0 / 4), Sym(b0 % 4 * 16 + b1 / 16), Sym(b1 % 16 * 4)]
  }

  /** Three bytes become four symbols: 8+8+8 bits regrouped as 6+6+6+6. */
  function Quad(c0: char, c1: char, c2: char): (r: string)
    requires c0 as int < 0x100 && c1 as int < 0x100 && c2 as int < 0x100
    ensures |r| == 4 && forall i :: 0 <= i < |r| ==> IsSym(r[i])
  {
    var b0, b1, b2 := c0 as int, c1 as int, c2 as int;
    [Sym(b0 / 4), Sym(b0 % 4 * 16 + b1 / 16), Sym(b1 % 16 * 4 + b2 / 64), Sym(b2 % 64)]
  }

  /**
   * Base64 encoding of a byte string: whole groups of three bytes, then a
   * final group of one or two bytes padded with `=` to four characters.
   */
  function Encode(s: string): (r: string)
    requires IsLatin1(s)
    ensures |r| % 4 == 0
    ensures forall i :: 0 <= i < |r| ==> IsSym(r[i]) || r[i] == '='
    decreases |s|
  {
    if |s| == 0 then ""
    else if |s| == 1 then Pair(s[0]) + "=="
    else if |s| == 2 then Triple(s[0], s[1]) + "="
    else Quad(s[0], s[1], s[2]) + Encode(s[3..])
  }

  /** `btoa`: fails exactly when some character is above U+00FF. */
  function Btoa(s: string): (r: Option<string>)
    ensures r.Some? <==> IsLatin1(s)
    ensures r.Some? ==> IsAscii(r.value) && |r.value| % 4 == 0
  {
    if IsLatin1(s) then Some(Encode(s)) else None
  }

  /** ASCII whitespace: TAB, LF, FF, CR and SPACE. */
  predicate IsAsciiWhitespace(c: char) {
    c == '\t' || c == '\n' || c as int == 0x0C || c == '\r' || c == ' '
  }

  /** The input with every ASCII whitespace character removed, order kept. */
  function StripWhitespace(s: string): (r: string)
    ensures |r| <= |s|
    ensures forall i :: 0 <= i < |r| ==> !IsAsciiWhitespace(r[i])
    ensures (forall i :: 0 <= i < |s| ==> !IsAsciiWhitespace(s[i])) ==> r == s
  {
    if s == [] then []
    else (if IsAsciiWhitespace(s[0]) then [] else [s[0]]) + StripWhitespace(s[1..])
  }

  /** Every character other than ASCII whitespace survives, as often as it occurs. */
  lemma {:induction false} StripWhitespaceKeeps(s: string)
    ensures forall c :: !IsAsciiWhitespace(c) ==> multiset(StripWhitespace(s))[c] == multiset(s)[c]
  {
    if s != [] {
      StripWhitespaceKeeps(s[1..]);
      assert s == [s[0]] + s[1..];
      var head := if IsAsciiWhitespace(s[0]) then [] else [s[0]];
      assert StripWhitespace(s) == head + StripWhitespace(s[1..]);
      assert multiset(StripWhitespace(s)) == multiset(head) + multiset(StripWhitespace(s[1..]));
    }
  }

  /** Stripping whitespace works piecewise, so the kept characters stay in order. */
  lemma {:induction false} StripWhitespaceAppend(a: string, b: string)
    ensures StripWhitespace(a + b) == StripWhitespace(a) + StripWhitespace(b)
  {
    if a == [] {
      assert a + b == b;
    } else {
      var head := if IsAsciiWhitespace(a[0]) then [] else [a[0]];
      assert (a + b)[0] == a[0];
      assert (a + b)[1..] == a[1..] + b;
      StripWhitespaceAppend(a[1..], b);
      calc {
        StripWhitespace(a + b);
        head + StripWhitespace(a[1..] + b);
        head + (StripWhitespace(a[1..]) + StripWhitespace(b));
        (head + StripWhitespace(a[1..])) + StripWhitespace(b);
        StripWhitespace(a) + StripWhitespace(b);
      }
    }
  }

  /** Removes one or two trailing `=`. */
  function StripPadding(d: string): string {
    if |d| >= 2 && d[|d| - 2] == '=' && d[|d| - 1] == '=' then d[..|d| - 2]
    else if |d| >= 1 && d[|d| - 1] == '=' then d[..|d| - 1]
    else d
  }

  /** Padding removal keeps a prefix and drops at most two characters, all of them `=`. */
  lemma StripPaddingKeeps(d: string)
    ensures |d| - 2 <= |StripPadding(d)| <= |d| && StripPadding(d) == d[..|StripPadding(d)|]
    ensures forall k :: |StripPadding(d)| <= k < |d| ==> d[k] == '='
  {
  }

  predicate AllSyms(d: string) {
    forall i :: 0 <= i < |d| ==> IsSym(d[i])
  }

  /**
   * Decodes unpadded symbols: four symbols give three bytes, a final two
   * give one byte and a final three give two bytes; the bits left over in a
   * final group are dropped.
   */
  function DecodeSyms(d: string): (r: string)
    requires AllSyms(d) && |d| % 4 != 1
    ensures IsLatin1(r)
    decreases |d|
  {
    if |d| == 0 then ""
    else
      var a, b := SymValue(d[0]), SymValue(d[1]);
      if |d| == 2 then [(a * 4 + b / 16) as char]
      else
        var c := SymValue(d[2]);
        if |d| == 3 then [(a * 4 + b / 16) as char, (b % 16 * 16 + c / 4) as char]
        else
          var e := SymValue(d[3]);
          [(a * 4 + b / 16) as char, (b % 16 * 16 + c / 4) as char, (c % 4 * 64 + e) as char]
          + DecodeSyms(d[4..])
  }

  /**
   * `atob`: drop ASCII whitespace; when the length is a multiple of four, drop
   * one or two trailing `=`; fail when the length leaves remainder 1 modulo 4
   * or a non-alphabet character remains; otherwise decode.
   */
  function Atob(s: string): (r: Option<string>)
    ensures r.Some? ==> IsLatin1(r.value)
  {
    var stripped := StripWhitespace(s);
    var d := if |stripped| % 4 == 0 then StripPadding(stripped) else stripped;
    if |d| % 4 == 1 || !AllSyms(d) then None
    else Some(DecodeSyms(d))
  }

  lemma QuadArithmetic(b0: int, b1: int, b2: int)
    requires 0 <= b0 < 256 && 0 <= b1 < 256 && 0 <= b2 < 256
    ensures var a, b, c, e := b0 / 4, b0 % 4 * 16 + b1 / 16, b1 % 16 * 4 + b2 / 64, b2 % 64;
      a * 4 + b / 16 == b0 && b % 16 * 16 + c / 4 == b1 && c % 4 * 64 + e == b2
  {
  }

  lemma DecodePair(c0: char)
    requires c0 as int < 0x100
    ensures AllSyms(Pair(c0)) && DecodeSyms(Pair(c0)) == [c0]
  {
    var b0 := c0 as int;
    SymValueOfSym(b0 / 4);
    SymValueOfSym(b0 % 4 * 16);
  }

  lemma DecodeTriple(c0: char, c1: char)
    requires c0 as int < 0x100 && c1 as int < 0x100
    ensures AllSyms(Triple(c0, c1)) && DecodeSyms(Triple(c0, c1)) == [c0, c1]
  {
    var b0, b1 := c0 as int, c1 as int;
    SymValueOfSym(b0 / 4);
    SymValueOfSym(b0 % 4 * 16 + b1 / 16);
    SymValueOfSym(b1 % 16 * 4);
  }

  lemma QuadValues(c0: char, c1: char, c2: char)
    requires c0 as int < 0x100 && c1 as int < 0x100 && c2 as int < 0x100
    ensures var q, b0, b1, b2 := Quad(c0, c1, c2), c0 as int, c1 as int, c2 as int;
      && |q| == 4 && AllSyms(q)
      && SymValue(q[0]) == b0 / 4 && SymValue(q[1]) == b0 % 4 * 16 + b1 / 16
      && SymValue(q[2]) == b1 % 16 * 4 + b2 / 64 && SymValue(q[3]) == b2 % 64
  {
    var b0, b1, b2 := c0 as int, c1 as int, c2 as int;
    SymValueOfSym(b0 / 4);
    SymValueOfSym(b0 % 4 * 16 + b1 / 16);
    SymValueOfSym(b1 % 16 * 4 + b2 / 64);
    SymValueOfSym(b2 % 64);
  }

  lemma DecodeQuadAlone(c0: char, c1: char, c2: char)
    requires c0 as int < 0x100 && c1 as int < 0x100 && c2 as int < 0x100
    ensures AllSyms(Quad(c0, c1, c2)) && |Quad(c0, c1, c2)| == 4
    ensures DecodeSyms(Quad(c0, c1, c2)) == [c0, c1, c2]
  {
    QuadValues(c0, c1, c2);
    QuadArithmetic(c0 as int, c1 as int, c2 as int);
  }

  lemma DecodeSymsAppend(q: string, u: string)
    requires |q| == 4 && AllSyms(q) && AllSyms(u) && |u| % 4 != 1
    ensures AllSyms(q + u) && |q + u| % 4 != 1
    ensures DecodeSyms(q + u) == DecodeSyms(q) + DecodeSyms(u)
  {
    var d := q + u;
    assert d[4..] == u;
    assert d[..4] == q;
    assert q[4..] == "";
  }

  lemma StripPaddingAfterPrefix(p: string, u: string)
    requires |u| >= 2
    ensures StripPadding(p + u) == p + StripPadding(u)
  {
    var w := p + u;
    assert w[|w| - 2] == u[|u| - 2] && w[|w| - 1] == u[|u| - 1];
    assert w[..|w| - 2] == p + u[..|u| - 2];
    assert w[..|w| - 1] == p + u[..|u| - 1];
  }

  lemma StripNoPad(x: string)
    requires |x| >= 1 && IsSym(x[|x| - 1])
    ensures StripPadding(x) == x
  {
  }

  lemma StripOnePad(x: string)
    requires |x| >= 1 && IsSym(x[|x| - 1])
    ensures StripPadding(x + "=") == x
  {
    var w := x + "=";
    assert w[|w| - 2] == x[|x| - 1];
    assert w[..|w| - 1] == x;
  }

  lemma StripTwoPads(x: string)
    ensures StripPadding(x + "==") == x
  {
    assert (x + "==")[..|x|] == x;
  }

  lemma EncodeOne(s: string)
    requires IsLatin1(s) && |s| == 1
    ensures Encode(s) == Pair(s[0]) + "=="
  {
  }

  lemma EncodeTwo(s: string)
    requires IsLatin1(s) && |s| == 2
    ensures Encode(s) == Triple(s[0], s[1]) + "="
  {
  }

  /** With the padding removed, the encoding of one byte decodes to it. */
  lemma DecodeEncodeOne(s: string)
    requires IsLatin1(s) && |s| == 1
    ensures AllSyms(StripPadding(Encode(s))) && |StripPadding(Encode(s))| % 4 != 1
    ensures DecodeSyms(StripPadding(Encode(s))) == s
  {
    EncodeOne(s);
    StripTwoPads(Pair(s[0]));
    DecodePair(s[0]);
  }

  /** With the padding removed, the encoding of two bytes decodes to them. */
  lemma DecodeEncodeTwo(s: string)
    requires IsLatin1(s) && |s| == 2
    ensures AllSyms(StripPadding(Encode(s))) && |StripPadding(Encode(s))| % 4 != 1
    ensures DecodeSyms(StripPadding(Encode(s))) == s
  {
    EncodeTwo(s);
    DecodeTriple(s[0], s[1]);
    StripOnePad(Triple(s[0], s[1]));
    assert s == [s[0], s[1]];
  }

  /** Padding only ever ends the last group, so it is stripped after the first. */
  lemma StripPaddingLong(s: string)
    requires IsLatin1(s) && |s| >= 3
    ensures IsLatin1(s[3..])
    ensures StripPadding(Encode(s)) == Quad(s[0], s[1], s[2]) + StripPadding(Encode(s[3..]))
  {
    var q := Quad(s[0], s[1], s[2]);
    QuadValues(s[0], s[1], s[2]);
    if |s| == 3 {
      assert Encode(s) == q + "";
      StripNoPad(q);
      assert q + "" == q;
    } else {
      StripPaddingAfterPrefix(q, Encode(s[3..]));
    }
  }

  lemma {:induction false} UnpaddedWellFormed(s: string)
    requires IsLatin1(s)
    ensures AllSyms(StripPadding(Encode(s)))
    ensures |StripPadding(Encode(s))| % 4 != 1
    decreases |s|
  {
    if |s| == 1 {
      DecodeEncodeOne(s);
    } else if |s| == 2 {
      DecodeEncodeTwo(s);
    } else if |s| >= 3 {
      StripPaddingLong(s);
      UnpaddedWellFormed(s[3..]);
      QuadValues(s[0], s[1], s[2]);
      DecodeSymsAppend(Quad(s[0], s[1], s[2]), StripPadding(Encode(s[3..])));
    }
  }

  /** Decoding a long encoding yields its first three bytes, then the rest. */
  lemma DecodeLong(s: string)
    requires IsLatin1(s) && |s| >= 3
    ensures IsLatin1(s[3..])
    ensures AllSyms(StripPadding(Encode(s[3..]))) && |StripPadding(Encode(s[3..]))| % 4 != 1
    ensures AllSyms(StripPadding(Encode(s))) && |StripPadding(Encode(s))| % 4 != 1
    ensures DecodeSyms(StripPadding(Encode(s))) == s[..3] + DecodeSyms(StripPadding(Encode(s[3..])))
  {
    StripPaddingLong(s);
    UnpaddedWellFormed(s[3..]);
    DecodeQuadAlone(s[0], s[1], s[2]);
    DecodeSymsAppend(Quad(s[0], s[1], s[2]), StripPadding(Encode(s[3..])));
    assert s[..3] == [s[0], s[1], s[2]];
  }

  /** Decoding the symbols of an encoding, padding removed, gives back the bytes. */
  lemma {:induction false} DecodeEncode(s: string)
    requires IsLatin1(s)
    ensures AllSyms(StripPadding(Encode(s))) && |StripPadding(Encode(s))| % 4 != 1
    ensures DecodeSyms(StripPadding(Encode(s))) == s
    decreases |s|
  {
    if |s| == 1 {
      DecodeEncodeOne(s);
    } else if |s| == 2 {
      DecodeEncodeTwo(s);
    } else if |s| >= 3 {
      DecodeLong(s);
      DecodeEncode(s[3..]);
      assert s == s[..3] + s[3..];
    }
  }

  lemma EncodeHasNoWhitespace(s: string)
    requires IsLatin1(s)
    ensures StripWhitespace(Encode(s)) == Encode(s)
    ensures |Encode(s)| % 4 == 0
  {
    var e := Encode(s);
    forall i | 0 <= i < |e| ensures !IsAsciiWhitespace(e[i]) {
      assert IsSym(e[i]) || e[i] == '=';
    }
  }

  /** `atob` undoes `btoa` on every string `btoa` accepts. */
  lemma AtobBtoa(s: string)
    requires IsLatin1(s)
    ensures Atob(Encode(s)) == Some(s)
  {
    EncodeHasNoWhitespace(s);
    DecodeEncode(s);
  }

  /**
   * `atob` throws on any character that is neither an alphabet symbol, nor
   * ASCII whitespace, nor `=`.
   */
  lemma AtobRejectsForeign(s: string, i: nat)
    requires i < |s| && !IsSym(s[i]) && !IsAsciiWhitespace(s[i]) && s[i] != '='
    ensures Atob(s).None?
  {
    var c := s[i];
    var stripped := StripWhitespace(s);
    StripWhitespaceKeeps(s);
    assert multiset(s)[c] > 0;
    assert c in stripped;
    var j :| 0 <= j < |stripped| && stripped[j] == c;
    StripPaddingKeeps(stripped);
    var d := if |stripped| % 4 == 0 then StripPadding(stripped) else stripped;
    assert j < |d| && d[j] == c;
  }
}
