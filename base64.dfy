/**
 * The base 64 encoding of section 4 of RFC 4648 (standard alphabet, with
 * `=` padding), as used for the HTTP Basic credentials of the connection.
 * The decoder is the partner of the encoder: it reads back what the encoder
 * wrote.
 */
module Base64 {
  import opened Wrappers

  type Byte = b: int | 0 <= b < 256

  /** A 6-bit value, the index of one character of the alphabet. */
  type Sextet = i: int | 0 <= i < 64

  /** Table 1 of RFC 4648: `A`-`Z`, `a`-`z`, `0`-`9`, `+`, `/`. */
  function Char(i: Sextet): char
  {
    if i < 26 then ('A' as int + i) as char
    else if i < 52 then ('a' as int + (i - 26)) as char
    else if i < 62 then ('0' as int + (i - 52)) as char
    else if i == 62 then '+'
    else '/'
  }

  predicate IsAlphabet(c: char)
  {
    ('A' <= c <= 'Z') || ('a' <= c <= 'z') || ('0' <= c <= '9') || c == '+' || c == '/'
  }

  /** The inverse of Table 1. */
  function IndexOf(c: char): (i: Sextet)
    requires IsAlphabet(c)
    ensures Char(i) == c
  {
    if 'A' <= c <= 'Z' then c as int - 'A' as int
    else if 'a' <= c <= 'z' then c as int - 'a' as int + 26
    else if '0' <= c <= '9' then c as int - '0' as int + 52
    else if c == '+' then 62
    else 63
  }

  lemma CharInAlphabet(i: Sextet)
    ensures IsAlphabet(Char(i)) && IndexOf(Char(i)) == i
  {
  }

  /** Three bytes (24 bits) become four sextets, most significant first. */
  function EncodeGroup(b0: Byte, b1: Byte, b2: Byte): (r: string)
    ensures |r| == 4
  {
    [Char(b0 / 4), Char((b0 % 4) * 16 + b1 / 16), Char((b1 % 16) * 4 + b2 / 64), Char(b2 % 64)]
  }

  /** A final group of one or two bytes is zero-filled and padded with `=`. */
  function EncodeTail(b: seq<Byte>): (r: string)
    requires 1 <= |b| <= 2
    ensures |r| == 4 && r[3] == '='
    ensures |b| == 1 <==> r[2] == '='
  {
    if |b| == 1 then [Char(b[0] / 4), Char((b[0] % 4) * 16), '=', '=']
    else [Char(b[0] / 4), Char((b[0] % 4) * 16 + b[1] / 16), Char((b[1] % 16) * 4), '=']
  }

  /** Every three input bytes become four characters; the output is padded to a multiple of four. */
  function Encode(b: seq<Byte>): (r: string)
    ensures |r| == 4 * ((|b| + 2) / 3)
    decreases |b|
  {
    if |b| == 0 then ""
    else if |b| <= 2 then EncodeTail(b)
    else EncodeGroup(b[0], b[1], b[2]) + Encode(b[3..])
  }

  /** Reads four characters back into the bytes they encode. */
  function DecodeGroup(c0: char, c1: char, c2: char, c3: char): (r: seq<Byte>)
    requires IsAlphabet(c0) && IsAlphabet(c1) && IsAlphabet(c2) && IsAlphabet(c3)
    ensures |r| == 3
  {
    var i0, i1, i2, i3 := IndexOf(c0), IndexOf(c1), IndexOf(c2), IndexOf(c3);
    [i0 * 4 + i1 / 16, (i1 % 16) * 16 + i2 / 4, (i2 % 4) * 64 + i3]
  }

  /** Decodes a padded encoding; `None` when `s` is not one. */
  function Decode(s: string): (r: Option<seq<Byte>>)
    decreases |s|
  {
    if |s| == 0 then Some([])
    else if |s| < 4 || !IsAlphabet(s[0]) || !IsAlphabet(s[1]) then None
    else if |s| == 4 && s[2] == '=' && s[3] == '=' then
      Some([IndexOf(s[0]) * 4 + IndexOf(s[1]) / 16])
    else if |s| == 4 && IsAlphabet(s[2]) && s[3] == '=' then
      var i0, i1, i2 := IndexOf(s[0]), IndexOf(s[1]), IndexOf(s[2]);
      Some([i0 * 4 + i1 / 16, (i1 % 16) * 16 + i2 / 4])
    else if IsAlphabet(s[2]) && IsAlphabet(s[3]) then
      match Decode(s[4..])
      case None => None
      case Some(rest) => Some(DecodeGroup(s[0], s[1], s[2], s[3]) + rest)
    else None
  }

  /** Splitting a byte into sextets and joining them again gives the byte back. */
  lemma GroupArithmetic(b0: Byte, b1: Byte, b2: Byte)
    ensures (b0 / 4) * 4 + ((b0 % 4) * 16 + b1 / 16) / 16 == b0
    ensures (((b0 % 4) * 16 + b1 / 16) % 16) * 16 + ((b1 % 16) * 4 + b2 / 64) / 4 == b1
    ensures (((b1 % 16) * 4 + b2 / 64) % 4) * 64 + b2 % 64 == b2
  {
  }

  lemma DecodeEncodeGroup(b0: Byte, b1: Byte, b2: Byte)
    ensures var e := EncodeGroup(b0, b1, b2);
      IsAlphabet(e[0]) && IsAlphabet(e[1]) && IsAlphabet(e[2]) && IsAlphabet(e[3]) &&
      DecodeGroup(e[0], e[1], e[2], e[3]) == [b0, b1, b2]
  {
    var i0, i1, i2, i3 := b0 / 4, (b0 % 4) * 16 + b1 / 16, (b1 % 16) * 4 + b2 / 64, b2 % 64;
    CharInAlphabet(i0);
    CharInAlphabet(i1);
    CharInAlphabet(i2);
    CharInAlphabet(i3);
    GroupArithmetic(b0, b1, b2);
    var d := DecodeGroup(Char(i0), Char(i1), Char(i2), Char(i3));
    assert d[0] == b0 && d[1] == b1 && d[2] == b2;
    ThreeBytes(d, b0, b1, b2);
  }

  lemma ThreeBytes(d: seq<Byte>, b0: Byte, b1: Byte, b2: Byte)
    requires |d| == 3 && d[0] == b0 && d[1] == b1 && d[2] == b2
    ensures d == [b0, b1, b2]
  {
  }

  lemma DecodeEncodeOne(b0: Byte)
    ensures Decode(EncodeTail([b0])) == Some([b0])
  {
    var e := EncodeTail([b0]);
    CharInAlphabet(b0 / 4);
    CharInAlphabet((b0 % 4) * 16);
    var i0: int, i1: int := IndexOf(e[0]), IndexOf(e[1]);
    assert i0 == b0 / 4 && i1 == (b0 % 4) * 16;
    assert i0 * 4 + i1 / 16 == b0;
  }

  lemma DecodeEncodeTwo(b0: Byte, b1: Byte)
    ensures Decode(EncodeTail([b0, b1])) == Some([b0, b1])
  {
    var e := EncodeTail([b0, b1]);
    CharInAlphabet(b0 / 4);
    CharInAlphabet((b0 % 4) * 16 + b1 / 16);
    CharInAlphabet((b1 % 16) * 4);
    assert IsAlphabet(e[2]) && e[2] != '=';
    var i0: int, i1: int, i2: int := IndexOf(e[0]), IndexOf(e[1]), IndexOf(e[2]);
    assert i0 == b0 / 4 && i1 == (b0 % 4) * 16 + b1 / 16 && i2 == (b1 % 16) * 4;
    GroupArithmetic(b0, b1, 0);
    assert i0 * 4 + i1 / 16 == b0;
    assert (i1 % 16) * 16 + i2 / 4 == b1;
  }

  /** A leading group of four alphabet characters decodes on its own. */
  lemma DecodeLeadingGroup(g: string, t: string)
    requires |g| == 4 && IsAlphabet(g[0]) && IsAlphabet(g[1]) && IsAlphabet(g[2]) && IsAlphabet(g[3])
    ensures Decode(g + t) == match Decode(t)
      case None => None
      case Some(rest) => Some(DecodeGroup(g[0], g[1], g[2], g[3]) + rest)
  {
    var s := g + t;
    assert s[0] == g[0] && s[1] == g[1] && s[2] == g[2] && s[3] == g[3];
    assert s[4..] == t;
  }

  /** Round trip: decoding an encoding yields the original bytes. */
  lemma {:induction false} DecodeEncode(b: seq<Byte>)
    ensures Decode(Encode(b)) == Some(b)
    decreases |b|
  {
    if |b| == 1 {
      assert b == [b[0]];
      DecodeEncodeOne(b[0]);
    } else if |b| == 2 {
      assert b == [b[0], b[1]];
      DecodeEncodeTwo(b[0], b[1]);
    } else if |b| >= 3 {
      DecodeEncode(b[3..]);
      DecodeEncodeStep(b);
    }
  }

  /** The inductive step of the round trip: one more leading group. */
  lemma DecodeEncodeStep(b: seq<Byte>)
    requires |b| >= 3 && Decode(Encode(b[3..])) == Some(b[3..])
    ensures Decode(Encode(b)) == Some(b)
  {
    var g, rest := EncodeGroup(b[0], b[1], b[2]), Encode(b[3..]);
    EncodeLeadingGroup(b);
    DecodeEncodeGroup(b[0], b[1], b[2]);
    DecodeLeadingGroup(g, rest);
    assert DecodeGroup(g[0], g[1], g[2], g[3]) == [b[0], b[1], b[2]];
    SplitThree(b);
    assert Encode(b) == g + rest;
    assert Decode(g + rest) == Some(b);
  }

  lemma SplitThree(b: seq<Byte>)
    requires |b| >= 3
    ensures [b[0], b[1], b[2]] + b[3..] == b
  {
  }

  /** Encoding splits a long input at its first three bytes. */
  lemma EncodeLeadingGroup(b: seq<Byte>)
    requires |b| >= 3
    ensures Encode(b) == EncodeGroup(b[0], b[1], b[2]) + Encode(b[3..])
  {
  }

  /** The pieces the longer test vectors are made of. */
  lemma GroupVectors()
    ensures EncodeGroup(102, 111, 111) == "Zm9v" && EncodeGroup(98, 97, 114) == "YmFy"
    ensures EncodeTail([102]) == "Zg==" && EncodeTail([102, 111]) == "Zm8="
    ensures EncodeTail([98]) == "Yg==" && EncodeTail([98, 97]) == "YmE="
  {
  }

  /** The test vectors of section 10 of RFC 4648 ("f", "fo", ..., "foobar"). */
  lemma TestVectors()
    ensures Encode([]) == ""
    ensures Encode([102]) == "Zg=="
    ensures Encode([102, 111]) == "Zm8="
    ensures Encode([102, 111, 111]) == "Zm9v"
    ensures Encode([102, 111, 111, 98]) == "Zm9vYg=="
    ensures Encode([102, 111, 111, 98, 97]) == "Zm9vYmE="
    ensures Encode([102, 111, 111, 98, 97, 114]) == "Zm9vYmFy"
  {
    GroupVectors();
    TestVectorsLong();
  }

  lemma TestVectorsLong()
    requires EncodeGroup(102, 111, 111) == "Zm9v" && EncodeGroup(98, 97, 114) == "YmFy"
    requires EncodeTail([98]) == "Yg==" && EncodeTail([98, 97]) == "YmE="
    ensures Encode([102, 111, 111]) == "Zm9v"
    ensures Encode([102, 111, 111, 98]) == "Zm9vYg=="
    ensures Encode([102, 111, 111, 98, 97]) == "Zm9vYmE="
    ensures Encode([102, 111, 111, 98, 97, 114]) == "Zm9vYmFy"
  {
    LeadingFoo([], "");
    LeadingFoo([98], "Yg==");
    LeadingFoo([98, 97], "YmE=");
    var bar: seq<Byte> := [98, 97, 114];
    EncodeLeadingGroup(bar);
    assert bar[3..] == [];
    LeadingFoo(bar, "YmFy");
  }

  /** The bytes of "foo" in front of `t` put "Zm9v" in front of its encoding. */
  lemma LeadingFoo(t: seq<Byte>, e: string)
    requires EncodeGroup(102, 111, 111) == "Zm9v"
    requires Encode(t) == e
    ensures Encode([102, 111, 111] + t) == "Zm9v" + e
  {
    var b := [102, 111, 111] + t;
    EncodeLeadingGroup(b);
    assert b[3..] == t;
  }
}
