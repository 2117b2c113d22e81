/**
 * The padded base64 encoding with the URL-safe alphabet (section 5 of RFC 4648) as Go's
 * base64.URLEncoding implements it. The decoder is as lenient as Go's: carriage returns and
 * line feeds are skipped and the unused low bits in front of the padding are ignored.
 */
module Base64Url {
  import opened Options

  type Byte = b: int | 0 <= b < 256
  type Sextet = v: int | 0 <= v < 64

  const PAD := '='

  function Digit(v: Sextet): char {
    if v < 26 then 'A' + v as char
    else if v < 52 then 'a' + (v - 26) as char
    else if v < 62 then '0' + (v - 52) as char
    else if v == 62 then '-'
    else '_'
  }

  function Value(c: char): Option<Sextet> {
    if 'A' <= c <= 'Z' then Some(c as int - 'A' as int)
    else if 'a' <= c <= 'z' then Some(c as int - 'a' as int + 26)
    else if '0' <= c <= '9' then Some(c as int - '0' as int + 52)
    else if c == '-' then Some(62)
    else if c == '_' then Some(63)
    else None
  }

  // ---- Groups of one to three bytes and their four digits ----

  // Three bytes a, b, c and four sextets v0 .. v3 hold the same 24 bits.
  function Sextet0(a: Byte): Sextet { a / 4 }
  function Sextet1(a: Byte, b: Byte): Sextet { a % 4 * 16 + b / 16 }
  function Sextet2(b: Byte, c: Byte): Sextet { b % 16 * 4 + c / 64 }
  function Sextet3(c: Byte): Sextet { c % 64 }
  function Byte0(v0: Sextet, v1: Sextet): Byte { v0 * 4 + v1 / 16 }
  function Byte1(v1: Sextet, v2: Sextet): Byte { v1 % 16 * 16 + v2 / 4 }
  function Byte2(v2: Sextet, v3: Sextet): Byte { v2 % 4 * 64 + v3 }

  function EncodeGroup(g: seq<Byte>): string
    requires 1 <= |g| <= 3
  {
    if |g| == 1 then [Digit(Sextet0(g[0])), Digit(Sextet1(g[0], 0)), PAD, PAD]
    else if |g| == 2 then [Digit(Sextet0(g[0])), Digit(Sextet1(g[0], g[1])), Digit(Sextet2(g[1], 0)), PAD]
    else [Digit(Sextet0(g[0])), Digit(Sextet1(g[0], g[1])), Digit(Sextet2(g[1], g[2])), Digit(Sextet3(g[2]))]
  }

  /** The bytes of one quad; '=' may only stand for the last one or two digits. */
  function DecodeGroup(q: string): (g: Option<seq<Byte>>)
    requires |q| == 4
    ensures g.Some? ==> 1 <= |g.value| <= 3
    ensures g.Some? ==> (|g.value| == 3 <==> q[3] != PAD)
  {
    match (Value(q[0]), Value(q[1]), Value(q[2]), Value(q[3]))
    case (Some(v0), Some(v1), Some(v2), Some(v3)) => Some([Byte0(v0, v1), Byte1(v1, v2), Byte2(v2, v3)])
    case (Some(v0), Some(v1), Some(v2), None) =>
      if q[3] == PAD then Some([Byte0(v0, v1), Byte1(v1, v2)]) else None
    case (Some(v0), Some(v1), None, None) =>
      if q[2] == PAD && q[3] == PAD then Some([Byte0(v0, v1)]) else None
    case _ => None
  }

  /** The quads an encoder produces: the bits in front of the padding are zero. */
  predicate CanonicalGroup(q: string)
    requires |q| == 4
  {
    match (Value(q[0]), Value(q[1]), Value(q[2]), Value(q[3]))
    case (Some(_), Some(_), Some(_), Some(_)) => true
    case (Some(_), Some(_), Some(v2), None) => q[3] == PAD && v2 % 4 == 0
    case (Some(_), Some(v1), None, None) => q[2] == PAD && q[3] == PAD && v1 % 16 == 0
    case _ => false
  }

  lemma SplitJoin(a: Byte, b: Byte, c: Byte)
    ensures Byte0(Sextet0(a), Sextet1(a, b)) == a
    ensures Byte1(Sextet1(a, b), Sextet2(b, c)) == b
    ensures Byte2(Sextet2(b, c), Sextet3(c)) == c
    ensures b == 0 ==> Sextet1(a, b) % 16 == 0
    ensures c == 0 ==> Sextet2(b, c) % 4 == 0
  {
  }

  lemma JoinSplit(v0: Sextet, v1: Sextet, v2: Sextet, v3: Sextet)
    ensures Sextet0(Byte0(v0, v1)) == v0
    ensures Sextet1(Byte0(v0, v1), Byte1(v1, v2)) == v1
    ensures Sextet2(Byte1(v1, v2), Byte2(v2, v3)) == v2
    ensures Sextet3(Byte2(v2, v3)) == v3
    ensures v1 % 16 == 0 ==> Sextet1(Byte0(v0, v1), 0) == v1
    ensures v2 % 4 == 0 ==> Sextet2(Byte1(v1, v2), 0) == v2
  {
  }

  lemma ValueOfDigit(v: Sextet)
    ensures Value(Digit(v)) == Some(v) && Digit(v) != PAD
  {
  }

  lemma DigitOfValue(c: char)
    requires Value(c).Some?
    ensures Digit(Value(c).value) == c
  {
  }

  lemma GroupRoundTrip(g: seq<Byte>)
    requires 1 <= |g| <= 3
    ensures DecodeGroup(EncodeGroup(g)) == Some(g) && CanonicalGroup(EncodeGroup(g))
  {
    if |g| == 1 {
      assert g == [g[0]];
      RoundTrip1(g[0]);
    } else if |g| == 2 {
      assert g == [g[0], g[1]];
      RoundTrip2(g[0], g[1]);
    } else {
      assert g == [g[0], g[1], g[2]];
      RoundTrip3(g[0], g[1], g[2]);
    }
  }

  lemma RoundTrip1(a: Byte)
    ensures DecodeGroup(EncodeGroup([a])) == Some([a]) && CanonicalGroup(EncodeGroup([a]))
  {
    var zero: Byte := 0;
    var v0, v1 := Sextet0(a), Sextet1(a, zero);
    SplitJoin(a, zero, zero);
    DecodeDigits(v0, v1, v0, v0);
  }

  lemma RoundTrip2(a: Byte, b: Byte)
    ensures DecodeGroup(EncodeGroup([a, b])) == Some([a, b]) && CanonicalGroup(EncodeGroup([a, b]))
  {
    SplitJoin(a, b, 0);
    DecodeDigits(Sextet0(a), Sextet1(a, b), Sextet2(b, 0), 0);
  }

  lemma RoundTrip3(a: Byte, b: Byte, c: Byte)
    ensures DecodeGroup(EncodeGroup([a, b, c])) == Some([a, b, c]) && CanonicalGroup(EncodeGroup([a, b, c]))
  {
    SplitJoin(a, b, c);
    DecodeDigits(Sextet0(a), Sextet1(a, b), Sextet2(b, c), Sextet3(c));
  }

  lemma DecodeDigits(v0: Sextet, v1: Sextet, v2: Sextet, v3: Sextet)
    ensures var q := [Digit(v0), Digit(v1), PAD, PAD];
      DecodeGroup(q) == Some([Byte0(v0, v1)]) && (CanonicalGroup(q) <==> v1 % 16 == 0)
    ensures var q := [Digit(v0), Digit(v1), Digit(v2), PAD];
      DecodeGroup(q) == Some([Byte0(v0, v1), Byte1(v1, v2)]) && (CanonicalGroup(q) <==> v2 % 4 == 0)
    ensures var q := [Digit(v0), Digit(v1), Digit(v2), Digit(v3)];
      DecodeGroup(q) == Some([Byte0(v0, v1), Byte1(v1, v2), Byte2(v2, v3)]) && CanonicalGroup(q)
  {
    ValueOfDigit(v0);
    ValueOfDigit(v1);
    ValueOfDigit(v2);
    ValueOfDigit(v3);
  }

  /** Every quad that decodes is made of digits. */
  lemma QuadDigits(q: string) returns (v0: Sextet, v1: Sextet, v2: Sextet, v3: Sextet)
    requires |q| == 4 && CanonicalGroup(q)
    ensures
      || q == [Digit(v0), Digit(v1), PAD, PAD]
      || q == [Digit(v0), Digit(v1), Digit(v2), PAD]
      || q == [Digit(v0), Digit(v1), Digit(v2), Digit(v3)]
  {
    DigitOfValue(q[0]);
    DigitOfValue(q[1]);
    v0, v1, v2, v3 := Value(q[0]).value, Value(q[1]).value, 0, 0;
    if Value(q[2]).Some? { DigitOfValue(q[2]); v2 := Value(q[2]).value; }
    if Value(q[3]).Some? { DigitOfValue(q[3]); v3 := Value(q[3]).value; }
    assert q == [q[0], q[1], q[2], q[3]];
  }

  lemma CanonicalGroupRoundTrip(q: string)
    requires |q| == 4 && CanonicalGroup(q)
    ensures DecodeGroup(q).Some? && EncodeGroup(DecodeGroup(q).value) == q
  {
    var v0, v1, v2, v3 := QuadDigits(q);
    JoinSplit(v0, v1, v2, v3);
    DecodeDigits(v0, v1, v2, v3);
  }

  // ---- Whole strings ----

  function Encode(src: seq<Byte>): string {
    if |src| == 0 then ""
    else if |src| <= 3 then EncodeGroup(src)
    else EncodeGroup(src[..3]) + Encode(src[3..])
  }

  function StripNewlines(s: string): string {
    if s == "" then ""
    else if s[0] == '\r' || s[0] == '\n' then StripNewlines(s[1..])
    else [s[0]] + StripNewlines(s[1..])
  }

  function Decode(s: string): Option<seq<Byte>> {
    DecodeQuads(StripNewlines(s))
  }

  function DecodeQuads(s: string): Option<seq<Byte>> {
    if s == "" then Some([])
    else if |s| < 4 then None
    else
      match DecodeGroup(s[..4])
      case None => None
      case Some(g) =>
        if |s| == 4 then Some(g)
        else if |g| < 3 then None
        else
          match DecodeQuads(s[4..])
          case Some(rest) => Some(g + rest)
          case None => None
  }

  /** The strings an encoder produces, told from the string alone. */
  predicate Canonical(s: string) {
    s == "" || (|s| >= 4 && CanonicalGroup(s[..4]) && (|s| > 4 ==> s[3] != PAD && Canonical(s[4..])))
  }

  lemma {:induction false} QuadsOfEncode(src: seq<Byte>)
    ensures Canonical(Encode(src)) && DecodeQuads(Encode(src)) == Some(src)
  {
    if |src| > 3 {
      var g, rest := src[..3], src[3..];
      GroupRoundTrip(g);
      QuadsOfEncode(rest);
      var s := EncodeGroup(g) + Encode(rest);
      assert s[..4] == EncodeGroup(g) && s[4..] == Encode(rest);
      assert src == g + rest;
    } else if src != [] {
      GroupRoundTrip(src);
      assert Encode(src)[..4] == Encode(src);
    }
  }

  lemma StripPush(c: char, s: string)
    requires c != '\r' && c != '\n'
    ensures StripNewlines([c] + s) == [c] + StripNewlines(s)
  {
    assert ([c] + s)[1..] == s;
  }

  lemma {:induction false} StripCanonical(s: string)
    requires Canonical(s)
    ensures StripNewlines(s) == s
  {
    if s != "" {
      var rest := s[4..];
      if rest != "" { StripCanonical(rest); }
      var q := s[..4];
      StripPush(q[3], rest);
      StripPush(q[2], [q[3]] + rest);
      StripPush(q[1], [q[2]] + ([q[3]] + rest));
      StripPush(q[0], [q[1]] + ([q[2]] + ([q[3]] + rest)));
      assert s == [q[0]] + ([q[1]] + ([q[2]] + ([q[3]] + rest)));
    }
  }

  /** Decoding undoes encoding, for every byte string. */
  lemma DecodeOfEncode(src: seq<Byte>)
    ensures Decode(Encode(src)) == Some(src)
  {
    QuadsOfEncode(src);
    StripCanonical(Encode(src));
  }

  lemma {:induction false} EncodeOfDecodeQuads(s: string)
    requires Canonical(s)
    ensures DecodeQuads(s).Some? && Encode(DecodeQuads(s).value) == s
    ensures s != "" ==> DecodeQuads(s).value != []
  {
    if s != "" {
      var g := DecodeGroup(s[..4]).value;
      CanonicalGroupRoundTrip(s[..4]);
      assert s == s[..4] + s[4..];
      if |s| > 4 {
        EncodeOfDecodeQuads(s[4..]);
        var rest := DecodeQuads(s[4..]).value;
        assert (g + rest)[..3] == g && (g + rest)[3..] == rest;
      }
    }
  }

  /** Encoding undoes decoding on exactly the canonical strings. */
  lemma EncodeOfDecode(s: string)
    requires Decode(s).Some?
    ensures Encode(Decode(s).value) == s <==> Canonical(s)
  {
    if Canonical(s) {
      StripCanonical(s);
      EncodeOfDecodeQuads(s);
    } else {
      QuadsOfEncode(Decode(s).value);
    }
  }

  // ---- What the encoding is, told from the alphabet and the bytes as numbers ----

  const UPPER := "ABCDEFGHIJKLMNOPQRSTUVWXYZ"
  const LOWER := "abcdefghijklmnopqrstuvwxyz"
  const DIGITS := "0123456789-_"
  const ALPHABET := UPPER + LOWER + DIGITS

  lemma UpperLetter(v: Sextet)
    requires v < 26
    ensures Digit(v) == UPPER[v]
  {
  }

  lemma LowerLetter(v: Sextet)
    requires 26 <= v < 52
    ensures Digit(v) == LOWER[v - 26]
  {
  }

  lemma DigitIsLetter(v: Sextet)
    ensures |ALPHABET| == 64 && Digit(v) == ALPHABET[v]
  {
    if v < 26 { UpperLetter(v); } else if v < 52 { LowerLetter(v); } else { assert Digit(v) == DIGITS[v - 52]; }
  }

  lemma ValueIsPosition(c: char, v: Sextet)
    ensures Value(c) == Some(v) <==> c == ALPHABET[v]
  {
    DigitIsLetter(v);
    ValueOfDigit(v);
    if Value(c).Some? { DigitOfValue(c); }
  }

  /** Byte i, or zero behind the end. */
  function ByteAt(src: seq<Byte>, i: nat): Byte {
    if i < |src| then src[i] else 0
  }

  /** The bytes of group k as one number of 24 bits. */
  function Number(src: seq<Byte>, k: nat): nat {
    65536 * ByteAt(src, 3 * k) + 256 * ByteAt(src, 3 * k + 1) + ByteAt(src, 3 * k + 2)
  }

  /** The i-th of the four digits of a number of 24 bits. */
  function SextetOf(n: nat, i: nat): Sextet
    requires i < 4
  {
    (if i == 0 then n / 262144 else if i == 1 then n / 4096 else if i == 2 then n / 64 else n) % 64
  }

  lemma Quotients(q: nat, r: nat)
    ensures r < 262144 ==> (262144 * q + r) / 262144 == q
    ensures r < 65536 ==> (65536 * q + r) / 65536 == q
    ensures r < 4096 ==> (4096 * q + r) / 4096 == q
    ensures r < 256 ==> (256 * q + r) / 256 == q && (256 * q + r) % 256 == r
    ensures r < 64 ==> (64 * q + r) / 64 == q && (64 * q + r) % 64 == r
  {
  }

  lemma SextetsOfNumber(a: Byte, b: Byte, c: Byte)
    ensures var n := 65536 * a + 256 * b + c;
      && SextetOf(n, 0) == Sextet0(a) && SextetOf(n, 1) == Sextet1(a, b)
      && SextetOf(n, 2) == Sextet2(b, c) && SextetOf(n, 3) == Sextet3(c)
  {
    var v0: nat, v1: nat, v2: nat, v3: nat := Sextet0(a), Sextet1(a, b), Sextet2(b, c), Sextet3(c);
    var n: nat := 65536 * a + 256 * b + c;
    var a1: nat, b0: nat, b1: nat, c0: nat := a % 4, b / 16, b % 16, c / 64;
    assert v1 == 16 * a1 + b0 && v2 == 4 * b1 + c0;
    assert a as nat == 4 * v0 + a1 && b as nat == 16 * b0 + b1 && c as nat == 64 * c0 + v3;
    assert n == 64 * (4096 * v0 + 64 * v1 + v2) + v3;
    NumberDigits(n, v0, v1, v2, v3);
  }

  lemma NumberDigits(n: nat, v0: nat, v1: nat, v2: nat, v3: nat)
    requires v0 < 64 && v1 < 64 && v2 < 64 && v3 < 64
    requires n == 64 * (4096 * v0 + 64 * v1 + v2) + v3
    ensures SextetOf(n, 0) == v0 && SextetOf(n, 1) == v1 && SextetOf(n, 2) == v2 && SextetOf(n, 3) == v3
  {
    Quotients(4096 * v0 + 64 * v1 + v2, v3);
    Quotients(64 * v0 + v1, 64 * v2 + v3);
    Quotients(v0, 4096 * v1 + 64 * v2 + v3);
    Quotients(64 * v0 + v1, v2);
    Quotients(v0, v1);
  }

  lemma GroupAt(g: seq<Byte>, i: nat)
    requires 1 <= |g| <= 3 && i < 4
    ensures EncodeGroup(g)[i] == if i <= |g| then Digit(SextetOf(Number(g, 0), i)) else '='
  {
    SextetsOfNumber(ByteAt(g, 0), ByteAt(g, 1), ByteAt(g, 2));
  }

  /** The encoding has four characters for every three bytes begun. */
  lemma {:induction false} EncodeLength(src: seq<Byte>)
    ensures |Encode(src)| == (|src| + 2) / 3 * 4
  {
    if |src| > 3 {
      EncodeLength(src[3..]);
      assert |src[3..]| + 2 == |src| + 2 - 3;
      Thirds(|src| + 2);
    }
  }

  lemma Thirds(n: nat)
    requires n >= 3
    ensures n / 3 == (n - 3) / 3 + 1
  {
  }

  /** The character at position i of group k. */
  function LetterAt(src: seq<Byte>, k: nat, i: nat): char
    requires i < 4
  {
    if 6 * (4 * k + i) < 8 * |src| then Digit(SextetOf(Number(src, k), i)) else '='
  }

  lemma LetterOfRest(src: seq<Byte>, k: nat, i: nat)
    requires |src| > 3 && k > 0 && i < 4
    ensures LetterAt(src[3..], k - 1, i) == LetterAt(src, k, i)
  {
    assert Number(src[3..], k - 1) == Number(src, k);
  }

  /**
   * The characters that carry bits are the digits of the 24-bit numbers of the groups, and the others are
   * equals signs; by DigitIsLetter the digits are the letters of the alphabet.
   */
  lemma {:induction false} EncodeAt(src: seq<Byte>, k: nat, i: nat)
    requires i < 4 && 4 * k + i < |Encode(src)|
    ensures Encode(src)[4 * k + i] == LetterAt(src, k, i)
  {
    if k == 0 {
      EncodeStart(src, i);
    } else {
      assert |src| > 3;
      EncodeRest(src, 4 * k + i);
      EncodeAt(src[3..], k - 1, i);
      LetterOfRest(src, k, i);
    }
  }

  lemma EncodeStart(src: seq<Byte>, i: nat)
    requires i < 4 && i < |Encode(src)|
    ensures Encode(src)[i] == LetterAt(src, 0, i)
  {
    var g := if |src| > 3 then src[..3] else src;
    GroupAt(g, i);
    assert Number(g, 0) == Number(src, 0);
  }

  lemma EncodeRest(src: seq<Byte>, j: nat)
    requires |src| > 3 && 4 <= j < |Encode(src)|
    ensures j - 4 < |Encode(src[3..])| && Encode(src)[j] == Encode(src[3..])[j - 4]
  {
  }

  // ---- What the decoder accepts and returns ----

  /** Line breaks are taken out, wherever they are. */
  lemma {:induction false} StripIsFilter(a: string, b: string)
    ensures StripNewlines(a + b) == StripNewlines(a) + StripNewlines(b)
  {
    if a == "" {
      assert a + b == b;
    } else {
      StripIsFilter(a[1..], b);
      StripFirst(a[0], a[1..] + b);
      StripFirst(a[0], a[1..]);
      assert a + b == [a[0]] + (a[1..] + b) && a == [a[0]] + a[1..];
    }
  }

  lemma StripFirst(c: char, s: string)
    ensures StripNewlines([c] + s) == (if c == '\r' || c == '\n' then "" else [c]) + StripNewlines(s)
  {
    assert ([c] + s)[1..] == s;
  }

  /** The number of equals signs at the end of a quad. */
  function Padding(q: string): nat
    requires |q| == 4
  {
    if q[3] != '=' then 0 else if q[2] != '=' then 1 else 2
  }

  predicate IsQuad(q: string) {
    |q| == 4 && forall i :: 0 <= i < 4 - Padding(q) ==> Value(q[i]).Some?
  }

  /** The value of digit i of a quad, with zeros for the padding. */
  function Position(q: string, i: nat): Sextet
    requires IsQuad(q) && i < 4
  {
    if i < 4 - Padding(q) then Value(q[i]).value else 0
  }

  lemma BytesOfNumber(v0: Sextet, v1: Sextet, v2: Sextet, v3: Sextet)
    ensures var n := 262144 * v0 + 4096 * v1 + 64 * v2 + v3;
      n / 65536 == Byte0(v0, v1) && n / 256 % 256 == Byte1(v1, v2) && n % 256 == Byte2(v2, v3)
  {
    var a: nat, b: nat, c: nat := Byte0(v0, v1), Byte1(v1, v2), Byte2(v2, v3);
    var x0: nat, x1: nat, y0: nat, y1: nat := v1 / 16, v1 % 16, v2 / 4, v2 % 4;
    assert v1 as nat == 16 * x0 + x1 && v2 as nat == 4 * y0 + y1;
    assert a == 4 * v0 as nat + x0 && b == 16 * x1 + y0 && c == 64 * y1 + v3 as nat;
    Quotients(256 * a + b, c);
    Quotients(a, 256 * b + c);
    Quotients(a, b);
  }

  lemma QuadAccepted(q: string)
    requires |q| == 4
    ensures DecodeGroup(q).Some? <==> IsQuad(q)
  {
    assert Value('=').None?;
  }

  /** The three bytes of four digits. */
  function Join(v0: Sextet, v1: Sextet, v2: Sextet, v3: Sextet): seq<Byte> {
    [Byte0(v0, v1), Byte1(v1, v2), Byte2(v2, v3)]
  }

  lemma JoinPrefix(v0: Sextet, v1: Sextet, v2: Sextet, v3: Sextet)
    ensures Join(v0, v1, v2, v3)[..1] == [Byte0(v0, v1)]
    ensures Join(v0, v1, v2, v3)[..2] == [Byte0(v0, v1), Byte1(v1, v2)]
    ensures Join(v0, v1, v2, v3)[..3] == [Byte0(v0, v1), Byte1(v1, v2), Byte2(v2, v3)]
  {
  }

  /** A quad decodes to the leading bytes of its four digits. */
  lemma QuadBytes(q: string)
    requires IsQuad(q)
    ensures DecodeGroup(q) ==
      Some(Join(Position(q, 0), Position(q, 1), Position(q, 2), Position(q, 3))[..3 - Padding(q)])
  {
    QuadAccepted(q);
    JoinPrefix(Position(q, 0), Position(q, 1), Position(q, 2), Position(q, 3));
    assert Value('=').None?;
  }

  /** The three bytes of a number of 24 bits. */
  function BytesOf(n: nat): seq<Byte>
    requires n < 16777216
  {
    [n / 65536, n / 256 % 256, n % 256]
  }

  /** The bytes of four digits are the bytes of the number they are in base 64. */
  lemma JoinIsBytesOf(v0: Sextet, v1: Sextet, v2: Sextet, v3: Sextet)
    ensures var n := 262144 * v0 + 4096 * v1 + 64 * v2 + v3;
      n < 16777216 && Join(v0, v1, v2, v3) == BytesOf(n)
  {
    BytesOfNumber(v0, v1, v2, v3);
  }

  /** The string is quads, of which only the last may have padding. */
  predicate AreQuads(s: string) {
    s == "" || (|s| >= 4 && IsQuad(s[..4]) && (|s| > 4 ==> Padding(s[..4]) == 0 && AreQuads(s[4..])))
  }

  /** Decoding accepts exactly strings of quads, with line breaks anywhere. */
  lemma DecodeAcceptsIff(s: string)
    ensures Decode(s).Some? <==> AreQuads(StripNewlines(s))
  {
    QuadsAcceptedIff(StripNewlines(s));
  }

  lemma {:induction false} QuadsAcceptedIff(s: string)
    ensures DecodeQuads(s).Some? <==> AreQuads(s)
  {
    if |s| >= 4 {
      QuadAccepted(s[..4]);
      if |s| > 4 { QuadsAcceptedIff(s[4..]); }
    }
  }
}
