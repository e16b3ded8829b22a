/** The colour parser `convertHexaStringToDecimalVector` of
    src/app/core/engine/Maths/Functions/Utils.ts, repeated as `Vector3.fromHex` in
    src/app/core/class/Vector3.ts. After a length check it drops one leading `#`, cuts the
    rest with `match(/.{1,2}/g)` and reads each piece with `parseInt(piece, 16)`; the three
    first readings, divided by 255, are the colour. A JavaScript string is a sequence of
    UTF-16 code units, and `length`, `charAt`, `slice` and a regular expression without
    the `u` flag all count code units, so the parser here reads code units. */
module HexColor {
  import opened Wrappers

  /** A UTF-16 code unit. */
  type CodeUnit = u: int | 0 <= u < 0x1_0000

  /** A JavaScript string. */
  type JsString = seq<CodeUnit>

  /** The code units of one character: itself inside the Basic Multilingual Plane, a
      surrogate pair outside it. */
  function CharUnits(c: char): (u: JsString)
    ensures 1 <= |u| <= 2
    ensures |u| == 2 <==> c as int >= 0x1_0000
    ensures |u| == 2 ==> IsSurrogate(u[0]) && IsSurrogate(u[1])
  {
    var n := c as int;
    if n < 0x1_0000 then [n]
    else [0xD800 + (n - 0x1_0000) / 0x400, 0xDC00 + (n - 0x1_0000) % 0x400]
  }

  predicate IsSurrogate(u: CodeUnit) { 0xD800 <= u <= 0xDFFF }

  /** The JavaScript string that holds the text `s`. */
  function Utf16(s: string): JsString {
    if s == [] then [] else CharUnits(s[0]) + Utf16(s[1..])
  }

  const Hash: CodeUnit := '#' as int
  const Minus: CodeUnit := '-' as int
  const Plus: CodeUnit := '+' as int

  /** The two ways the parser throws: the length check, and `match` finding nothing
      (it returns `null`, and the `!`-asserted `.map` call fails). */
  datatype HexError = InvalidFormat | NoMatch

  /** The three components of the resulting vector; `None` is NaN, which `parseInt` gives
      for a piece without a leading hex digit and which a missing piece gives as well. */
  datatype Color = Color(x: Option<real>, y: Option<real>, z: Option<real>)

  /** The code units JavaScript's `parseInt` skips at the start: the white space and line
      terminators of section 12.2 and 12.3 of ECMA-262, all inside the Basic Multilingual
      Plane. */
  predicate IsWhiteSpace(c: CodeUnit) {
    c == 0x09 || c == 0x0A || c == 0x0B || c == 0x0C || c == 0x0D || c == 0x20 ||
    c == 0xA0 || c == 0x1680 || 0x2000 <= c <= 0x200A || c == 0x2028 ||
    c == 0x2029 || c == 0x202F || c == 0x205F || c == 0x3000 || c == 0xFEFF
  }

  /** The code units a regular-expression `.` does not match. */
  predicate IsLineTerminator(c: CodeUnit) {
    c == 0x0A || c == 0x0D || c == 0x2028 || c == 0x2029
  }

  /** The value of a hexadecimal digit, in either case. */
  function DigitValue(c: CodeUnit): (d: Option<nat>)
    ensures d.Some? ==> d.value < 16
  {
    if '0' as int <= c <= '9' as int then Some(c - '0' as int)
    else if 'a' as int <= c <= 'f' as int then Some(c - 'a' as int + 10)
    else if 'A' as int <= c <= 'F' as int then Some(c - 'A' as int + 10)
    else None
  }

  predicate IsDigit(c: CodeUnit) { DigitValue(c).Some? }

  /** The value of a digit, 0 for any other code unit. */
  function Digit(c: CodeUnit): (d: nat)
    ensures d < 16
  {
    match DigitValue(c)
    case Some(d) => d
    case None => 0
  }

  /** The value of a string of hexadecimal digits, most significant first. */
  function HexValue(s: JsString): nat {
    if s == [] then 0 else 16 * HexValue(s[..|s| - 1]) + Digit(s[|s| - 1])
  }

  /** `s` without its leading white space. */
  function TrimStart(s: JsString): (t: JsString)
    ensures |t| <= |s|
  {
    if s != [] && IsWhiteSpace(s[0]) then TrimStart(s[1..]) else s
  }

  /** The longest prefix of `s` made of hexadecimal digits. */
  function DigitsPrefix(s: JsString): (d: JsString)
    ensures |d| <= |s|
  {
    if s != [] && IsDigit(s[0]) then [s[0]] + DigitsPrefix(s[1..]) else []
  }

  /** `parseInt(s, 16)`: white space is skipped, one sign is read, a `0x` or `0X` prefix is
      dropped, and the longest run of hexadecimal digits that follows is the value; without
      one the result is NaN. */
  function ParseInt16(s: JsString): Option<int> {
    var t := TrimStart(s);
    var negative := t != [] && t[0] == Minus;
    var unsigned := if t != [] && (t[0] == Minus || t[0] == Plus) then t[1..] else t;
    var body := if |unsigned| >= 2 && unsigned[0] == '0' as int && (unsigned[1] == 'x' as int || unsigned[1] == 'X' as int)
                then unsigned[2..] else unsigned;
    var digits := DigitsPrefix(body);
    var magnitude: int := HexValue(digits);
    if digits == [] then None
    else if negative then Some(-magnitude)
    else Some(magnitude)
  }

  /** `s.match(/.{1,2}/g)`: the successive pieces of one or two code units, where a line
      terminator is skipped and ends a piece. An empty result stands for `null`. */
  function Pieces(s: JsString): (ps: seq<JsString>)
    ensures forall k :: 0 <= k < |ps| ==> 1 <= |ps[k]| <= 2
    decreases |s|
  {
    if s == [] then []
    else if IsLineTerminator(s[0]) then Pieces(s[1..])
    else if |s| >= 2 && !IsLineTerminator(s[1]) then [s[..2]] + Pieces(s[2..])
    else [s[..1]] + Pieces(s[1..])
  }

  /** Component `k` of the colour: piece `k` read in base 16 and divided by 255, NaN when
      the piece cannot be read or is missing (destructuring gives `undefined`). */
  function Component(pieces: seq<JsString>, k: nat): Option<real> {
    if k < |pieces| then
      match ParseInt16(pieces[k])
      case Some(n) => Some(n as real / 255.0)
      case None => None
    else None
  }

  /** The length check of the source: more than 7, fewer than 6, or 7 without a leading `#`. */
  predicate BadLength(hex: JsString) {
    |hex| > 7 || |hex| < 6 || (|hex| == 7 && hex[0] != Hash)
  }

  /** The parser as written. */
  function FromHex(hex: JsString): Result<Color, HexError> {
    if BadLength(hex) then Err(InvalidFormat)
    else
      var digits := if hex[0] == Hash then hex[1..] else hex;
      var pieces := Pieces(digits);
      if pieces == [] then Err(NoMatch)
      else Ok(Color(Component(pieces, 0), Component(pieces, 1), Component(pieces, 2)))
  }

  /** The lower-case hexadecimal digit of `d`. */
  function DigitChar(d: nat): (c: CodeUnit)
    requires d < 16
    ensures DigitValue(c) == Some(d)
  {
    if d < 10 then '0' as int + d else 'a' as int + d - 10
  }

  /** Two hexadecimal digits for a byte. */
  function ByteDigits(b: nat): (s: JsString)
    requires b < 256
    ensures |s| == 2 && IsDigit(s[0]) && IsDigit(s[1])
  {
    [DigitChar(b / 16), DigitChar(b % 16)]
  }

  /** The text `#rrggbb`, or `rrggbb` without the `#`. */
  function Encode(r: nat, g: nat, b: nat, hash: bool): JsString
    requires r < 256 && g < 256 && b < 256
  {
    (if hash then [Hash] else []) + ByteDigits(r) + ByteDigits(g) + ByteDigits(b)
  }

  /** A digit is neither space nor sign nor line terminator. */
  lemma DigitIsPlain(c: CodeUnit)
    requires IsDigit(c)
    ensures !IsWhiteSpace(c) && !IsLineTerminator(c) && c != Minus && c != Plus && c != Hash && c != 'x' as int && c != 'X' as int
  {
  }

  /** Two hexadecimal digits read as the byte they spell. */
  lemma ParseTwoDigits(s: JsString)
    requires |s| == 2 && IsDigit(s[0]) && IsDigit(s[1])
    ensures ParseInt16(s) == Some(16 * Digit(s[0]) + Digit(s[1]))
  {
    DigitIsPlain(s[0]);
    DigitIsPlain(s[1]);
    assert TrimStart(s) == s;
    assert DigitsPrefix(s[1..]) == s[1..];
    assert DigitsPrefix(s) == s;
    HexValueOfPair(s);
  }

  lemma HexValueOfPair(s: JsString)
    requires |s| == 2
    ensures HexValue(s) == 16 * Digit(s[0]) + Digit(s[1])
  {
    assert s[..1] == [s[0]] && s[..1][..0] == [];
    assert HexValue(s[..1]) == Digit(s[0]);
  }

  lemma HexValueOfOne(s: JsString)
    requires |s| == 1
    ensures HexValue(s) == Digit(s[0])
  {
    assert s[..0] == [];
  }

  /** Reading back the digits of a byte gives the byte. */
  lemma ParseByteDigits(b: nat)
    requires b < 256
    ensures ParseInt16(ByteDigits(b)) == Some(b)
  {
    ParseTwoDigits(ByteDigits(b));
    PairValueOfByte(b);
  }

  lemma PairValueOfByte(b: nat)
    requires b < 256
    ensures 16 * Digit(ByteDigits(b)[0]) + Digit(ByteDigits(b)[1]) == b
  {
    var s := ByteDigits(b);
    assert Digit(s[0]) == b / 16 && Digit(s[1]) == b % 16;
  }

  /** A leading pair without line terminators is one piece. */
  lemma PiecesOfPair(p: JsString, rest: JsString)
    requires |p| == 2 && !IsLineTerminator(p[0]) && !IsLineTerminator(p[1])
    ensures Pieces(p + rest) == [p] + Pieces(rest)
  {
    var s := p + rest;
    assert s[0] == p[0] && s[1] == p[1];
    assert s[..2] == p && s[2..] == rest;
  }

  /** Six characters without line terminators are cut into three pairs. */
  lemma PiecesOfPairs(p: JsString, q: JsString, r: JsString)
    requires |p| == 2 && |q| == 2 && |r| == 2
    requires !IsLineTerminator(p[0]) && !IsLineTerminator(p[1]) && !IsLineTerminator(q[0])
    requires !IsLineTerminator(q[1]) && !IsLineTerminator(r[0]) && !IsLineTerminator(r[1])
    ensures Pieces(p + q + r) == [p, q, r]
  {
    PiecesOfPair(r, []);
    assert r + [] == r;
    PiecesOfPair(q, r);
    PiecesOfPair(p, q + r);
    assert p + q + r == p + (q + r);
  }

  /** Text whose part after an optional `#` is three pairs of plain characters is read
      pair by pair. */
  lemma FromHexOfPairs(hex: JsString, p: JsString, q: JsString, r: JsString)
    requires |p| == 2 && |q| == 2 && |r| == 2 && p[0] != Hash
    requires !IsLineTerminator(p[0]) && !IsLineTerminator(p[1]) && !IsLineTerminator(q[0])
    requires !IsLineTerminator(q[1]) && !IsLineTerminator(r[0]) && !IsLineTerminator(r[1])
    requires hex == p + q + r || hex == [Hash] + p + q + r
    ensures FromHex(hex) == Ok(Color(Component([p, q, r], 0), Component([p, q, r], 1), Component([p, q, r], 2)))
  {
    var digits := p + q + r;
    if hex == digits {
      assert hex[0] == p[0];
    } else {
      assert hex[0] == Hash && hex[1..] == digits;
    }
    PiecesOfPairs(p, q, r);
  }

  /** The round trip: a colour written as six hexadecimal digits, with or without `#`, is
      read back as its three bytes over 255. */
  lemma FromHexOfEncode(r: nat, g: nat, b: nat, hash: bool)
    requires r < 256 && g < 256 && b < 256
    ensures FromHex(Encode(r, g, b, hash)) == Ok(Color(Some(r as real / 255.0), Some(g as real / 255.0), Some(b as real / 255.0)))
  {
    var pr, pg, pb := ByteDigits(r), ByteDigits(g), ByteDigits(b);
    DigitIsPlain(pr[0]); DigitIsPlain(pr[1]);
    DigitIsPlain(pg[0]); DigitIsPlain(pg[1]);
    DigitIsPlain(pb[0]); DigitIsPlain(pb[1]);
    var hex := Encode(r, g, b, hash);
    assert hex == (if hash then [Hash] + pr + pg + pb else pr + pg + pb);
    FromHexOfPairs(hex, pr, pg, pb);
    ParseByteDigits(r);
    ParseByteDigits(g);
    ParseByteDigits(b);
    var pieces := [pr, pg, pb];
    assert pieces[0] == pr && pieces[1] == pg && pieces[2] == pb;
    ComponentOfValue(pieces, 0, r);
    ComponentOfValue(pieces, 1, g);
    ComponentOfValue(pieces, 2, b);
  }

  lemma ComponentOfValue(pieces: seq<JsString>, k: nat, n: int)
    requires k < |pieces| && ParseInt16(pieces[k]) == Some(n)
    ensures Component(pieces, k) == Some(n as real / 255.0)
  {
  }

  /** The value of a one- or two-character piece: at most `ff` = 255, and at least `-f`,
      since `parseInt` accepts a sign. */
  lemma ParsePieceBounds(s: JsString)
    requires 1 <= |s| <= 2
    ensures ParseInt16(s).Some? ==> -15 <= ParseInt16(s).value <= 255
  {
    var t := TrimStart(s);
    var unsigned := if t != [] && (t[0] == Minus || t[0] == Plus) then t[1..] else t;
    var body := if |unsigned| >= 2 && unsigned[0] == '0' as int && (unsigned[1] == 'x' as int || unsigned[1] == 'X' as int)
                then unsigned[2..] else unsigned;
    var digits := DigitsPrefix(body);
    if digits != [] {
      if |digits| == 2 {
        HexValueOfPair(digits);
      } else {
        HexValueOfOne(digits);
        assert 0 < |unsigned| && (unsigned != t ==> t[0] == Minus || t[0] == Plus);
      }
    }
  }

  /** Every number the parser produces lies between `-15/255` and 1: a two-character piece
      spells at most 255, and the only way below 0 is a sign in front of one digit. */
  lemma ComponentBounds(hex: JsString)
    requires FromHex(hex).Ok?
    ensures var c := FromHex(hex).value;
            forall v :: v in [c.x, c.y, c.z] && v.Some? ==> -15.0 / 255.0 <= v.value <= 1.0
  {
    var digits := if hex[0] == Hash then hex[1..] else hex;
    var pieces := Pieces(digits);
    forall k: nat | k < 3 && k < |pieces|
      ensures ParseInt16(pieces[k]).Some? ==> -15 <= ParseInt16(pieces[k]).value <= 255
    {
      ParsePieceBounds(pieces[k]);
    }
  }

  /** A single digit, possibly signed, reads as itself. */
  lemma ParseOneDigit(sign: JsString, c: CodeUnit)
    requires sign == [] || sign == [Minus]
    requires IsDigit(c)
    ensures ParseInt16(sign + [c]) == Some(if sign == [Minus] then -(Digit(c) as int) else Digit(c))
  {
    DigitIsPlain(c);
    var s := sign + [c];
    assert !IsWhiteSpace(s[0]);
    assert TrimStart(s) == s;
    var unsigned := if sign == [Minus] then s[1..] else s;
    assert unsigned == [c];
    assert DigitsPrefix([c][1..]) == [];
    assert DigitsPrefix(unsigned) == [c];
    HexValueOfOne([c]);
  }

  /** The byte two digits spell. */
  function PairValue(p: JsString): nat
    requires |p| == 2
  {
    16 * Digit(p[0]) + Digit(p[1])
  }

  /** A sign counts: `-` and a digit, followed by four digits, passes the check and gives a
      negative first component (`-f0000` gives `-15/255`). */
  lemma NegativeFirstComponent(c: CodeUnit, q: JsString, r: JsString)
    requires IsDigit(c) && |q| == 2 && |r| == 2
    requires IsDigit(q[0]) && IsDigit(q[1]) && IsDigit(r[0]) && IsDigit(r[1])
    ensures FromHex([Minus] + [c] + q + r)
         == Ok(Color(Some(-(Digit(c) as real) / 255.0), Some(PairValue(q) as real / 255.0), Some(PairValue(r) as real / 255.0)))
  {
    var p := [Minus] + [c];
    DigitIsPlain(c);
    DigitIsPlain(q[0]); DigitIsPlain(q[1]);
    DigitIsPlain(r[0]); DigitIsPlain(r[1]);
    FromHexOfPairs(p + q + r, p, q, r);
    NegativeComponents(c, q, r);
  }

  /** The pieces `-c`, `q` and `r` read as their values over 255. */
  lemma NegativeComponents(c: CodeUnit, q: JsString, r: JsString)
    requires IsDigit(c) && |q| == 2 && |r| == 2
    requires IsDigit(q[0]) && IsDigit(q[1]) && IsDigit(r[0]) && IsDigit(r[1])
    ensures var pieces := [[Minus] + [c], q, r];
            Component(pieces, 0) == Some(-(Digit(c) as real) / 255.0) &&
            Component(pieces, 1) == Some(PairValue(q) as real / 255.0) &&
            Component(pieces, 2) == Some(PairValue(r) as real / 255.0)
  {
    var pieces := [[Minus] + [c], q, r];
    ComponentOfDigit(pieces, 0, [Minus], c);
    ComponentOfPair(pieces, 1, q);
    ComponentOfPair(pieces, 2, r);
  }

  /** A piece of two digits gives its byte over 255. */
  lemma ComponentOfPair(pieces: seq<JsString>, k: nat, p: JsString)
    requires k < |pieces| && pieces[k] == p
    requires |p| == 2 && IsDigit(p[0]) && IsDigit(p[1])
    ensures Component(pieces, k) == Some(PairValue(p) as real / 255.0)
  {
    ParseTwoDigits(p);
    ComponentOfValue(pieces, k, PairValue(p));
  }

  /** A piece of one digit, possibly signed, gives its value over 255. */
  lemma ComponentOfDigit(pieces: seq<JsString>, k: nat, sign: JsString, c: CodeUnit)
    requires sign == [] || sign == [Minus]
    requires k < |pieces| && pieces[k] == sign + [c] && IsDigit(c)
    ensures Component(pieces, k) == Some((if sign == [Minus] then -(Digit(c) as real) else Digit(c) as real) / 255.0)
  {
    ParseOneDigit(sign, c);
    ComponentOfValue(pieces, k, if sign == [Minus] then -(Digit(c) as int) else Digit(c));
  }

  /** As written, a six-character input that starts with `#` passes the length check, and
      its last piece is a single digit: `#abcde` reads as `ab`, `cd`, `e`. */
  lemma ShortHashAccepted(p: JsString, q: JsString, c: CodeUnit)
    requires |p| == 2 && |q| == 2 && IsDigit(c)
    requires IsDigit(p[0]) && IsDigit(p[1]) && IsDigit(q[0]) && IsDigit(q[1])
    ensures FromHex([Hash] + p + q + [c])
         == Ok(Color(Some(PairValue(p) as real / 255.0), Some(PairValue(q) as real / 255.0), Some(Digit(c) as real / 255.0)))
  {
    ShortHashPieces(p, q, c);
    ShortHashComponents(p, q, c);
  }

  /** The pieces `p`, `q` and `c` read as their values over 255. */
  lemma ShortHashComponents(p: JsString, q: JsString, c: CodeUnit)
    requires |p| == 2 && |q| == 2 && IsDigit(c)
    requires IsDigit(p[0]) && IsDigit(p[1]) && IsDigit(q[0]) && IsDigit(q[1])
    ensures var pieces := [p, q, [c]];
            Component(pieces, 0) == Some(PairValue(p) as real / 255.0) &&
            Component(pieces, 1) == Some(PairValue(q) as real / 255.0) &&
            Component(pieces, 2) == Some(Digit(c) as real / 255.0)
  {
    var pieces := [p, q, [c]];
    ComponentOfPair(pieces, 0, p);
    ComponentOfPair(pieces, 1, q);
    assert pieces[2] == [] + [c];
    ComponentOfDigit(pieces, 2, [], c);
  }

  /** `#` and five plain characters pass the length check and are cut as two, two, one. */
  lemma ShortHashPieces(p: JsString, q: JsString, c: CodeUnit)
    requires |p| == 2 && |q| == 2 && IsDigit(c)
    requires IsDigit(p[0]) && IsDigit(p[1]) && IsDigit(q[0]) && IsDigit(q[1])
    ensures var pieces := [p, q, [c]];
            FromHex([Hash] + p + q + [c]) == Ok(Color(Component(pieces, 0), Component(pieces, 1), Component(pieces, 2)))
  {
    var hex := [Hash] + p + q + [c];
    assert hex[0] == Hash && hex[1..] == p + (q + [c]);
    DigitIsPlain(c);
    DigitIsPlain(p[0]); DigitIsPlain(p[1]);
    DigitIsPlain(q[0]); DigitIsPlain(q[1]);
    PiecesOfPair(p, q + [c]);
    PiecesOfPair(q, [c]);
    assert [c][..1] == [c] && [c][1..] == [];
    assert Pieces([c]) == [[c]];
    assert Pieces(hex[1..]) == [p, q, [c]];
  }

  /** The length check as evidently intended: six digits, or `#` and six digits. */
  predicate BadLengthCorrected(hex: JsString) {
    BadLength(hex) || (|hex| == 6 && hex[0] == Hash)
  }

  /** The parser with the corrected length check. */
  function FromHexCorrected(hex: JsString): (r: Result<Color, HexError>)
    ensures r.Ok? ==> !BadLength(hex)
  {
    if BadLengthCorrected(hex) then Err(InvalidFormat)
    else FromHex(hex)
  }

  /** With the corrected check, what is cut into pieces is always exactly six characters,
      and encoded colours still read back. */
  lemma FromHexCorrectedReadsSix(hex: JsString)
    requires FromHexCorrected(hex).Ok?
    ensures |if hex[0] == Hash then hex[1..] else hex| == 6
  {
  }

  lemma FromHexCorrectedOfEncode(r: nat, g: nat, b: nat, hash: bool)
    requires r < 256 && g < 256 && b < 256
    ensures FromHexCorrected(Encode(r, g, b, hash)) == Ok(Color(Some(r as real / 255.0), Some(g as real / 255.0), Some(b as real / 255.0)))
  {
    FromHexOfEncode(r, g, b, hash);
    var hex := Encode(r, g, b, hash);
    assert !hash ==> hex[0] == ByteDigits(r)[0] && hex[0] != Hash;
  }

  /** The corrected check rejects `#` followed by five digits. */
  lemma ShortHashRejected(p: JsString, q: JsString, c: CodeUnit)
    requires |p| == 2 && |q| == 2
    ensures FromHexCorrected([Hash] + p + q + [c]) == Err(InvalidFormat)
  {
    assert ([Hash] + p + q + [c])[0] == Hash;
  }

  /** A piece that starts with a surrogate has no leading digit, sign or white space. */
  lemma SurrogatePairUnreadable(p: JsString)
    requires |p| == 2 && IsSurrogate(p[0])
    ensures ParseInt16(p) == None
  {
    assert TrimStart(p) == p;
    assert DigitsPrefix(p) == [];
  }

  /** Outside the Basic Multilingual Plane a character takes two code units. `#` and three
      such characters are seven code units, so they pass the length check; each piece is
      one surrogate pair, which `parseInt` cannot read, so every component is NaN. */
  lemma AstralCharactersReadAsNaN(a: char, b: char, c: char)
    requires a as int >= 0x1_0000 && b as int >= 0x1_0000 && c as int >= 0x1_0000
    ensures |Utf16(['#', a, b, c])| == 7
    ensures FromHex(Utf16(['#', a, b, c])) == Ok(Color(None, None, None))
  {
    var s := ['#', a, b, c];
    var pa, pb, pc := CharUnits(a), CharUnits(b), CharUnits(c);
    assert s[1..][1..][1..][1..] == [];
    assert Utf16(s[1..][1..][1..]) == pc;
    assert Utf16(s[1..][1..]) == pb + pc;
    assert Utf16(s[1..]) == pa + pb + pc;
    assert CharUnits('#') == [Hash];
    var hex := Utf16(s);
    assert hex == [Hash] + pa + pb + pc;
    FromHexOfPairs(hex, pa, pb, pc);
    SurrogatePairUnreadable(pa);
    SurrogatePairUnreadable(pb);
    SurrogatePairUnreadable(pc);
    var pieces := [pa, pb, pc];
    assert pieces[0] == pa && pieces[1] == pb && pieces[2] == pc;
  }
}
