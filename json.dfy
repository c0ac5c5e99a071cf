/**
 * The JSON text format as the operator and the query server use it through
 * Python's `json` module: `Enc` is `json.dumps` with its default settings
 * (separators ", " and ": ", every character outside printable ASCII
 * escaped) and `Parse` is `json.loads`. Both are restricted to values without
 * floating-point numbers. The main result is the round trip
 * `Parse(Enc(v)) == Some(v)`.
 */
module Json {
  import opened Wrappers

  /** A JSON document. An object keeps its members in order, as a Python dict does. */
  datatype Json =
    | Null
    | Bool(b: bool)
    | Number(n: int)
    | String(s: string)
    | Array(items: seq<Json>)
    | Object(members: seq<Member>)

  datatype Member = Member(key: string, value: Json)

  // ---------------------------------------------------------------------------
  // Characters
  // ---------------------------------------------------------------------------

  predicate IsDigit(c: char) { '0' <= c <= '9' }

  /** The four characters JSON allows between tokens. */
  predicate IsWhitespace(c: char) { c == ' ' || c == '\t' || c == '\n' || c == '\r' }

  predicate IsHexDigit(c: char) { '0' <= c <= '9' || 'a' <= c <= 'f' || 'A' <= c <= 'F' }

  function DigitChar(d: nat): (c: char)
    requires d < 10
    ensures IsDigit(c) && c as int - '0' as int == d
  {
    ('0' as int + d) as char
  }

  /** A lower-case hexadecimal digit, as `json.dumps` writes them. */
  function HexDigit(d: nat): (c: char)
    requires d < 16
    ensures IsHexDigit(c)
  {
    if d < 10 then ('0' as int + d) as char else ('a' as int + d - 10) as char
  }

  function HexDigitValue(c: char): (d: nat)
    requires IsHexDigit(c)
    ensures d < 16
  {
    if c <= '9' then c as int - '0' as int
    else if 'a' <= c then c as int - 'a' as int + 10
    else c as int - 'A' as int + 10
  }

  lemma HexDigitInverse(d: nat)
    requires d < 16
    ensures HexDigitValue(HexDigit(d)) == d
  {
  }

  // ---------------------------------------------------------------------------
  // Decimal integers
  // ---------------------------------------------------------------------------

  /** The decimal digits of `n`, without leading zeros (Python's `str(n)` for n >= 0). */
  function NatToString(n: nat): (s: string)
    ensures |s| > 0
    ensures forall i :: 0 <= i < |s| ==> IsDigit(s[i])
    ensures s[0] == '0' ==> n == 0
    decreases n
  {
    if n < 10 then [DigitChar(n)] else NatToString(n / 10) + [DigitChar(n % 10)]
  }

  /** Python's `str(n)` for any integer `n`. */
  function IntToString(n: int): string {
    if n < 0 then "-" + NatToString(-n) else NatToString(n)
  }

  function DigitValue(c: char): (d: nat)
    requires IsDigit(c)
    ensures d < 10
  {
    c as int - '0' as int
  }

  /** The number a string of decimal digits denotes. */
  function DigitsValue(ds: string): nat
    requires forall i :: 0 <= i < |ds| ==> IsDigit(ds[i])
  {
    if ds == [] then 0
    else DigitsValue(ds[..|ds| - 1]) * 10 + DigitValue(ds[|ds| - 1])
  }

  /** The length of the longest prefix of `s` that consists of digits. */
  function LeadingDigits(s: string): (k: nat)
    ensures k <= |s|
    ensures forall i :: 0 <= i < k ==> IsDigit(s[i])
    ensures k < |s| ==> !IsDigit(s[k])
  {
    if s == [] || !IsDigit(s[0]) then 0 else 1 + LeadingDigits(s[1..])
  }

  lemma {:induction false} NatToStringValue(n: nat)
    ensures DigitsValue(NatToString(n)) == n
    decreases n
  {
    if n >= 10 {
      var s := NatToString(n);
      assert s[..|s| - 1] == NatToString(n / 10);
      NatToStringValue(n / 10);
    }
  }

  /** A token that is not followed by a digit: what makes a number end where its digits end. */
  predicate Delimited(rest: string) { rest == [] || !IsDigit(rest[0]) }

  lemma {:induction false} LeadingDigitsOfConcat(ds: string, rest: string)
    requires forall i :: 0 <= i < |ds| ==> IsDigit(ds[i])
    requires Delimited(rest)
    ensures LeadingDigits(ds + rest) == |ds|
    decreases |ds|
  {
    if ds != [] {
      assert (ds + rest)[1..] == ds[1..] + rest;
      LeadingDigitsOfConcat(ds[1..], rest);
    }
  }

  /**
   * An optional minus sign and the digits of an integer, with no leading zero
   * (the integer part of Python's number pattern `-?(0|[1-9][0-9]*)`).
   * The rest of the text follows.
   */
  function ParseNumber(s: string): (r: Option<(int, string)>)
    ensures r.Some? ==> |r.value.1| < |s|
  {
    if s != [] && s[0] == '-' then
      match ParseNatural(s[1..])
      case None => None
      case Some((n, rest)) => var v: int := n; Some((-v, rest))
    else ParseNatural(s)
  }

  /** A lone `0`, or digits that do not start with `0`. */
  function ParseNatural(t: string): (r: Option<(nat, string)>)
    ensures r.Some? ==> |r.value.1| < |t|
  {
    if t == [] || !IsDigit(t[0]) then None
    else if t[0] == '0' then Some((0, t[1..]))
    else
      var k := LeadingDigits(t);
      Some((DigitsValue(t[..k]), t[k..]))
  }

  /** Reading back what `NatToString` writes, when no digit follows it. */
  lemma NaturalRoundTrip(m: nat, rest: string)
    requires Delimited(rest)
    ensures ParseNatural(NatToString(m) + rest) == Some((m, rest))
  {
    var ds := NatToString(m);
    var t := ds + rest;
    assert t[0] == ds[0];
    if m != 0 {
      LeadingDigitsOfConcat(ds, rest);
      assert t[..|ds|] == ds;
      assert t[|ds|..] == rest;
      NatToStringValue(m);
    } else {
      assert ds == "0";
      assert t[1..] == rest;
    }
  }

  /** A minus sign followed by a natural number reads as its negation. */
  lemma ParseNegative(t: string, m: nat, rest: string)
    requires ParseNatural(t) == Some((m, rest))
    ensures ParseNumber(['-'] + t) == Some((0 - m, rest))
  {
    assert (['-'] + t)[1..] == t;
  }

  /** Reading back what `IntToString` writes, when no digit follows it. */
  lemma NumberRoundTrip(n: int, rest: string)
    requires Delimited(rest)
    ensures ParseNumber(IntToString(n) + rest) == Some((n, rest))
  {
    if n < 0 {
      var digits := NatToString(-n);
      NaturalRoundTrip(-n, rest);
      ParseNegative(digits + rest, -n, rest);
      assert IntToString(n) == ['-'] + digits;
      Associative(['-'], digits, rest);
    } else {
      NaturalRoundTrip(n, rest);
    }
  }

  // ---------------------------------------------------------------------------
  // Strings
  // ---------------------------------------------------------------------------

  /** Four lower-case hexadecimal digits, as in `'\\u{0:04x}'.format(n)`. */
  function Hex4(n: nat): (s: string)
    requires n < 0x1_0000
    ensures |s| == 4
  {
    var q1 := n / 16;
    var q2 := q1 / 16;
    [HexDigit(q2 / 16), HexDigit(q2 % 16), HexDigit(q1 % 16), HexDigit(n % 16)]
  }

  /** Four hexadecimal digits of either case at the start of `s`. */
  function ParseHex4(s: string): (r: Option<nat>)
    ensures r.Some? ==> |s| >= 4 && r.value < 0x1_0000
  {
    if |s| >= 4 && IsHexDigit(s[0]) && IsHexDigit(s[1]) && IsHexDigit(s[2]) && IsHexDigit(s[3]) then
      Some(((HexDigitValue(s[0]) * 16 + HexDigitValue(s[1])) * 16 + HexDigitValue(s[2])) * 16
           + HexDigitValue(s[3]))
    else None
  }

  lemma Hex4RoundTrip(n: nat, rest: string)
    requires n < 0x1_0000
    ensures ParseHex4(Hex4(n) + rest) == Some(n)
  {
    var q1 := n / 16;
    var q2 := q1 / 16;
    var s := Hex4(n) + rest;
    HexDigitInverse(q2 / 16);
    HexDigitInverse(q2 % 16);
    HexDigitInverse(q1 % 16);
    HexDigitInverse(n % 16);
    assert s[0] == HexDigit(q2 / 16) && s[1] == HexDigit(q2 % 16);
    assert s[2] == HexDigit(q1 % 16) && s[3] == HexDigit(n % 16);
    assert n == ((q2 / 16 * 16 + q2 % 16) * 16 + q1 % 16) * 16 + n % 16;
  }

  const Backspace: char := '\U{0008}'
  const FormFeed: char := '\U{000C}'

  /**
   * How `json.dumps` writes one character inside a string literal: the quote,
   * the backslash and five control characters get a short escape, printable
   * ASCII stays as it is, and every other character becomes `\uXXXX`, or a
   * pair of such escapes (a UTF-16 surrogate pair) above U+FFFF.
   */
  function EscapeChar(c: char): string {
    if c == '"' then ['\\', '"']
    else if c == '\\' then ['\\', '\\']
    else if c == '\n' then ['\\', 'n']
    else if c == '\r' then ['\\', 'r']
    else if c == '\t' then ['\\', 't']
    else if c == Backspace then ['\\', 'b']
    else if c == FormFeed then ['\\', 'f']
    else if ' ' <= c <= '~' then [c]
    else if c as int < 0x1_0000 then UnicodeEscape(c as int)
    else
      var (hi, lo) := Surrogates(c);
      UnicodeEscape(hi) + UnicodeEscape(lo)
  }

  /** The UTF-16 surrogate pair (high, low) of a character above U+FFFF. */
  function Surrogates(c: char): (p: (nat, nat))
    requires c as int >= 0x1_0000
    ensures 0xD800 <= p.0 < 0xDC00 && 0xDC00 <= p.1 < 0xE000
    ensures SurrogateCode(p.0, p.1) == c as int
  {
    var n := c as int - 0x1_0000;
    (0xD800 + n / 0x400, 0xDC00 + n % 0x400)
  }

  /** `\\u` and four hexadecimal digits: one UTF-16 code unit. */
  function UnicodeEscape(u: nat): (s: string)
    requires u < 0x1_0000
    ensures |s| == 6
  {
    ['\\', 'u'] + Hex4(u)
  }

  /** The code point a high and a low surrogate stand for together. */
  function SurrogateCode(hi: int, lo: int): int {
    0x1_0000 + (hi - 0xD800) * 0x400 + (lo - 0xDC00)
  }

  function EscapeString(s: string): string {
    if s == [] then [] else EscapeChar(s[0]) + EscapeString(s[1..])
  }

  /** Printable ASCII other than the quote and the backslash is written as it is. */
  lemma {:induction false} EscapePlain(s: string)
    requires forall i | 0 <= i < |s| :: ' ' <= s[i] <= '~' && s[i] != '"' && s[i] != '\\'
    ensures EscapeString(s) == s
  {
    if s != [] {
      EscapePlain(s[1..]);
      assert s == [s[0]] + s[1..];
    }
  }

  /** A string literal: the escaped characters between double quotes. */
  function Quote(s: string): string {
    ['"'] + EscapeString(s) + ['"']
  }

  /** The character an escape sequence stands for; `s` starts after the backslash. */
  function ParseEscape(s: string): (r: Option<(char, string)>)
    ensures r.Some? ==> |r.value.1| < |s|
  {
    if s == [] then None
    else if s[0] == '"' then Some(('"', s[1..]))
    else if s[0] == '\\' then Some(('\\', s[1..]))
    else if s[0] == '/' then Some(('/', s[1..]))
    else if s[0] == 'b' then Some((Backspace, s[1..]))
    else if s[0] == 'f' then Some((FormFeed, s[1..]))
    else if s[0] == 'n' then Some(('\n', s[1..]))
    else if s[0] == 'r' then Some(('\r', s[1..]))
    else if s[0] == 't' then Some(('\t', s[1..]))
    else if s[0] == 'u' then
      match ParseHex4(s[1..])
      case None => None
      case Some(u) =>
        if 0xD800 <= u < 0xDC00 then
          // a high surrogate must be followed by a low one
          if |s| >= 7 && s[5] == '\\' && s[6] == 'u' then
            match ParseHex4(s[7..])
            case None => None
            case Some(u2) =>
              if 0xDC00 <= u2 < 0xE000 then
                Some((SurrogateCode(u, u2) as char, s[11..]))
              else None
          else None
        else if 0xDC00 <= u < 0xE000 then None
        else Some((u as char, s[5..]))
    else None
  }

  /**
   * The characters of a string literal up to its closing quote; `s` starts
   * after the opening quote. Raw control characters are refused, as Python's
   * strict decoder does.
   */
  function ParseStringBody(s: string): (r: Option<(string, string)>)
    ensures r.Some? ==> |r.value.1| < |s|
    decreases |s|
  {
    if s == [] then None
    else if s[0] == '"' then Some(([], s[1..]))
    else if s[0] == '\\' then
      match ParseEscape(s[1..])
      case None => None
      case Some((c, rest)) => Prepend(c, ParseStringBody(rest))
    else if s[0] < ' ' then None
    else Prepend(s[0], ParseStringBody(s[1..]))
  }

  function Prepend(c: char, r: Option<(string, string)>): Option<(string, string)> {
    match r
    case None => None
    case Some((cs, rest)) => Some(([c] + cs, rest))
  }

  /** The characters that `EscapeChar` writes with a backslash and one letter. */
  predicate HasShortEscape(c: char) {
    c == '"' || c == '\\' || c == '\n' || c == '\r' || c == '\t' || c == Backspace || c == FormFeed
  }

  /** The characters that `EscapeChar` writes as one or two `\uXXXX` escapes. */
  predicate HasUnicodeEscape(c: char) {
    !HasShortEscape(c) && !(' ' <= c <= '~')
  }

  lemma ShortEscapeRoundTrip(c: char, tail: string)
    requires HasShortEscape(c)
    ensures ParseStringBody(EscapeChar(c) + tail) == Prepend(c, ParseStringBody(tail))
  {
    var s := EscapeChar(c) + tail;
    assert |EscapeChar(c)| == 2 && EscapeChar(c)[0] == '\\';
    var e := s[1..];
    assert e == [EscapeChar(c)[1]] + tail;
    assert e[1..] == tail;
    assert ParseEscape(e) == Some((c, tail));
  }

  lemma PlainCharRoundTrip(c: char, tail: string)
    requires ' ' <= c <= '~' && !HasShortEscape(c)
    ensures ParseStringBody(EscapeChar(c) + tail) == Prepend(c, ParseStringBody(tail))
  {
    var s := EscapeChar(c) + tail;
    assert EscapeChar(c) == [c];
    assert s[1..] == tail;
  }

  lemma BmpEscapeRoundTrip(c: char, tail: string)
    requires HasUnicodeEscape(c) && c as int < 0x1_0000
    ensures ParseStringBody(EscapeChar(c) + tail) == Prepend(c, ParseStringBody(tail))
  {
    var n := c as int;
    assert EscapeChar(c) == UnicodeEscape(n);
    var s := UnicodeEscape(n) + tail;
    var e := s[1..];
    assert e == ['u'] + (Hex4(n) + tail);
    assert e[1..] == Hex4(n) + tail;
    Hex4RoundTrip(n, tail);
    assert e[5..] == tail;
    assert ParseEscape(e) == Some((c, tail));
    ParseEscapeStep(s, c, tail);
  }

  /** A `\\uXXXX\\uXXXX` pair of a high and a low surrogate, once both halves are read. */
  lemma ParseSurrogateAt(e: string, hi: nat, lo: nat)
    requires 0xD800 <= hi < 0xDC00 && 0xDC00 <= lo < 0xE000
    requires |e| >= 11 && e[0] == 'u' && e[5] == '\\' && e[6] == 'u'
    requires ParseHex4(e[1..]) == Some(hi) && ParseHex4(e[7..]) == Some(lo)
    ensures ParseEscape(e) == Some((SurrogateCode(hi, lo) as char, e[11..]))
  {
  }

  /** One escape sequence at the front of a string literal's body. */
  lemma ParseEscapeStep(s: string, c: char, rest: string)
    requires s != [] && s[0] == '\\' && ParseEscape(s[1..]) == Some((c, rest))
    ensures ParseStringBody(s) == Prepend(c, ParseStringBody(rest))
  {
  }

  /** The pieces of one `\\uXXXX` escape followed by `tail`. */
  lemma UnicodeEscapeParts(u: nat, tail: string)
    requires u < 0x1_0000
    ensures var s := UnicodeEscape(u) + tail;
            |s| >= 6 && s[0] == '\\' && s[1] == 'u' && ParseHex4(s[2..]) == Some(u) && s[6..] == tail
  {
    var s := UnicodeEscape(u) + tail;
    assert s[2..] == Hex4(u) + tail;
    Hex4RoundTrip(u, tail);
  }

  /** A surrogate pair at the front of a string literal's body reads as one character. */
  lemma SurrogatePairBody(hi: nat, lo: nat, tail: string)
    requires 0xD800 <= hi < 0xDC00 && 0xDC00 <= lo < 0xE000
    ensures ParseStringBody(UnicodeEscape(hi) + UnicodeEscape(lo) + tail)
            == Prepend(SurrogateCode(hi, lo) as char, ParseStringBody(tail))
  {
    var low := UnicodeEscape(lo) + tail;
    var s := UnicodeEscape(hi) + low;
    Associative(UnicodeEscape(hi), UnicodeEscape(lo), tail);
    UnicodeEscapeParts(hi, low);
    UnicodeEscapeParts(lo, tail);
    var e := s[1..];
    assert e[1..] == s[2..];
    assert e[5..] == low;
    assert e[7..] == low[2..];
    assert e[11..] == tail;
    ParseSurrogateAt(e, hi, lo);
    ParseEscapeStep(s, SurrogateCode(hi, lo) as char, tail);
  }

  /** How `EscapeChar` writes a character above U+FFFF. */
  lemma SurrogateEscapeShape(c: char)
    requires c as int >= 0x1_0000
    ensures EscapeChar(c) == UnicodeEscape(Surrogates(c).0) + UnicodeEscape(Surrogates(c).1)
  {
  }

  lemma SurrogatePairRoundTrip(c: char, tail: string)
    requires c as int >= 0x1_0000
    ensures ParseStringBody(UnicodeEscape(Surrogates(c).0) + UnicodeEscape(Surrogates(c).1) + tail)
            == Prepend(c, ParseStringBody(tail))
  {
    var (hi, lo) := Surrogates(c);
    assert SurrogateCode(hi, lo) as char == c;
    SurrogatePairBody(hi, lo, tail);
  }

  lemma EscapeCharRoundTrip(c: char, tail: string)
    ensures ParseStringBody(EscapeChar(c) + tail) == Prepend(c, ParseStringBody(tail))
  {
    if HasShortEscape(c) {
      ShortEscapeRoundTrip(c, tail);
    } else if ' ' <= c <= '~' {
      PlainCharRoundTrip(c, tail);
    } else if c as int < 0x1_0000 {
      BmpEscapeRoundTrip(c, tail);
    } else {
      SurrogateEscapeShape(c);
      SurrogatePairRoundTrip(c, tail);
    }
  }

  lemma {:induction false} StringRoundTrip(s: string, rest: string)
    ensures ParseStringBody(EscapeString(s) + ['"'] + rest) == Some((s, rest))
    decreases |s|
  {
    if s == [] {
      assert EscapeString(s) + ['"'] + rest == ['"'] + rest;
    } else {
      var tail := EscapeString(s[1..]) + ['"'] + rest;
      assert EscapeString(s) + ['"'] + rest == EscapeChar(s[0]) + tail;
      EscapeCharRoundTrip(s[0], tail);
      StringRoundTrip(s[1..], rest);
      assert [s[0]] + s[1..] == s;
    }
  }

  // ---------------------------------------------------------------------------
  // Values
  // ---------------------------------------------------------------------------

  /** `json.dumps(v)` with the default separators and `ensure_ascii`. */
  function Enc(v: Json): string
    decreases v
  {
    match v
    case Null => "null"
    case Bool(b) => if b then "true" else "false"
    case Number(n) => IntToString(n)
    case String(s) => Quote(s)
    case Array(items) => "[" + EncItems(items) + "]"
    case Object(members) => "{" + EncMembers(members) + "}"
  }

  function EncItems(items: seq<Json>): string
    decreases items
  {
    if items == [] then ""
    else if |items| == 1 then Enc(items[0])
    else Enc(items[0]) + ", " + EncItems(items[1..])
  }

  function EncMember(m: Member): string
    decreases m
  {
    Quote(m.key) + ": " + Enc(m.value)
  }

  function EncMembers(members: seq<Member>): string
    decreases members
  {
    if members == [] then ""
    else if |members| == 1 then EncMember(members[0])
    else EncMember(members[0]) + ", " + EncMembers(members[1..])
  }

  function SkipWhitespace(s: string): (r: string)
    ensures |r| <= |s|
    ensures r == [] || !IsWhitespace(r[0])
  {
    if s != [] && IsWhitespace(s[0]) then SkipWhitespace(s[1..]) else s
  }

  function ParseLiteral(t: string, word: string, v: Json): (r: Option<(Json, string)>)
    requires |word| > 0
    ensures r.Some? ==> |r.value.1| < |t|
  {
    if |word| <= |t| && t[..|word|] == word then Some((v, t[|word|..])) else None
  }

  /**
   * One value after optional whitespace, and the text that follows it
   * (Python's `scan_once`, without NaN, Infinity and numbers with a fraction
   * or an exponent).
   */
  function ParseValue(s: string): (r: Option<(Json, string)>)
    ensures r.Some? ==> |r.value.1| < |s|
    decreases |s|, 1
  {
    var t := SkipWhitespace(s);
    if t == [] then None
    else if t[0] == '{' then ParseObject(t[1..])
    else if t[0] == '[' then ParseArray(t[1..])
    else if t[0] == '"' then
      match ParseStringBody(t[1..])
      case None => None
      case Some((str, rest)) => Some((String(str), rest))
    else if t[0] == 'n' then ParseLiteral(t, "null", Null)
    else if t[0] == 't' then ParseLiteral(t, "true", Bool(true))
    else if t[0] == 'f' then ParseLiteral(t, "false", Bool(false))
    else if t[0] == '-' || IsDigit(t[0]) then
      match ParseNumber(t)
      case None => None
      case Some((n, rest)) => Some((Number(n), rest))
    else None
  }

  /** An array after its opening bracket. */
  function ParseArray(s: string): (r: Option<(Json, string)>)
    ensures r.Some? ==> |r.value.1| < |s|
    decreases |s|, 3
  {
    var t := SkipWhitespace(s);
    if t != [] && t[0] == ']' then Some((Array([]), t[1..]))
    else
      match ParseElements(t)
      case None => None
      case Some((items, rest)) => Some((Array(items), rest))
  }

  /** One or more comma-separated values and the closing bracket. */
  function ParseElements(s: string): (r: Option<(seq<Json>, string)>)
    ensures r.Some? ==> |r.value.1| < |s|
    decreases |s|, 2
  {
    match ParseValue(s)
    case None => None
    case Some((v, rest)) =>
      var t := SkipWhitespace(rest);
      if t != [] && t[0] == ']' then Some(([v], t[1..]))
      else if t != [] && t[0] == ',' then
        match ParseElements(t[1..])
        case None => None
        case Some((vs, rest')) => Some(([v] + vs, rest'))
      else None
  }

  /** An object after its opening brace. */
  function ParseObject(s: string): (r: Option<(Json, string)>)
    ensures r.Some? ==> |r.value.1| < |s|
    decreases |s|, 4
  {
    var t := SkipWhitespace(s);
    if t != [] && t[0] == '}' then Some((Object([]), t[1..]))
    else
      match ParseMembers(t)
      case None => None
      case Some((members, rest)) => Some((Object(members), rest))
  }

  /** One or more comma-separated members and the closing brace. */
  function ParseMembers(s: string): (r: Option<(seq<Member>, string)>)
    ensures r.Some? ==> |r.value.1| < |s|
    decreases |s|, 3
  {
    match ParseMember(s)
    case None => None
    case Some((m, rest)) =>
      var t := SkipWhitespace(rest);
      if t != [] && t[0] == '}' then Some(([m], t[1..]))
      else if t != [] && t[0] == ',' then
        match ParseMembers(t[1..])
        case None => None
        case Some((ms, rest')) => Some(([m] + ms, rest'))
      else None
  }

  /** One `"key": value` member after optional whitespace. */
  function ParseMember(s: string): (r: Option<(Member, string)>)
    ensures r.Some? ==> |r.value.1| < |s|
    decreases |s|, 2
  {
    var t := SkipWhitespace(s);
    if t == [] || t[0] != '"' then None
    else
      match ParseStringBody(t[1..])
      case None => None
      case Some((key, r1)) =>
        var t1 := SkipWhitespace(r1);
        if t1 == [] || t1[0] != ':' then None
        else
          match ParseValue(t1[1..])
          case None => None
          case Some((v, r2)) => Some((Member(key, v), r2))
  }

  /** `json.loads(s)`: one value, surrounded by optional whitespace and nothing else. */
  function Parse(s: string): Option<Json> {
    match ParseValue(s)
    case None => None
    case Some((v, rest)) => if SkipWhitespace(rest) == [] then Some(v) else None
  }

  // ---------------------------------------------------------------------------
  // The round trip
  // ---------------------------------------------------------------------------

  lemma EncStartsWithToken(v: Json)
    ensures |Enc(v)| > 0
    ensures var c := Enc(v)[0]; !IsWhitespace(c) && c != ']' && c != '}'
  {
    match v
    case Number(n) => assert Enc(v)[0] == IntToString(n)[0];
    case _ =>
  }

  lemma EncItemsStartsWithToken(items: seq<Json>)
    requires items != []
    ensures |EncItems(items)| > 0 && EncItems(items)[0] == Enc(items[0])[0]
  {
    EncStartsWithToken(items[0]);
  }

  lemma EncMembersStartsWithQuote(members: seq<Member>)
    requires members != []
    ensures |EncMembers(members)| > 0 && EncMembers(members)[0] == '"'
  {
    assert EncMember(members[0])[0] == '"';
  }

  /** Concatenation regrouped, for the proofs that take encodings apart. */
  lemma Associative(a: string, b: string, c: string)
    ensures a + b + c == a + (b + c)
  {
  }

  /** What follows the comma of a separator. */
  lemma CommaBlank(x: string)
    ensures (", " + x)[1..] == " " + x
  {
  }

  /** Parsing a value (or a list of array elements, or of object members) skips a leading blank. */
  lemma ParseAfterBlank(x: string)
    ensures ParseValue(" " + x) == ParseValue(x)
    ensures ParseElements(" " + x) == ParseElements(x)
    ensures ParseMember(" " + x) == ParseMember(x)
    ensures ParseMembers(" " + x) == ParseMembers(x)
  {
    assert (" " + x)[1..] == x;
    assert SkipWhitespace(" " + x) == SkipWhitespace(x);
  }

  lemma {:induction false} ValueRoundTrip(v: Json, rest: string)
    requires Delimited(rest)
    ensures ParseValue(Enc(v) + rest) == Some((v, rest))
    decreases v, 3
  {
    match v
    case Null => LiteralRoundTrip(v, rest);
    case Bool(_) => LiteralRoundTrip(v, rest);
    case Number(n) => NumberValueRoundTrip(n, rest);
    case String(str) => StringValueRoundTrip(str, rest);
    case Array(items) => ArrayRoundTrip(items, rest);
    case Object(members) => ObjectRoundTrip(members, rest);
  }

  lemma LiteralRoundTrip(v: Json, rest: string)
    requires v.Null? || v.Bool?
    ensures ParseValue(Enc(v) + rest) == Some((v, rest))
  {
    var s := Enc(v) + rest;
    var w := Enc(v);
    assert s[..|w|] == w && s[|w|..] == rest;
  }

  lemma NumberValueRoundTrip(n: int, rest: string)
    requires Delimited(rest)
    ensures ParseValue(Enc(Number(n)) + rest) == Some((Number(n), rest))
  {
    var s := IntToString(n) + rest;
    NumberRoundTrip(n, rest);
    assert s[0] == IntToString(n)[0];
    assert s[0] == '-' || IsDigit(s[0]);
    assert SkipWhitespace(s) == s;
  }

  lemma StringValueRoundTrip(str: string, rest: string)
    ensures ParseValue(Enc(String(str)) + rest) == Some((String(str), rest))
  {
    var body := EscapeString(str) + ['"'] + rest;
    var s := Enc(String(str)) + rest;
    assert s == ['"'] + body;
    assert s[1..] == body;
    assert SkipWhitespace(s) == s;
    StringRoundTrip(str, rest);
  }

  // Arrays

  lemma ParseArrayOpening(body: string)
    ensures ParseValue("[" + body) == ParseArray(body)
  {
    assert ("[" + body)[1..] == body;
    assert SkipWhitespace("[" + body) == "[" + body;
  }

  lemma ParseArrayBody(body: string, items: seq<Json>, rest: string)
    requires body != [] && !IsWhitespace(body[0]) && body[0] != ']'
    requires ParseElements(body) == Some((items, rest))
    ensures ParseArray(body) == Some((Array(items), rest))
  {
    assert SkipWhitespace(body) == body;
  }

  lemma {:induction false} ArrayRoundTrip(items: seq<Json>, rest: string)
    ensures ParseValue(Enc(Array(items)) + rest) == Some((Array(items), rest))
    decreases items, 2
  {
    var e := EncItems(items);
    var body := e + "]" + rest;
    assert Enc(Array(items)) + rest == "[" + body by {
      Associative("[" + e, "]", rest);
      Associative("[", e, "]" + rest);
      Associative(e, "]", rest);
    }
    ParseArrayOpening(body);
    if items == [] {
      assert body == "]" + rest;
      assert body[1..] == rest;
    } else {
      EncItemsStartsWithToken(items);
      EncStartsWithToken(items[0]);
      assert body[0] == e[0];
      ElementsRoundTrip(items, rest);
      ParseArrayBody(body, items, rest);
    }
  }

  /** The text after one array element: the closing bracket, or a comma and the other elements. */
  function AfterItem(items: seq<Json>, rest: string): string
    requires items != []
  {
    if |items| == 1 then "]" + rest else ", " + EncItems(items[1..]) + "]" + rest
  }

  lemma EncItemsSplit(items: seq<Json>, rest: string)
    requires items != []
    ensures EncItems(items) + "]" + rest == Enc(items[0]) + AfterItem(items, rest)
  {
    var x := Enc(items[0]);
    if |items| == 1 {
      Associative(x, "]", rest);
    } else {
      var tail := EncItems(items[1..]);
      assert EncItems(items) == x + ", " + tail;
      Associative(x, ", ", tail);
      Associative(x, ", " + tail, "]");
      Associative(x, ", " + tail + "]", rest);
    }
  }

  /** One step of `ParseElements`, once its first value is known. */
  lemma ParseElementsStep(s: string, v: Json, after: string)
    requires ParseValue(s) == Some((v, after))
    requires after != [] && (after[0] == ']' || after[0] == ',')
    ensures after[0] == ']' ==> ParseElements(s) == Some(([v], after[1..]))
    ensures after[0] == ',' ==>
              ParseElements(s) == (match ParseElements(after[1..])
                                   case None => None
                                   case Some((vs, r)) => Some(([v] + vs, r)))
  {
    assert SkipWhitespace(after) == after;
  }

  lemma {:induction false} ElementsRoundTrip(items: seq<Json>, rest: string)
    requires items != []
    ensures ParseElements(EncItems(items) + "]" + rest) == Some((items, rest))
    decreases items, 1
  {
    var after := AfterItem(items, rest);
    EncItemsSplit(items, rest);
    ValueRoundTrip(items[0], after);
    ParseElementsStep(EncItems(items) + "]" + rest, items[0], after);
    if |items| > 1 {
      OtherElementsRoundTrip(items, rest);
      assert [items[0]] + items[1..] == items;
    } else {
      assert after[1..] == rest;
      assert [items[0]] == items;
    }
  }

  /** The elements after the first comma read back. */
  lemma {:induction false} OtherElementsRoundTrip(items: seq<Json>, rest: string)
    requires |items| > 1
    ensures ParseElements(AfterItem(items, rest)[1..]) == Some((items[1..], rest))
    decreases items, 0
  {
    var e := EncItems(items[1..]);
    var inner := e + "]" + rest;
    assert AfterItem(items, rest)[1..] == " " + inner by {
      Associative(", ", e, "]");
      Associative(", ", e + "]", rest);
      Associative(e, "]", rest);
      CommaBlank(inner);
    }
    ParseAfterBlank(inner);
    ElementsRoundTrip(items[1..], rest);
  }

  // Objects

  lemma ParseObjectOpening(body: string)
    ensures ParseValue("{" + body) == ParseObject(body)
  {
    assert ("{" + body)[1..] == body;
    assert SkipWhitespace("{" + body) == "{" + body;
  }

  lemma ParseObjectBody(body: string, members: seq<Member>, rest: string)
    requires body != [] && body[0] == '"'
    requires ParseMembers(body) == Some((members, rest))
    ensures ParseObject(body) == Some((Object(members), rest))
  {
    assert SkipWhitespace(body) == body;
  }

  lemma {:induction false} ObjectRoundTrip(members: seq<Member>, rest: string)
    ensures ParseValue(Enc(Object(members)) + rest) == Some((Object(members), rest))
    decreases members, 2
  {
    var e := EncMembers(members);
    var body := e + "}" + rest;
    assert Enc(Object(members)) + rest == "{" + body by {
      Associative("{" + e, "}", rest);
      Associative("{", e, "}" + rest);
      Associative(e, "}", rest);
    }
    ParseObjectOpening(body);
    if members == [] {
      assert body == "}" + rest;
      assert body[1..] == rest;
    } else {
      EncMembersStartsWithQuote(members);
      assert body[0] == '"';
      MembersRoundTrip(members, rest);
      ParseObjectBody(body, members, rest);
    }
  }

  /** The text after one member: the closing brace, or a comma and the other members. */
  function AfterMember(members: seq<Member>, rest: string): string
    requires members != []
  {
    if |members| == 1 then "}" + rest else ", " + EncMembers(members[1..]) + "}" + rest
  }

  lemma EncMembersSplit(members: seq<Member>, rest: string)
    requires members != []
    ensures EncMembers(members) + "}" + rest == EncMember(members[0]) + AfterMember(members, rest)
  {
    var x := EncMember(members[0]);
    if |members| == 1 {
      Associative(x, "}", rest);
    } else {
      var tail := EncMembers(members[1..]);
      assert EncMembers(members) == x + ", " + tail;
      Associative(x, ", ", tail);
      Associative(x, ", " + tail, "}");
      Associative(x, ", " + tail + "}", rest);
    }
  }

  /** The key of one encoded member reads back, up to the colon. */
  lemma MemberKeyParses(m: Member, after: string)
    ensures var s := EncMember(m) + after;
            s[0] == '"' && ParseStringBody(s[1..]) == Some((m.key, ": " + Enc(m.value) + after))
  {
    var keyTail := ": " + Enc(m.value) + after;
    var s := EncMember(m) + after;
    assert s == ['"'] + (EscapeString(m.key) + ['"'] + keyTail);
    assert s[1..] == EscapeString(m.key) + ['"'] + keyTail;
    StringRoundTrip(m.key, keyTail);
  }

  /** The value of one encoded member reads back after the colon. */
  lemma {:induction false} MemberValueParses(m: Member, after: string)
    requires Delimited(after)
    ensures ParseValue((": " + Enc(m.value) + after)[1..]) == Some((m.value, after))
    decreases m, 0
  {
    var valueText := Enc(m.value) + after;
    assert (": " + Enc(m.value) + after)[1..] == " " + valueText by {
      Associative(": ", Enc(m.value), after);
    }
    ParseAfterBlank(valueText);
    ValueRoundTrip(m.value, after);
  }

  /** One encoded member reads back. */
  lemma {:induction false} MemberRoundTrip(m: Member, after: string)
    requires Delimited(after)
    ensures ParseMember(EncMember(m) + after) == Some((m, after))
    decreases m, 1
  {
    var s := EncMember(m) + after;
    var keyTail := ": " + Enc(m.value) + after;
    MemberKeyParses(m, after);
    assert SkipWhitespace(s) == s;
    assert SkipWhitespace(keyTail) == keyTail;
    MemberValueParses(m, after);
  }

  /** One step of `ParseMembers`, once its first member is known. */
  lemma ParseMembersStep(s: string, m: Member, after: string)
    requires ParseMember(s) == Some((m, after))
    requires after != [] && (after[0] == '}' || after[0] == ',')
    ensures after[0] == '}' ==> ParseMembers(s) == Some(([m], after[1..]))
    ensures after[0] == ',' ==>
              ParseMembers(s) == (match ParseMembers(after[1..])
                                  case None => None
                                  case Some((ms, r)) => Some(([m] + ms, r)))
  {
    assert SkipWhitespace(after) == after;
  }

  lemma {:induction false} MembersRoundTrip(members: seq<Member>, rest: string)
    requires members != []
    ensures ParseMembers(EncMembers(members) + "}" + rest) == Some((members, rest))
    decreases members, 1
  {
    var m := members[0];
    var after := AfterMember(members, rest);
    EncMembersSplit(members, rest);
    MemberRoundTrip(m, after);
    ParseMembersStep(EncMembers(members) + "}" + rest, m, after);
    if |members| > 1 {
      OtherMembersRoundTrip(members, rest);
      assert [m] + members[1..] == members;
    } else {
      assert after[1..] == rest;
      assert [m] == members;
    }
  }

  /** The members after the first comma read back. */
  lemma {:induction false} OtherMembersRoundTrip(members: seq<Member>, rest: string)
    requires |members| > 1
    ensures ParseMembers(AfterMember(members, rest)[1..]) == Some((members[1..], rest))
    decreases members, 0
  {
    var e := EncMembers(members[1..]);
    var inner := e + "}" + rest;
    assert AfterMember(members, rest)[1..] == " " + inner by {
      Associative(", ", e, "}");
      Associative(", ", e + "}", rest);
      Associative(e, "}", rest);
      CommaBlank(inner);
    }
    ParseAfterBlank(inner);
    MembersRoundTrip(members[1..], rest);
  }

  /** What `json.dumps` writes, `json.loads` reads back as the same value. */
  lemma RoundTrip(v: Json)
    ensures Parse(Enc(v)) == Some(v)
  {
    ValueRoundTrip(v, []);
    assert Enc(v) + [] == Enc(v);
  }

  /** Two values with the same encoding are the same value. */
  lemma EncInjective(v: Json, w: Json)
    requires Enc(v) == Enc(w)
    ensures v == w
  {
    RoundTrip(v);
    RoundTrip(w);
  }
}
