/**
 * JSON values as Python's `json` module produces and consumes them.
 *
 * `Serialize` is `json.dumps(v, separators=(",", ":"))` with the default
 * `ensure_ascii`: no whitespace between tokens, every character outside
 * printable ASCII written as a `\uXXXX` escape (a surrogate pair above U+FFFF).
 * `Parse` is the `json.loads` grammar on decoded text, with integers only.
 * An object keeps its members in text order, duplicates included; `Get` gives
 * the value Python's dict would keep (the last one).
 */
module Json {
  import opened Wrappers
  import Utf8

  datatype Json =
    | Null
    | Bool(b: bool)
    | Number(n: int)
    | String(str: string)
    | Array(items: seq<Json>)
    | Object(members: seq<Member>)

  datatype Member = Member(key: string, value: Json)

  /** The value stored under `key` in a decoded object: the last member with that key wins. */
  function Get(members: seq<Member>, key: string): (r: Option<Json>)
    ensures r.Some? <==> exists i | 0 <= i < |members| :: members[i].key == key
    ensures r.Some? ==> exists i | 0 <= i < |members| ::
      members[i] == Member(key, r.value) && forall j | i < j < |members| :: members[j].key != key
  {
    if members == [] then None
    else if members[|members| - 1].key == key then Some(members[|members| - 1].value)
    else Get(members[..|members| - 1], key)
  }

  /** Python's truth value of a decoded value (`if force:`). */
  predicate Truthy(v: Json)
  {
    match v
    case Null => false
    case Bool(b) => b
    case Number(n) => n != 0
    case String(s) => s != []
    case Array(items) => items != []
    case Object(members) => members != []
  }

  // ---------------------------------------------------------------- characters

  predicate IsWs(c: char) { c == ' ' || c == '\t' || c == '\n' || c == '\r' }

  predicate IsDigit(c: char) { 48 <= c as int <= 57 }

  /** Printable ASCII, the only characters `json.dumps` emits with `ensure_ascii`. */
  predicate Printable(s: string)
  {
    forall i | 0 <= i < |s| :: 0x20 <= s[i] as int <= 0x7E
  }

  function DigitChar(d: nat): (c: char)
    requires d < 10
    ensures IsDigit(c)
  {
    (48 + d) as char
  }

  function DigitValue(c: char): nat
    requires IsDigit(c)
  {
    c as int - 48
  }

  function HexChar(d: nat): (c: char)
    requires d < 16
    ensures 0x20 <= c as int <= 0x7E
  {
    if d < 10 then DigitChar(d) else (87 + d) as char
  }

  function HexValue(c: char): Option<nat>
  {
    var n := c as int;
    if 48 <= n <= 57 then Some(n - 48)
    else if 97 <= n <= 102 then Some(n - 87)
    else if 65 <= n <= 70 then Some(n - 55)
    else None
  }

  // ---------------------------------------------------------------- serialiser

  /** Decimal digits of a natural number, without leading zeros. */
  function Decimal(n: nat): string
    decreases n
  {
    if n < 10 then [DigitChar(n)] else Decimal(n / 10) + [DigitChar(n % 10)]
  }

  function IntText(i: int): string
  {
    if i < 0 then "-" + Decimal(-i) else Decimal(i)
  }

  /** Four lower-case hexadecimal digits, as in `'\\u{0:04x}'.format(n)`. */
  function Hex4(n: nat): string
    requires n < 0x1_0000
  {
    var hi, lo := n / 256, n % 256;
    [HexChar(hi / 16), HexChar(hi % 16), HexChar(lo / 16), HexChar(lo % 16)]
  }

  /** How `json.dumps` writes one character of a string. */
  function EscapeChar(c: char): string
  {
    var n := c as int;
    if c == '"' then "\\\""
    else if c == '\\' then "\\\\"
    else if c == '\n' then "\\n"
    else if c == '\r' then "\\r"
    else if c == '\t' then "\\t"
    else if n == 8 then "\\b"
    else if n == 12 then "\\f"
    else if 0x20 <= n <= 0x7E then [c]
    else if n < 0x1_0000 then "\\u" + Hex4(n)
    else PairEscape(n)
  }

  /** A character above U+FFFF as the `\uXXXX\uXXXX` escapes of its UTF-16 surrogate pair. */
  function PairEscape(n: int): string
    requires 0x1_0000 <= n < 0x11_0000
  {
    var m := n - 0x1_0000;
    "\\u" + Hex4(0xD800 + m / 1024) + "\\u" + Hex4(0xDC00 + m % 1024)
  }

  function Escape(s: string): string
  {
    if s == [] then [] else EscapeChar(s[0]) + Escape(s[1..])
  }

  function Quote(s: string): string
  {
    "\"" + Escape(s) + "\""
  }

  /** Compact JSON text of a value. */
  function Serialize(v: Json): string
  {
    match v
    case Null => "null"
    case Bool(b) => if b then "true" else "false"
    case Number(n) => IntText(n)
    case String(s) => Quote(s)
    case Array(items) => "[" + SerializeItems(items) + "]"
    case Object(members) => "{" + SerializeMembers(members) + "}"
  }

  function SerializeItems(items: seq<Json>): string
  {
    if items == [] then ""
    else if |items| == 1 then Serialize(items[0])
    else Serialize(items[0]) + "," + SerializeItems(items[1..])
  }

  function SerializeMember(m: Member): string
  {
    Quote(m.key) + ":" + Serialize(m.value)
  }

  function SerializeMembers(members: seq<Member>): string
  {
    if members == [] then ""
    else if |members| == 1 then SerializeMember(members[0])
    else SerializeMember(members[0]) + "," + SerializeMembers(members[1..])
  }

  // ---------------------------------------------------------------- parser

  function SkipWs(s: string): (r: string)
    ensures |r| <= |s|
    ensures r == [] || !IsWs(r[0])
  {
    if s != [] && IsWs(s[0]) then SkipWs(s[1..]) else s
  }

  /** The number of decimal digits at the start of `s`. */
  function DigitSpan(s: string): (k: nat)
    ensures k <= |s|
    ensures forall i | 0 <= i < k :: IsDigit(s[i])
    ensures k == |s| || !IsDigit(s[k])
  {
    if s != [] && IsDigit(s[0]) then 1 + DigitSpan(s[1..]) else 0
  }

  function DecimalValue(ds: string): nat
    requires forall i | 0 <= i < |ds| :: IsDigit(ds[i])
  {
    if ds == [] then 0
    else DecimalValue(ds[..|ds| - 1]) * 10 + DigitValue(ds[|ds| - 1])
  }

  /** Whether the text after an integer continues it as a float (`.5`, `e3`, `E-2`). */
  predicate StartsFraction(s: string)
  {
    |s| >= 2 && (
      (s[0] == '.' && IsDigit(s[1])) ||
      ((s[0] == 'e' || s[0] == 'E') &&
       (IsDigit(s[1]) || (|s| >= 3 && (s[1] == '+' || s[1] == '-') && IsDigit(s[2])))))
  }

  /** `0|[1-9][0-9]*` at the start of `t`; a float continuation is refused. */
  function ParseNatural(t: string): (r: Option<(nat, string)>)
    ensures r.Some? ==> |r.value.1| < |t|
  {
    if t == [] || !IsDigit(t[0]) then None
    else
      var k := if t[0] == '0' then 1 else DigitSpan(t);
      if StartsFraction(t[k..]) then None
      else Some((DecimalValue(t[..k]), t[k..]))
  }

  /** `-?(0|[1-9][0-9]*)` at the start of `s`, as an integer. */
  function ParseNumber(s: string): (r: Option<(Json, string)>)
    ensures r.Some? ==> |r.value.1| < |s|
  {
    if s != [] && s[0] == '-' then
      match ParseNatural(s[1..])
      case None => None
      case Some((m, rest)) => Some((Number(-(m as int)), rest))
    else
      match ParseNatural(s)
      case None => None
      case Some((m, rest)) => Some((Number(m), rest))
  }

  function ParseHex4(t: string): Option<nat>
    requires |t| >= 4
  {
    match (HexValue(t[0]), HexValue(t[1]), HexValue(t[2]), HexValue(t[3]))
    case (Some(a), Some(b), Some(c), Some(d)) => Some((a * 16 + b) * 256 + (c * 16 + d))
    case _ => None
  }

  /** The escape after a backslash inside a string: the character and the rest. */
  function ParseEscape(t: string): (r: Option<(char, string)>)
    ensures r.Some? ==> |r.value.1| < |t|
  {
    if t == [] then None
    else if t[0] == '"' then Some(('"', t[1..]))
    else if t[0] == '\\' then Some(('\\', t[1..]))
    else if t[0] == '/' then Some(('/', t[1..]))
    else if t[0] == 'b' then Some((8 as char, t[1..]))
    else if t[0] == 'f' then Some((12 as char, t[1..]))
    else if t[0] == 'n' then Some(('\n', t[1..]))
    else if t[0] == 'r' then Some(('\r', t[1..]))
    else if t[0] == 't' then Some(('\t', t[1..]))
    else if t[0] != 'u' || |t| < 5 then None
    else match ParseHex4(t[1..5])
      case None => None
      case Some(n) =>
        if 0xD800 <= n < 0xDC00 then
          if |t| < 11 || t[5] != '\\' || t[6] != 'u' then None
          else match ParseHex4(t[7..11])
            case None => None
            case Some(m) =>
              if 0xDC00 <= m < 0xE000 then Some(((0x1_0000 + (n - 0xD800) * 1024 + (m - 0xDC00)) as char, t[11..]))
              else None
        else if 0xDC00 <= n < 0xE000 then None
        else if n < 0x1_0000 then Some((n as char, t[5..]))
        else None
  }

  /** The body of a string after its opening quote: the characters and the text after the closing quote. */
  function ParseChars(t: string): (r: Option<(string, string)>)
    ensures r.Some? ==> |r.value.1| < |t|
  {
    if t == [] then None
    else if t[0] == '"' then Some(([], t[1..]))
    else if t[0] == '\\' then
      match ParseEscape(t[1..])
      case None => None
      case Some((c, rest)) =>
        match ParseChars(rest)
        case None => None
        case Some((cs, rest')) => Some(([c] + cs, rest'))
    else if t[0] as int < 0x20 then None
    else
      match ParseChars(t[1..])
      case None => None
      case Some((cs, rest)) => Some(([t[0]] + cs, rest))
  }

  /** One value at the very start of `s` (no leading whitespace) and the text after it. */
  function ParseValue(s: string): (r: Option<(Json, string)>)
    ensures r.Some? ==> |r.value.1| < |s|
    decreases |s|, 0
  {
    if s == [] then None
    else match s[0]
      case '"' =>
        (match ParseChars(s[1..])
         case None => None
         case Some((cs, rest)) => Some((String(cs), rest)))
      case '[' => ParseArray(SkipWs(s[1..]))
      case '{' => ParseObject(SkipWs(s[1..]))
      case 'n' => if |s| >= 4 && s[..4] == "null" then Some((Null, s[4..])) else None
      case 't' => if |s| >= 4 && s[..4] == "true" then Some((Bool(true), s[4..])) else None
      case 'f' => if |s| >= 5 && s[..5] == "false" then Some((Bool(false), s[5..])) else None
      case _ => ParseNumber(s)
  }

  /** An array after `[` and any whitespace. */
  function ParseArray(s: string): (r: Option<(Json, string)>)
    ensures r.Some? ==> |r.value.1| < |s|
    decreases |s|, 2
  {
    if s != [] && s[0] == ']' then Some((Array([]), s[1..]))
    else
      match ParseElements(s)
      case None => None
      case Some((items, rest)) => Some((Array(items), rest))
  }

  /** Array elements up to and including the closing `]`. */
  function ParseElements(s: string): (r: Option<(seq<Json>, string)>)
    ensures r.Some? ==> |r.value.1| < |s|
    decreases |s|, 1
  {
    match ParseValue(s)
    case None => None
    case Some((v, rest)) =>
      var t := SkipWs(rest);
      if t == [] then None
      else if t[0] == ']' then Some(([v], t[1..]))
      else if t[0] != ',' then None
      else
        match ParseElements(SkipWs(t[1..]))
        case None => None
        case Some((vs, rest')) => Some(([v] + vs, rest'))
  }

  /** An object after `{` and any whitespace. */
  function ParseObject(s: string): (r: Option<(Json, string)>)
    ensures r.Some? ==> |r.value.1| < |s|
    decreases |s|, 2
  {
    if s != [] && s[0] == '}' then Some((Object([]), s[1..]))
    else
      match ParseMembers(s)
      case None => None
      case Some((members, rest)) => Some((Object(members), rest))
  }

  /** Object members, each `"key" : value`, up to and including the closing `}`. */
  function ParseMembers(s: string): (r: Option<(seq<Member>, string)>)
    ensures r.Some? ==> |r.value.1| < |s|
    decreases |s|, 1
  {
    if s == [] || s[0] != '"' then None
    else match ParseChars(s[1..])
      case None => None
      case Some((key, r1)) =>
        var r2 := SkipWs(r1);
        if r2 == [] || r2[0] != ':' then None
        else match ParseValue(SkipWs(r2[1..]))
          case None => None
          case Some((v, r3)) =>
            var r4 := SkipWs(r3);
            if r4 == [] then None
            else if r4[0] == '}' then Some(([Member(key, v)], r4[1..]))
            else if r4[0] != ',' then None
            else match ParseMembers(SkipWs(r4[1..]))
              case None => None
              case Some((ms, rest)) => Some(([Member(key, v)] + ms, rest))
  }

  /** A whole document: one value, whitespace allowed around it, nothing else. */
  function Parse(text: string): Option<Json>
  {
    match ParseValue(SkipWs(text))
    case None => None
    case Some((v, rest)) => if SkipWs(rest) == [] then Some(v) else None
  }

  /** `json.loads` on a UTF-8 byte string. */
  function Loads(bs: seq<Utf8.byte>): Option<Json>
  {
    match Utf8.Decode(bs)
    case None => None
    case Some(text) => Parse(text)
  }

  // ---------------------------------------------------------------- round trip

  /** What may follow a value inside the text `Serialize` produces. */
  predicate Delimited(rest: string)
  {
    rest == [] || rest[0] == ',' || rest[0] == ']' || rest[0] == '}'
  }

  lemma {:induction false} DecimalFacts(n: nat)
    ensures |Decimal(n)| > 0 && Printable(Decimal(n))
    ensures forall i | 0 <= i < |Decimal(n)| :: IsDigit(Decimal(n)[i])
    ensures n == 0 ==> Decimal(n) == "0"
    ensures n > 0 ==> Decimal(n)[0] != '0'
    ensures DecimalValue(Decimal(n)) == n
    decreases n
  {
    if n >= 10 {
      DecimalFacts(n / 10);
      var d := Decimal(n / 10);
      assert Decimal(n) == d + [DigitChar(n % 10)];
      assert Decimal(n)[..|Decimal(n)| - 1] == d;
    }
  }

  lemma {:induction false} DigitSpanOf(d: string, rest: string)
    requires forall i | 0 <= i < |d| :: IsDigit(d[i])
    requires rest == [] || !IsDigit(rest[0])
    ensures DigitSpan(d + rest) == |d|
  {
    if d != [] {
      assert (d + rest)[1..] == d[1..] + rest;
      DigitSpanOf(d[1..], rest);
    }
  }

  /** After a digit or a minus sign, `ParseValue` reads a number. */
  lemma ParseValueNumber(s: string)
    requires s != [] && (s[0] == '-' || IsDigit(s[0]))
    ensures ParseValue(s) == ParseNumber(s)
  {
  }

  lemma ParseDecimal(n: nat, rest: string)
    requires Delimited(rest)
    ensures ParseNatural(Decimal(n) + rest) == Some((n, rest))
    ensures |Decimal(n)| > 0 && IsDigit(Decimal(n)[0])
  {
    DecimalFacts(n);
    var d := Decimal(n);
    var t := d + rest;
    if t[0] == '0' {
      assert n == 0 && d == "0";
      assert t[..1] == d && t[1..] == rest;
    } else {
      DigitSpanOf(d, rest);
      assert t[..|d|] == d && t[|d|..] == rest;
    }
  }

  lemma ParseMinusDecimal(n: nat, rest: string)
    requires Delimited(rest)
    ensures ParseNumber("-" + Decimal(n) + rest) == Some((Number(0 - n), rest))
  {
    var t := Decimal(n) + rest;
    assert "-" + Decimal(n) + rest == "-" + t;
    assert ("-" + t)[1..] == t;
    ParseDecimal(n, rest);
  }

  lemma ParsePlainDecimal(n: nat, rest: string)
    requires Delimited(rest)
    ensures ParseNumber(Decimal(n) + rest) == Some((Number(n), rest))
  {
    ParseDecimal(n, rest);
    assert (Decimal(n) + rest)[0] == Decimal(n)[0];
  }

  lemma ParseIntText(i: int, rest: string)
    requires Delimited(rest)
    ensures ParseNumber(IntText(i) + rest) == Some((Number(i), rest))
  {
    if i < 0 {
      ParseMinusDecimal(-i, rest);
    } else {
      ParsePlainDecimal(i, rest);
    }
  }

  lemma HexValueOf(d: nat)
    requires d < 16
    ensures HexValue(HexChar(d)) == Some(d)
  {
  }

  lemma HexRoundTrip(n: nat, rest: string)
    requires n < 0x1_0000
    ensures ParseHex4(Hex4(n) + rest) == Some(n)
  {
    var hi, lo := n / 256, n % 256;
    HexValueOf(hi / 16); HexValueOf(hi % 16); HexValueOf(lo / 16); HexValueOf(lo % 16);
    assert (hi / 16 * 16 + hi % 16) * 256 + (lo / 16 * 16 + lo % 16) == n;
  }

  /** The shape of one character's escape, for what a parsing step needs. */
  lemma EscapeCharShape(c: char)
    ensures |EscapeChar(c)| > 0
    ensures EscapeChar(c)[0] == '\\' <==> !(0x20 <= c as int <= 0x7E) || c == '"' || c == '\\'
  {
  }

  lemma ParseShortEscape(c: char, tail: string)
    requires c == '"' || c == '\\' || c == '\n' || c == '\r' || c == '\t' || c as int == 8 || c as int == 12
    ensures ParseChars(EscapeChar(c) + tail) ==
      match ParseChars(tail)
      case None => None
      case Some((cs, rest)) => Some(([c] + cs, rest))
  {
    var t := EscapeChar(c) + tail;
    assert |EscapeChar(c)| == 2;
    assert t[1..][1..] == tail;
  }

  lemma ParsePlainChar(c: char, tail: string)
    requires 0x20 <= c as int <= 0x7E && c != '"' && c != '\\'
    ensures ParseChars(EscapeChar(c) + tail) ==
      match ParseChars(tail)
      case None => None
      case Some((cs, rest)) => Some(([c] + cs, rest))
  {
    var t := EscapeChar(c) + tail;
    assert EscapeChar(c) == [c];
    assert t[1..] == tail;
  }

  lemma ParseHexEscape(c: char, tail: string)
    requires !(0x20 <= c as int <= 0x7E) && c != '\n' && c != '\r' && c != '\t'
    requires c as int != 8 && c as int != 12 && c as int < 0x1_0000
    ensures ParseEscape(EscapeChar(c)[1..] + tail) == Some((c, tail))
  {
    var n := c as int;
    var u := EscapeChar(c)[1..] + tail;
    assert EscapeChar(c) == "\\u" + Hex4(n);
    assert u == "u" + Hex4(n) + tail;
    assert u[1..5] == Hex4(n) && u[5..] == tail;
    HexRoundTrip(n, []);
    assert Hex4(n) + [] == Hex4(n);
  }

  /** Two `\uXXXX` escapes forming a surrogate pair decode to the one character they encode. */
  lemma ParseSurrogatePair(hi: nat, lo: nat, tail: string)
    requires 0xD800 <= hi < 0xDC00 && 0xDC00 <= lo < 0xE000
    requires Utf8.IsScalar(0x1_0000 + (hi - 0xD800) * 1024 + (lo - 0xDC00))
    ensures ParseEscape("u" + Hex4(hi) + "\\u" + Hex4(lo) + tail) ==
      Some(((0x1_0000 + (hi - 0xD800) * 1024 + (lo - 0xDC00)) as char, tail))
  {
    var u := "u" + Hex4(hi) + "\\u" + Hex4(lo) + tail;
    assert u[1..5] == Hex4(hi);
    assert u[5] == '\\' && u[6] == 'u';
    assert u[7..11] == Hex4(lo);
    assert u[11..] == tail;
    HexRoundTrip(hi, []);
    HexRoundTrip(lo, []);
    assert Hex4(hi) + [] == Hex4(hi) && Hex4(lo) + [] == Hex4(lo);
  }

  lemma EscapeCharAbove(c: char)
    requires c as int >= 0x1_0000
    ensures EscapeChar(c) == PairEscape(c as int)
  {
  }

  lemma PairEscapeText(n: int, tail: string)
    requires 0x1_0000 <= n < 0x11_0000
    ensures PairEscape(n)[1..] + tail ==
      "u" + Hex4(0xD800 + (n - 0x1_0000) / 1024) + "\\u" + Hex4(0xDC00 + (n - 0x1_0000) % 1024) + tail
  {
  }

  lemma ParsePairEscape(c: char, tail: string)
    requires c as int >= 0x1_0000
    ensures ParseEscape(EscapeChar(c)[1..] + tail) == Some((c, tail))
  {
    var n := c as int;
    var hi, lo := 0xD800 + (n - 0x1_0000) / 1024, 0xDC00 + (n - 0x1_0000) % 1024;
    EscapeCharAbove(c);
    PairEscapeText(n, tail);
    SurrogateSplit(n);
    ParseSurrogatePair(hi, lo, tail);
  }

  /** The UTF-16 surrogate pair of a character above U+FFFF, and the character it recombines to. */
  lemma SurrogateSplit(n: int)
    requires 0x1_0000 <= n < 0x11_0000
    ensures var hi, lo := 0xD800 + (n - 0x1_0000) / 1024, 0xDC00 + (n - 0x1_0000) % 1024;
      0xD800 <= hi < 0xDC00 && 0xDC00 <= lo < 0xE000 &&
      0x1_0000 + (hi - 0xD800) * 1024 + (lo - 0xDC00) == n
  {
  }

  /** Parsing one escaped character yields the character and continues with what follows it. */
  lemma ParseEscapedChar(c: char, tail: string)
    ensures ParseChars(EscapeChar(c) + tail) ==
      match ParseChars(tail)
      case None => None
      case Some((cs, rest)) => Some(([c] + cs, rest))
  {
    var n := c as int;
    if c == '"' || c == '\\' || c == '\n' || c == '\r' || c == '\t' || n == 8 || n == 12 {
      ParseShortEscape(c, tail);
    } else if 0x20 <= n <= 0x7E {
      ParsePlainChar(c, tail);
    } else {
      var t := EscapeChar(c) + tail;
      EscapeCharShape(c);
      assert t[0] == '\\' && t[1..] == EscapeChar(c)[1..] + tail;
      if n < 0x1_0000 {
        ParseHexEscape(c, tail);
      } else {
        ParsePairEscape(c, tail);
      }
    }
  }

  lemma {:induction false} ParseEscaped(s: string, rest: string)
    ensures ParseChars(Escape(s) + "\"" + rest) == Some((s, rest))
  {
    if s == [] {
      assert Escape(s) + "\"" + rest == "\"" + rest;
    } else {
      var tail := Escape(s[1..]) + "\"" + rest;
      assert Escape(s) + "\"" + rest == EscapeChar(s[0]) + tail;
      ParseEscapedChar(s[0], tail);
      ParseEscaped(s[1..], rest);
      assert [s[0]] + s[1..] == s;
    }
  }

  lemma ParseValueString(body: string)
    ensures ParseValue("\"" + body) ==
      match ParseChars(body)
      case None => None
      case Some((cs, rest)) => Some((String(cs), rest))
  {
    assert ("\"" + body)[1..] == body;
  }

  lemma ParseQuoted(s: string, rest: string)
    ensures ParseValue(Quote(s) + rest) == Some((String(s), rest))
  {
    var body := Escape(s) + "\"" + rest;
    assert Quote(s) + rest == "\"" + body;
    ParseValueString(body);
    ParseEscaped(s, rest);
  }

  lemma PrintableJoin(a: string, b: string)
    requires Printable(a) && Printable(b)
    ensures Printable(a + b)
  {
  }

  lemma UnicodeEscapePrintable(n: nat)
    requires n < 0x1_0000
    ensures Printable("\\u" + Hex4(n))
  {
    PrintableJoin("\\u", Hex4(n));
  }

  lemma PairEscapePrintable(n: int)
    requires 0x1_0000 <= n < 0x11_0000
    ensures Printable(PairEscape(n))
  {
    var m := n - 0x1_0000;
    UnicodeEscapePrintable(0xD800 + m / 1024);
    UnicodeEscapePrintable(0xDC00 + m % 1024);
    PrintableJoin("\\u" + Hex4(0xD800 + m / 1024), "\\u" + Hex4(0xDC00 + m % 1024));
  }

  lemma EscapeCharPrintable(c: char)
    ensures Printable(EscapeChar(c))
  {
    var n := c as int;
    if !(0x20 <= n <= 0x7E) && n >= 0x1_0000 {
      PairEscapePrintable(n);
    } else if !(0x20 <= n <= 0x7E) && n != 8 && n != 12 && c != '\n' && c != '\r' && c != '\t' {
      UnicodeEscapePrintable(n);
    }
  }

  lemma {:induction false} EscapePrintable(s: string)
    ensures Printable(Escape(s))
  {
    if s != [] {
      EscapeCharPrintable(s[0]);
      EscapePrintable(s[1..]);
      assert Escape(s) == EscapeChar(s[0]) + Escape(s[1..]);
    }
  }

  /** A character a value's text may start with: not whitespace, not a separator or closer. */
  predicate Opening(c: char) { !IsWs(c) && c != ']' && c != '}' && c != ',' }

  /** A printable, non-blank character: what a value's text ends with. */
  predicate Solid(c: char) { 0x20 < c as int <= 0x7E }

  lemma {:induction false} DecimalEnds(n: nat)
    ensures |Decimal(n)| > 0 && IsDigit(Decimal(n)[0]) && IsDigit(Decimal(n)[|Decimal(n)| - 1])
    decreases n
  {
    if n >= 10 {
      DecimalEnds(n / 10);
      assert Decimal(n)[0] == Decimal(n / 10)[0];
    }
  }

  /** How a value's text starts and ends, which is all the tokenizer looks at around it. */
  lemma SerializedEnds(v: Json)
    ensures |Serialize(v)| > 0
    ensures Opening(Serialize(v)[0]) && Solid(Serialize(v)[|Serialize(v)| - 1])
  {
    match v
    case Null =>
    case Bool(b) =>
    case Number(n) =>
      DecimalEnds(if n < 0 then -n else n);
    case String(s) =>
    case Array(items) =>
    case Object(members) =>
  }

  lemma SerializedItemsStart(items: seq<Json>)
    requires items != []
    ensures |SerializeItems(items)| > 0 && Opening(SerializeItems(items)[0])
  {
    SerializedEnds(items[0]);
    if |items| > 1 {
      assert SerializeItems(items)[0] == Serialize(items[0])[0];
    }
  }

  lemma SerializedMembersStart(members: seq<Member>)
    requires members != []
    ensures |SerializeMembers(members)| > 0 && SerializeMembers(members)[0] == '"'
  {
    if |members| > 1 {
      assert SerializeMembers(members)[0] == SerializeMember(members[0])[0];
    }
  }

  lemma IntTextPrintable(n: int)
    ensures Printable(IntText(n))
  {
    if n < 0 {
      DecimalFacts(-n);
      PrintableJoin("-", Decimal(-n));
    } else {
      DecimalFacts(n);
    }
  }

  lemma BracketedPrintable(open: string, body: string, close: string)
    requires Printable(open) && Printable(body) && Printable(close)
    ensures Printable(open + body + close)
  {
    PrintableJoin(open, body);
    PrintableJoin(open + body, close);
  }

  /** Serialised text is printable ASCII. */
  lemma {:induction false} SerializedPrintable(v: Json)
    ensures Printable(Serialize(v))
    decreases v, 1
  {
    match v
    case Null =>
    case Bool(b) =>
    case Number(n) =>
      IntTextPrintable(n);
    case String(s) =>
      EscapePrintable(s);
      BracketedPrintable("\"", Escape(s), "\"");
    case Array(items) =>
      ItemsPrintable(items);
      BracketedPrintable("[", SerializeItems(items), "]");
    case Object(members) =>
      MembersPrintable(members);
      BracketedPrintable("{", SerializeMembers(members), "}");
  }

  lemma {:induction false} ItemsPrintable(items: seq<Json>)
    ensures Printable(SerializeItems(items))
    decreases items, 0
  {
    if |items| == 1 {
      SerializedPrintable(items[0]);
    } else if items != [] {
      SerializedPrintable(items[0]);
      ItemsPrintable(items[1..]);
    }
  }

  lemma {:induction false} MembersPrintable(members: seq<Member>)
    ensures Printable(SerializeMembers(members))
    decreases members, 0
  {
    if members != [] {
      EscapePrintable(members[0].key);
      SerializedPrintable(members[0].value);
      assert Printable(SerializeMember(members[0]));
      if |members| > 1 {
        MembersPrintable(members[1..]);
      }
    }
  }

  // Single steps of the tokenizer, each proved on its own.

  lemma SkipWsNone(s: string)
    requires s == [] || !IsWs(s[0])
    ensures SkipWs(s) == s
  {
  }

  lemma ParseValueArray(body: string)
    requires body == [] || !IsWs(body[0])
    ensures ParseValue("[" + body) == ParseArray(body)
  {
    assert ("[" + body)[1..] == body;
  }

  lemma ParseValueObject(body: string)
    requires body == [] || !IsWs(body[0])
    ensures ParseValue("{" + body) == ParseObject(body)
  {
    assert ("{" + body)[1..] == body;
  }

  lemma ElementsLast(s: string, v: Json, after: string)
    requires ParseValue(s) == Some((v, "]" + after))
    ensures ParseElements(s) == Some(([v], after))
  {
    assert ("]" + after)[1..] == after;
  }

  lemma ElementsNext(s: string, v: Json, more: string, vs: seq<Json>, after: string)
    requires ParseValue(s) == Some((v, "," + more))
    requires more == [] || !IsWs(more[0])
    requires ParseElements(more) == Some((vs, after))
    ensures ParseElements(s) == Some(([v] + vs, after))
  {
    assert ("," + more)[1..] == more;
  }

  /** The steps of `ParseMembers` up to the value: the key, then `:`, then a value starting at once. */
  lemma MemberHead(s: string, key: string, t: string, v: Json, r3: string)
    requires s != [] && s[0] == '"' && ParseChars(s[1..]) == Some((key, ":" + t))
    requires t == [] || !IsWs(t[0])
    requires ParseValue(t) == Some((v, r3))
    requires r3 != [] && (r3[0] == '}' || r3[0] == ',')
    ensures r3[0] == '}' ==> ParseMembers(s) == Some(([Member(key, v)], r3[1..]))
    ensures r3[0] == ',' ==>
      ParseMembers(s) ==
        match ParseMembers(SkipWs(r3[1..]))
        case None => None
        case Some((ms, rest)) => Some(([Member(key, v)] + ms, rest))
  {
    var r1 := ":" + t;
    assert SkipWs(r1) == r1;
    assert r1[1..] == t;
    assert SkipWs(t) == t;
    assert SkipWs(r3) == r3;
  }

  lemma MembersLast(s: string, key: string, t: string, v: Json, after: string)
    requires s != [] && s[0] == '"' && ParseChars(s[1..]) == Some((key, ":" + t))
    requires t == [] || !IsWs(t[0])
    requires ParseValue(t) == Some((v, "}" + after))
    ensures ParseMembers(s) == Some(([Member(key, v)], after))
  {
    MemberHead(s, key, t, v, "}" + after);
    assert ("}" + after)[1..] == after;
  }

  lemma MembersNext(s: string, key: string, t: string, v: Json, more: string, ms: seq<Member>, after: string)
    requires s != [] && s[0] == '"' && ParseChars(s[1..]) == Some((key, ":" + t))
    requires t == [] || !IsWs(t[0])
    requires ParseValue(t) == Some((v, "," + more))
    requires more == [] || !IsWs(more[0])
    requires ParseMembers(more) == Some((ms, after))
    ensures ParseMembers(s) == Some(([Member(key, v)] + ms, after))
  {
    MemberHead(s, key, t, v, "," + more);
    assert ("," + more)[1..] == more;
    assert SkipWs(more) == more;
  }

  /** Parsing the serialised text of `v` gives back `v`, leaving what follows untouched. */
  lemma {:induction false} ParseSerialized(v: Json, rest: string)
    requires Delimited(rest)
    ensures ParseValue(Serialize(v) + rest) == Some((v, rest))
    decreases v, 1
  {
    var s := Serialize(v) + rest;
    match v
    case Null =>
      assert s[..4] == "null";
    case Bool(b) =>
      if b { assert s[..4] == "true"; } else { assert s[..5] == "false"; }
    case Number(n) =>
      ParseIntText(n, rest);
      SerializedEnds(v);
      assert s[0] == Serialize(v)[0];
      ParseValueNumber(s);
    case String(cs) =>
      ParseQuoted(cs, rest);
    case Array(items) =>
      ParseSerializedArray(items, rest);
    case Object(members) =>
      ParseSerializedObject(members, rest);
  }

  lemma {:induction false} ParseSerializedArray(items: seq<Json>, rest: string)
    requires Delimited(rest)
    ensures ParseValue(Serialize(Array(items)) + rest) == Some((Array(items), rest))
    decreases items, 1
  {
    var body := SerializeItems(items) + "]" + rest;
    assert Serialize(Array(items)) + rest == "[" + body;
    if items != [] {
      SerializedItemsStart(items);
      assert body[0] == SerializeItems(items)[0];
      ParseValueArray(body);
      ParseSerializedItems(items, rest);
    } else {
      assert body == "]" + rest;
      ParseValueArray(body);
      assert body[1..] == rest;
    }
  }

  lemma {:induction false} ParseSerializedObject(members: seq<Member>, rest: string)
    requires Delimited(rest)
    ensures ParseValue(Serialize(Object(members)) + rest) == Some((Object(members), rest))
    decreases members, 2
  {
    var body := SerializeMembers(members) + "}" + rest;
    assert Serialize(Object(members)) + rest == "{" + body;
    if members != [] {
      SerializedMembersStart(members);
      assert body[0] == SerializeMembers(members)[0];
      ParseValueObject(body);
      ParseSerializedMembers(members, rest);
    } else {
      assert body == "}" + rest;
      ParseValueObject(body);
      assert body[1..] == rest;
    }
  }

  /** Reassociation of a list's text: head, separator, tail, closer, what follows. */
  lemma Regroup(head: string, sep: string, tail: string, close: string, rest: string)
    ensures head + sep + tail + close + rest == head + (sep + (tail + close + rest))
  {
  }

  lemma ItemsSplit(items: seq<Json>, rest: string)
    requires items != []
    ensures |items| == 1 ==> SerializeItems(items) + "]" + rest == Serialize(items[0]) + ("]" + rest)
    ensures |items| > 1 ==>
      SerializeItems(items) + "]" + rest == Serialize(items[0]) + ("," + (SerializeItems(items[1..]) + "]" + rest))
  {
    if |items| > 1 {
      assert SerializeItems(items) == Serialize(items[0]) + "," + SerializeItems(items[1..]);
      Regroup(Serialize(items[0]), ",", SerializeItems(items[1..]), "]", rest);
    }
  }

  lemma MemberSplit(members: seq<Member>, rest: string)
    requires |members| == 1
    ensures SerializeMembers(members) + "}" + rest ==
      "\"" + (Escape(members[0].key) + "\"" + (":" + (Serialize(members[0].value) + ("}" + rest))))
  {
    assert SerializeMember(members[0]) == "\"" + Escape(members[0].key) + "\"" + ":" + Serialize(members[0].value);
    MemberRegroup(Escape(members[0].key), Serialize(members[0].value), "}" + rest);
  }

  lemma MembersSplit(members: seq<Member>, rest: string)
    requires |members| > 1
    ensures SerializeMembers(members) + "}" + rest ==
      "\"" + (Escape(members[0].key) + "\"" + (":" + (Serialize(members[0].value) + ("," + (SerializeMembers(members[1..]) + "}" + rest)))))
  {
    var k, v := Escape(members[0].key), Serialize(members[0].value);
    var after := "," + (SerializeMembers(members[1..]) + "}" + rest);
    assert SerializeMember(members[0]) == "\"" + k + "\"" + ":" + v;
    assert SerializeMembers(members) == SerializeMember(members[0]) + "," + SerializeMembers(members[1..]);
    Regroup(SerializeMember(members[0]), ",", SerializeMembers(members[1..]), "}", rest);
    MemberRegroup(k, v, after);
  }

  lemma MemberRegroup(k: string, v: string, after: string)
    ensures "\"" + k + "\"" + ":" + v + after == "\"" + (k + "\"" + (":" + (v + after)))
  {
  }

  lemma {:induction false} ParseSerializedItems(items: seq<Json>, rest: string)
    requires items != [] && Delimited(rest)
    ensures ParseElements(SerializeItems(items) + "]" + rest) == Some((items, rest))
    decreases items, 0
  {
    var head := Serialize(items[0]);
    ItemsSplit(items, rest);
    if |items| == 1 {
      ParseSerialized(items[0], "]" + rest);
      ElementsLast(head + ("]" + rest), items[0], rest);
      assert [items[0]] == items;
    } else {
      var more := SerializeItems(items[1..]) + "]" + rest;
      ParseSerialized(items[0], "," + more);
      SerializedItemsStart(items[1..]);
      assert more[0] == SerializeItems(items[1..])[0];
      ParseSerializedItems(items[1..], rest);
      ElementsNext(head + ("," + more), items[0], more, items[1..], rest);
      assert [items[0]] + items[1..] == items;
    }
  }

  /** The key of a member's text parses back, leaving `:` and the value's text. */
  lemma MemberKey(key: string, t: string)
    ensures var s := "\"" + (Escape(key) + "\"" + (":" + t));
      s[0] == '"' && ParseChars(s[1..]) == Some((key, ":" + t))
  {
    var s := "\"" + (Escape(key) + "\"" + (":" + t));
    assert s[1..] == Escape(key) + "\"" + (":" + t);
    ParseEscaped(key, ":" + t);
  }

  /** One member followed by `}`: the key, `:`, a value's text `vt` and what follows the object. */
  lemma MemberThenClose(whole: string, key: string, vt: string, v: Json, after: string)
    requires whole == "\"" + (Escape(key) + "\"" + (":" + (vt + ("}" + after))))
    requires vt != [] && Opening(vt[0])
    requires ParseValue(vt + ("}" + after)) == Some((v, "}" + after))
    ensures ParseMembers(whole) == Some(([Member(key, v)], after))
  {
    var t := vt + ("}" + after);
    assert t[0] == vt[0];
    MemberKey(key, t);
    MembersLast(whole, key, t, v, after);
  }

  /** One member followed by `,` and the text `more` of further members, `all` in all. */
  lemma MemberThenMore(whole: string, key: string, vt: string, v: Json, more: string, ms: seq<Member>, all: seq<Member>, after: string)
    requires whole == "\"" + (Escape(key) + "\"" + (":" + (vt + ("," + more))))
    requires vt != [] && Opening(vt[0])
    requires ParseValue(vt + ("," + more)) == Some((v, "," + more))
    requires more != [] && more[0] == '"'
    requires ParseMembers(more) == Some((ms, after))
    requires all == [Member(key, v)] + ms
    ensures ParseMembers(whole) == Some((all, after))
  {
    var t := vt + ("," + more);
    assert t[0] == vt[0];
    MemberKey(key, t);
    MembersNext(whole, key, t, v, more, ms, after);
  }

  lemma MembersSingle(members: seq<Member>, rest: string)
    requires |members| == 1 && Delimited(rest)
    ensures ParseMembers(SerializeMembers(members) + "}" + rest) == Some((members, rest))
    decreases members, 0
  {
    var m := members[0];
    var vt := Serialize(m.value);
    assert vt != [] && Opening(vt[0]) by { SerializedEnds(m.value); }
    assert ParseValue(vt + ("}" + rest)) == Some((m.value, "}" + rest)) by { ParseSerialized(m.value, "}" + rest); }
    assert SerializeMembers(members) + "}" + rest == "\"" + (Escape(m.key) + "\"" + (":" + (vt + ("}" + rest)))) by {
      MemberSplit(members, rest);
    }
    assert [Member(m.key, m.value)] == members;
    MemberThenClose(SerializeMembers(members) + "}" + rest, m.key, vt, m.value, rest);
  }

  lemma MembersCons(members: seq<Member>, rest: string)
    requires |members| > 1 && Delimited(rest)
    requires ParseMembers(SerializeMembers(members[1..]) + "}" + rest) == Some((members[1..], rest))
    ensures ParseMembers(SerializeMembers(members) + "}" + rest) == Some((members, rest))
    decreases members, 0
  {
    var m := members[0];
    var more := SerializeMembers(members[1..]) + "}" + rest;
    var vt := Serialize(m.value);
    assert vt != [] && Opening(vt[0]) by { SerializedEnds(m.value); }
    assert ParseValue(vt + ("," + more)) == Some((m.value, "," + more)) by { ParseSerialized(m.value, "," + more); }
    assert more != [] && more[0] == '"' by { SerializedMembersStart(members[1..]); }
    assert SerializeMembers(members) + "}" + rest == "\"" + (Escape(m.key) + "\"" + (":" + (vt + ("," + more)))) by {
      MembersSplit(members, rest);
    }
    assert [Member(m.key, m.value)] + members[1..] == members;
    MemberThenMore(SerializeMembers(members) + "}" + rest, m.key, vt, m.value, more, members[1..], members, rest);
  }

  lemma {:induction false} ParseSerializedMembers(members: seq<Member>, rest: string)
    requires members != [] && Delimited(rest)
    ensures ParseMembers(SerializeMembers(members) + "}" + rest) == Some((members, rest))
    decreases members, 1
  {
    if |members| == 1 {
      MembersSingle(members, rest);
    } else {
      ParseSerializedMembers(members[1..], rest);
      MembersCons(members, rest);
    }
  }

  /** `json.loads(json.dumps(v))` gives back `v`. */
  lemma ParseSerializeRoundTrip(v: Json)
    ensures Parse(Serialize(v)) == Some(v)
  {
    SerializedEnds(v);
    SkipWsNone(Serialize(v));
    ParseSerialized(v, []);
    assert Serialize(v) + [] == Serialize(v);
  }

  /** The same round trip through UTF-8 bytes, as the text travels over a socket. */
  lemma LoadsRoundTrip(v: Json)
    ensures Loads(Utf8.Encode(Serialize(v))) == Some(v)
  {
    Utf8.DecodeEncode(Serialize(v));
    ParseSerializeRoundTrip(v);
  }
}
