/**
 * How Python turns the values of a decoded JSON document into text: `str(v)`
 * (what an f-string replacement field prints) and `repr(v)` (what a list or a
 * dict prints for its elements). Integers print in decimal; a str prints
 * itself under `str` and quoted and escaped under `repr`.
 */
module PyText {
  import opened PyJson

  // ------------------------------------------------------------ repetition

  /** `"=" * 80`, the rule both reports print above and below their titles */
  const Rule: string := Repeat('=', 80)

  /** `c * n` for a one-character str */
  function Repeat(c: char, n: nat): (s: string)
    ensures |s| == n && forall i :: 0 <= i < n ==> s[i] == c
  {
    if n == 0 then "" else [c] + Repeat(c, n - 1)
  }

  // ---------------------------------------------------------------- integers

  predicate IsDigits(s: string) {
    forall i :: 0 <= i < |s| ==> '0' <= s[i] <= '9'
  }

  function DigitChar(d: nat): (c: char)
    requires d < 10
    ensures '0' <= c <= '9' && c as int - '0' as int == d
  {
    ('0' as int + d) as char
  }

  /** `str(n)` for n >= 0: decimal digits, without a leading zero */
  function NatToDecimal(n: nat): (s: string)
    ensures |s| >= 1 && IsDigits(s)
    ensures |s| > 1 ==> s[0] != '0'
  {
    if n < 10 then [DigitChar(n)] else NatToDecimal(n / 10) + [DigitChar(n % 10)]
  }

  /** The number a string of decimal digits denotes */
  function DecimalValue(s: string): nat
    requires IsDigits(s)
  {
    if s == [] then 0 else 10 * DecimalValue(s[..|s| - 1]) + (s[|s| - 1] as int - '0' as int)
  }

  /** The decimal text of n reads back as n */
  lemma {:induction false} DecimalRoundTrip(n: nat)
    ensures DecimalValue(NatToDecimal(n)) == n
  {
    if n >= 10 {
      var s := NatToDecimal(n);
      assert s[..|s| - 1] == NatToDecimal(n / 10);
      DecimalRoundTrip(n / 10);
    }
  }

  /** `str(n)` for any int: a minus sign before the digits of a negative number */
  function IntToDecimal(n: int): (s: string)
    ensures |s| >= 1
    ensures n < 0 <==> s[0] == '-'
    ensures IsDigits(if n < 0 then s[1..] else s)
  {
    if n < 0 then "-" + NatToDecimal(-n) else NatToDecimal(n)
  }

  /** `int(s)` for what `str` prints for an int */
  function IntValue(s: string): int
    requires |s| >= 1
    requires IsDigits(if s[0] == '-' then s[1..] else s)
  {
    if s[0] == '-' then 0 - DecimalValue(s[1..]) as int else DecimalValue(s)
  }

  /** Distinct ints print differently: `int(str(n)) == n` */
  lemma {:induction false} IntRoundTrip(n: int)
    ensures IntValue(IntToDecimal(n)) == n
  {
    if n < 0 {
      assert IntToDecimal(n)[1..] == NatToDecimal(-n);
      DecimalRoundTrip(-n);
    } else {
      DecimalRoundTrip(n);
    }
  }

  // ----------------------------------------------------------- repr of a str

  function HexDigit(d: nat): (c: char)
    requires d < 16
  {
    "0123456789abcdef"[d]
  }

  /** The value of a hexadecimal digit (0 for any other character) */
  function HexValue(c: char): (d: nat)
    ensures d < 16
  {
    if '0' <= c <= '9' then c as int - '0' as int
    else if 'a' <= c <= 'f' then c as int - 'a' as int + 10
    else 0
  }

  /** The quote `repr` puts around a str: `"` when the text holds a `'` and no `"`, `'` otherwise */
  function QuoteFor(s: string): (q: char)
    ensures q == '\'' || q == '"'
    ensures q == '"' ==> q !in s
  {
    if '\'' in s && '"' !in s then '"' else '\''
  }

  /** An ASCII control character, which `repr` writes as `\xhh` unless it has a short escape */
  predicate IsControl(c: char) {
    c < ' ' || c == '\U{7F}'
  }

  /** How `repr` writes one character of a str quoted with `q` */
  function EscapeChar(c: char, q: char): (t: string)
    ensures |t| >= 1
    ensures t[0] == '\\' || t == [c]
  {
    if c == q || c == '\\' then ['\\', c]
    else if c == '\t' then "\\t"
    else if c == '\n' then "\\n"
    else if c == '\r' then "\\r"
    else if IsControl(c) then ['\\', 'x', HexDigit(c as int / 16), HexDigit(c as int % 16)]
    else [c]
  }

  function Escape(s: string, q: char): string {
    if s == [] then "" else EscapeChar(s[0], q) + Escape(s[1..], q)
  }

  /** `repr(s)` for a str */
  function ReprStr(s: string): (t: string)
    ensures |t| >= 2 && t[0] == t[|t| - 1] == QuoteFor(s)
  {
    var q := QuoteFor(s);
    [q] + Escape(s, q) + [q]
  }

  /** Reads an escaped body back: the inverse of Escape */
  function Unescape(t: string): string {
    if t == [] then ""
    else if t[0] == '\\' && |t| >= 2 then
      var c := t[1];
      if c == 't' then "\t" + Unescape(t[2..])
      else if c == 'n' then "\n" + Unescape(t[2..])
      else if c == 'r' then "\r" + Unescape(t[2..])
      else if c == 'x' && |t| >= 4 then [(HexValue(t[2]) * 16 + HexValue(t[3])) as char] + Unescape(t[4..])
      else [c] + Unescape(t[2..])
    else [t[0]] + Unescape(t[1..])
  }

  lemma UnescapeChar(c: char, q: char, rest: string)
    requires q == '\'' || q == '"'
    ensures Unescape(EscapeChar(c, q) + rest) == [c] + Unescape(rest)
  {
    if IsControl(c) && !(c == q || c == '\\' || c == '\t' || c == '\n' || c == '\r') {
      UnescapeHex(c, rest);
    } else if c == q || c == '\\' || c == '\t' || c == '\n' || c == '\r' {
      var t := EscapeChar(c, q) + rest;
      assert t[2..] == rest;
    } else {
      var t := EscapeChar(c, q) + rest;
      assert t[1..] == rest;
    }
  }

  /** A control character written as `\xhh` reads back as itself */
  lemma UnescapeHex(c: char, rest: string)
    requires IsControl(c)
    ensures var hi, lo := c as int / 16, c as int % 16;
      Unescape(['\\', 'x', HexDigit(hi), HexDigit(lo)] + rest) == [c] + Unescape(rest)
  {
    var hi, lo := c as int / 16, c as int % 16;
    var t := ['\\', 'x', HexDigit(hi), HexDigit(lo)] + rest;
    HexRoundTrip(hi);
    HexRoundTrip(lo);
    assert t[4..] == rest;
  }

  /** HexValue reads back what HexDigit writes */
  lemma HexRoundTrip(d: nat)
    requires d < 16
    ensures HexValue(HexDigit(d)) == d
  {
  }

  /** `repr` loses nothing: the text between the quotes reads back as the original str */
  lemma {:induction false} ReprStrRoundTrip(s: string)
    ensures var t := ReprStr(s); Unescape(t[1..|t| - 1]) == s
  {
    var q := QuoteFor(s);
    assert ReprStr(s)[1..|ReprStr(s)| - 1] == Escape(s, q);
    EscapeRoundTrip(s, q);
  }

  lemma {:induction false} EscapeRoundTrip(s: string, q: char)
    requires q == '\'' || q == '"'
    ensures Unescape(Escape(s, q)) == s
  {
    if s != [] {
      UnescapeChar(s[0], q, Escape(s[1..], q));
      EscapeRoundTrip(s[1..], q);
    }
  }

  // ------------------------------------------------------------ str and repr

  /** `repr(v)`: how a value prints inside a list or a dict */
  function Repr(v: Json): string {
    match v
    case JNull => "None"
    case JBool(b) => if b then "True" else "False"
    case JNum(n) => IntToDecimal(n)
    case JStr(s) => ReprStr(s)
    case JArr(items) => "[" + ReprItems(items) + "]"
    case JObj(fields) => "{" + ReprFields(fields) + "}"
  }

  function ReprItems(items: seq<Json>): string {
    if items == [] then ""
    else Repr(items[0]) + (if |items| == 1 then "" else ", " + ReprItems(items[1..]))
  }

  function ReprFields(fields: seq<Field>): string {
    if fields == [] then ""
    else ReprStr(fields[0].key) + ": " + Repr(fields[0].value)
         + (if |fields| == 1 then "" else ", " + ReprFields(fields[1..]))
  }

  /** `str(v)`, what `f"{v}"` prints: a str is printed as it is, anything else as its repr */
  function Str(v: Json): string {
    if v.JStr? then v.s else Repr(v)
  }

  /** `list(d.keys())` as `print` shows it: `['id', 'date', ...]` */
  function KeyListing(ks: seq<string>): string {
    Repr(JArr(seq(|ks|, i requires 0 <= i < |ks| => JStr(ks[i]))))
  }
}
