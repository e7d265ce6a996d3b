/**
 * The two Python text renderings the pipeline relies on: `str()` of an `int`
 * (decimal, a leading `-` when negative) and `repr()` of a `str` (which is how
 * `str()` of a dict shows its string values), each with a reader that takes
 * the rendering back.
 */
module PyText {
  import opened Wrappers

  predicate IsDigit(c: char) {
    '0' <= c <= '9'
  }

  predicate AllDigits(s: string) {
    forall i :: 0 <= i < |s| ==> IsDigit(s[i])
  }

  function DigitChar(d: nat): (c: char)
    requires d < 10
    ensures IsDigit(c) && c as int - '0' as int == d
  {
    ('0' as int + d) as char
  }

  function DigitValue(c: char): (d: nat)
    requires IsDigit(c)
    ensures d < 10
  {
    c as int - '0' as int
  }

  /** `str(n)` for `n >= 0`: its decimal digits, most significant first, without leading zeros. */
  function NatStr(n: nat): (s: string)
    ensures |s| > 0 && AllDigits(s)
    ensures s[0] == '0' ==> n == 0
    decreases n
  {
    if n < 10 then [DigitChar(n)] else NatStr(n / 10) + [DigitChar(n % 10)]
  }

  /** `str(n)` for any Python `int`. */
  function IntStr(n: int): (s: string)
    ensures |s| > 0
    ensures s[0] == '-' <==> n < 0
  {
    if n < 0 then "-" + NatStr(-n) else NatStr(n)
  }

  /** The number a run of decimal digits denotes. */
  function DigitsValue(s: string): nat
    requires AllDigits(s)
  {
    if s == [] then 0 else DigitsValue(s[..|s| - 1]) * 10 + DigitValue(s[|s| - 1])
  }

  /** Length of the longest run of digits at the front of `s`. */
  function DigitRun(s: string): (k: nat)
    ensures k <= |s| && AllDigits(s[..k])
    ensures k < |s| ==> !IsDigit(s[k])
  {
    if s == [] || !IsDigit(s[0]) then 0
    else
      var k := 1 + DigitRun(s[1..]);
      assert s[..k] == [s[0]] + s[1..][..k - 1];
      k
  }

  /** Reads an optionally negative decimal integer from the front of `s`; returns it and what follows. */
  function ParseInt(s: string): Option<(int, string)> {
    if |s| > 0 && s[0] == '-' then
      var k := DigitRun(s[1..]);
      if k == 0 then None else Some((-(DigitsValue(s[1..][..k]) as int), s[1..][k..]))
    else
      var k := DigitRun(s);
      if k == 0 then None else Some((DigitsValue(s[..k]), s[k..]))
  }

  lemma {:induction false} NatStrValue(n: nat)
    ensures DigitsValue(NatStr(n)) == n
    decreases n
  {
    if n >= 10 {
      NatStrValue(n / 10);
      var s := NatStr(n);
      assert s[..|s| - 1] == NatStr(n / 10);
    }
  }

  lemma {:induction false} DigitRunStops(d: string, rest: string)
    requires AllDigits(d)
    requires rest == [] || !IsDigit(rest[0])
    ensures DigitRun(d + rest) == |d|
  {
    if d != [] {
      assert (d + rest)[1..] == d[1..] + rest;
      DigitRunStops(d[1..], rest);
    } else {
      assert d + rest == rest;
    }
  }

  /** Reading back `str(n)` gives `n`, and leaves whatever followed it, provided that does not start with a digit. */
  lemma IntStrRoundTrip(n: int, rest: string)
    requires rest == [] || !IsDigit(rest[0])
    ensures ParseInt(IntStr(n) + rest) == Some((n, rest))
  {
    var m: nat := if n < 0 then -n else n;
    var d := NatStr(m);
    NatStrValue(m);
    DigitRunStops(d, rest);
    assert (d + rest)[..|d|] == d && (d + rest)[|d|..] == rest;
    if n < 0 {
      var s := IntStr(n) + rest;
      assert s == "-" + (d + rest);
      assert s[1..] == d + rest;
    } else {
      assert IntStr(n) + rest == d + rest;
    }
  }

  /**
   * Python's `repr` of a string uses double quotes only when the text holds a
   * single quote and no double quote; so the delimiter it picks occurs in the
   * text only when both kinds of quote do, and then it is the single quote.
   */
  function QuoteFor(s: string): (q: char)
    ensures q == '\'' || q == '"'
    ensures q in s ==> q == '\'' && '"' in s
    ensures q == '"' ==> '\'' in s
  {
    if '\'' in s && '"' !in s then '"' else '\''
  }

  predicate IsQuote(q: char) {
    q == '\'' || q == '"'
  }

  /**
   * Characters `repr` writes as `\xhh`: the ASCII controls other than tab,
   * newline and carriage return, DEL, and the Latin-1 characters Python does not
   * count as printable (the C1 controls, no-break space and soft hyphen).
   */
  predicate IsHexEscaped(c: char) {
    c as int < 0x20 || 0x7f <= c as int <= 0xa0 || c as int == 0xad
  }

  function HexDigit(d: nat): (c: char)
    requires d < 16
    ensures HexValue(c) == Some(d)
  {
    "0123456789abcdef"[d]
  }

  /** The value of a hexadecimal digit, in either case, as Python's reader accepts it. */
  function HexValue(c: char): (r: Option<nat>)
    ensures r.Some? ==> r.value < 16
  {
    if '0' <= c <= '9' then Some(c as int - '0' as int)
    else if 'a' <= c <= 'f' then Some(c as int - 'a' as int + 10)
    else if 'A' <= c <= 'F' then Some(c as int - 'A' as int + 10)
    else None
  }

  /** How `repr` writes one character inside a literal delimited by `q`. */
  function EscapeChar(c: char, q: char): string {
    if c == q || c == '\\' then ['\\', c]
    else if c == '\t' then "\\t"
    else if c == '\n' then "\\n"
    else if c == '\r' then "\\r"
    else if IsHexEscaped(c) then ['\\', 'x', HexDigit(c as int / 16), HexDigit(c as int % 16)]
    else [c]
  }

  function EscapeAll(s: string, q: char): string {
    if s == [] then [] else EscapeChar(s[0], q) + EscapeAll(s[1..], q)
  }

  /** `repr(s)`: the text between matching quotes, with the quote, the backslash and the unprintable characters escaped. */
  function StrRepr(s: string): (r: string)
    ensures |r| >= 2 && r[0] == QuoteFor(s) && r[|r| - 1] == QuoteFor(s)
  {
    var q := QuoteFor(s);
    [q] + EscapeAll(s, q) + [q]
  }

  /** The character a one-letter escape such as `\n` or `\'` stands for. */
  function SimpleEscape(c: char): Option<char> {
    if c == '\\' || c == '\'' || c == '"' then Some(c)
    else if c == 't' then Some('\t')
    else if c == 'n' then Some('\n')
    else if c == 'r' then Some('\r')
    else None
  }

  function Prepend(c: char, r: Option<(string, string)>): Option<(string, string)> {
    match r
    case None => None
    case Some((body, rest)) => Some(([c] + body, rest))
  }

  /** Reads the body of a string literal delimited by `q` up to and including its closing quote. */
  function ParseBody(s: string, q: char): Option<(string, string)>
    decreases |s|
  {
    if s == [] then None
    else if s[0] == q then Some(([], s[1..]))
    else if s[0] != '\\' then Prepend(s[0], ParseBody(s[1..], q))
    else if |s| >= 2 && SimpleEscape(s[1]).Some? then Prepend(SimpleEscape(s[1]).value, ParseBody(s[2..], q))
    else if |s| >= 4 && s[1] == 'x' && HexValue(s[2]).Some? && HexValue(s[3]).Some? then
      Prepend((HexValue(s[2]).value * 16 + HexValue(s[3]).value) as char, ParseBody(s[4..], q))
    else None
  }

  /** Reads a quoted string literal from the front of `s`; returns the string and what follows the closing quote. */
  function ParseStrLit(s: string): Option<(string, string)> {
    if |s| > 0 && IsQuote(s[0]) then ParseBody(s[1..], s[0]) else None
  }

  lemma EscapeCharRead(c: char, q: char, t: string)
    requires IsQuote(q)
    ensures ParseBody(EscapeChar(c, q) + t, q) == Prepend(c, ParseBody(t, q))
  {
    var s := EscapeChar(c, q) + t;
    if c == q || c == '\\' {
      assert s[0] == '\\' && s[1] == c && s[2..] == t;
    } else if c == '\t' || c == '\n' || c == '\r' {
      assert s[0] == '\\' && s[2..] == t;
    } else if IsHexEscaped(c) {
      assert s[0] == '\\' && s[1] == 'x' && s[4..] == t;
      assert s[2] == HexDigit(c as int / 16) && s[3] == HexDigit(c as int % 16);
      assert (c as int / 16) * 16 + c as int % 16 == c as int;
    } else {
      assert s[0] == c && s[1..] == t;
    }
  }

  lemma {:induction false} EscapeAllRead(s: string, q: char, rest: string)
    requires IsQuote(q)
    ensures ParseBody(EscapeAll(s, q) + [q] + rest, q) == Some((s, rest))
    decreases |s|
  {
    if s == [] {
      assert EscapeAll(s, q) + [q] + rest == [q] + rest;
    } else {
      var t := EscapeAll(s[1..], q) + [q] + rest;
      assert EscapeAll(s, q) + [q] + rest == EscapeChar(s[0], q) + t;
      EscapeCharRead(s[0], q, t);
      EscapeAllRead(s[1..], q, rest);
      assert [s[0]] + s[1..] == s;
    }
  }

  /** Reading back `repr(s)` gives `s`, and leaves whatever followed the closing quote. */
  lemma StrReprRoundTrip(s: string, rest: string)
    ensures ParseStrLit(StrRepr(s) + rest) == Some((s, rest))
  {
    var q := QuoteFor(s);
    var r := StrRepr(s) + rest;
    assert r[0] == q;
    assert r[1..] == EscapeAll(s, q) + [q] + rest;
    EscapeAllRead(s, q, rest);
  }
}
