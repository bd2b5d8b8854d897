/**
 * Text rendering used when the producer builds a message: the decimal form
 * a template literal gives a non-negative integer below 10^21, such as the
 * lead time (from 10^21 up JavaScript switches to exponent form, which is
 * not modelled), and the string quoting
 * JSON.stringify applies to a string value (the QuoteJSONString operation of
 * ECMA-262). Each renderer comes with a reference decoder and a round-trip
 * lemma, so the rendered text is shown to determine the value it came from.
 */
module Text {
  import opened Wrappers

  // ---------------------------------------------------------------------
  // Decimal rendering of a natural number
  // ---------------------------------------------------------------------

  predicate IsDigit(c: char) {
    '0' <= c <= '9'
  }

  function DigitChar(d: nat): (c: char)
    requires d < 10
    ensures IsDigit(c) && c as int - '0' as int == d
  {
    ['0', '1', '2', '3', '4', '5', '6', '7', '8', '9'][d]
  }

  /** The decimal digits of n, most significant first, without leading zeros. */
  function DecimalString(n: nat): (s: string)
    ensures |s| > 0
    ensures forall i :: 0 <= i < |s| ==> IsDigit(s[i])
    ensures |s| > 1 ==> s[0] != '0'
  {
    if n < 10 then [DigitChar(n)] else DecimalString(n / 10) + [DigitChar(n % 10)]
  }

  /** Reads a non-empty string of decimal digits back into its value. */
  function ParseDecimal(s: string): Option<nat> {
    if |s| == 0 || !IsDigit(s[|s| - 1]) then None
    else
      var d := s[|s| - 1] as int - '0' as int;
      if |s| == 1 then Some(d)
      else match ParseDecimal(s[..|s| - 1])
        case None => None
        case Some(v) => Some(v * 10 + d)
  }

  lemma {:induction false} DecimalRoundTrip(n: nat)
    ensures ParseDecimal(DecimalString(n)) == Some(n)
  {
    if n >= 10 {
      var s := DecimalString(n);
      assert s[..|s| - 1] == DecimalString(n / 10);
      DecimalRoundTrip(n / 10);
    }
  }

  // ---------------------------------------------------------------------
  // JSON string quoting
  // ---------------------------------------------------------------------

  /** Lower-case hexadecimal digit, as QuoteJSONString writes it. */
  function HexDigit(d: nat): (c: char)
    requires d < 16
  {
    ['0', '1', '2', '3', '4', '5', '6', '7', '8', '9', 'a', 'b', 'c', 'd', 'e', 'f'][d]
  }

  predicate IsHex(c: char) {
    '0' <= c <= '9' || 'a' <= c <= 'f' || 'A' <= c <= 'F'
  }

  function HexValue(c: char): (v: nat)
    requires IsHex(c)
    ensures v < 16
  {
    if c <= '9' then c as int - '0' as int
    else if c <= 'F' then c as int - 'A' as int + 10
    else c as int - 'a' as int + 10
  }

  lemma HexDigitValue(d: nat)
    requires d < 16
    ensures IsHex(HexDigit(d)) && HexValue(HexDigit(d)) == d
  {
  }

  /**
   * The JSON text of one character: the two-character escapes for quote,
   * backslash, backspace, tab, line feed, form feed and carriage return,
   * \u00xx for the other control characters, the character itself otherwise.
   * Dafny characters are Unicode scalar values, so the lone-surrogate case of
   * QuoteJSONString cannot arise.
   */
  function EscapeChar(c: char): (e: string)
    ensures 1 <= |e| <= 6
  {
    if c == '"' then "\\\""
    else if c == '\\' then "\\\\"
    else if c as int == 8 then "\\b"
    else if c as int == 9 then "\\t"
    else if c as int == 10 then "\\n"
    else if c as int == 12 then "\\f"
    else if c as int == 13 then "\\r"
    else if c as int < 0x20 then ['\\', 'u', '0', '0', HexDigit(c as int / 16), HexDigit(c as int % 16)]
    else [c]
  }

  /** The body of a JSON string literal for s (without the enclosing quotes). */
  function Escape(s: string): string {
    if s == [] then [] else EscapeChar(s[0]) + Escape(s[1..])
  }

  /** JSON.stringify of a string value. */
  function Quote(s: string): string {
    "\"" + Escape(s) + "\""
  }

  /**
   * Decodes one character of a JSON string body at the front of s, giving the
   * character and the number of input characters it took. A closing quote,
   * an unknown escape, a raw control character or a \u escape naming a
   * surrogate give None.
   */
  function ParseChar(s: string): (r: Option<(char, nat)>)
    ensures r.Some? ==> 1 <= r.value.1 <= |s|
  {
    if |s| == 0 || s[0] == '"' then None
    else if s[0] == '\\' then
      if |s| < 2 then None
      else if s[1] == '"' then Some(('"', 2))
      else if s[1] == '\\' then Some(('\\', 2))
      else if s[1] == '/' then Some(('/', 2))
      else if s[1] == 'b' then Some((8 as char, 2))
      else if s[1] == 't' then Some((9 as char, 2))
      else if s[1] == 'n' then Some((10 as char, 2))
      else if s[1] == 'f' then Some((12 as char, 2))
      else if s[1] == 'r' then Some((13 as char, 2))
      else if s[1] == 'u' && |s| >= 6 && IsHex(s[2]) && IsHex(s[3]) && IsHex(s[4]) && IsHex(s[5]) then
        var v := HexValue(s[2]) * 4096 + HexValue(s[3]) * 256 + HexValue(s[4]) * 16 + HexValue(s[5]);
        if 0xD800 <= v < 0xE000 then None else Some((v as char, 6))
      else None
    else if s[0] as int < 0x20 then None
    else Some((s[0], 1))
  }

  /**
   * Decodes a JSON string body up to its closing quote: the decoded text and
   * what follows the closing quote.
   */
  function ParseChars(s: string): (r: Option<(string, string)>)
    ensures r.Some? ==> |r.value.1| < |s|
    decreases |s|
  {
    if |s| == 0 then None
    else if s[0] == '"' then Some(([], s[1..]))
    else match ParseChar(s)
      case None => None
      case Some((c, n)) =>
        match ParseChars(s[n..])
        case None => None
        case Some((d, rest)) => Some(([c] + d, rest))
  }

  lemma EscapeCharParses(c: char, t: string)
    ensures ParseChar(EscapeChar(c) + t) == Some((c, |EscapeChar(c)|))
  {
    var e := EscapeChar(c);
    if c != '"' && c != '\\' && c as int < 0x20 && c as int !in {8, 9, 10, 12, 13} {
      var hi, lo := c as int / 16, c as int % 16;
      HexDigitValue(hi);
      HexDigitValue(lo);
      var s := e + t;
      assert s[1] == 'u' && s[2] == '0' && s[3] == '0' && s[4] == HexDigit(hi) && s[5] == HexDigit(lo);
    }
  }

  /** Decoding the quoted form of x gives x back and leaves the text after it. */
  lemma {:induction false} EscapeRoundTrip(x: string, rest: string)
    ensures ParseChars(Escape(x) + "\"" + rest) == Some((x, rest))
  {
    var s := Escape(x) + "\"" + rest;
    if x == [] {
      assert s == "\"" + rest;
    } else {
      var e := EscapeChar(x[0]);
      var t := Escape(x[1..]) + "\"" + rest;
      assert s == e + t;
      assert s[0] == e[0];
      EscapeCharParses(x[0], t);
      assert s[|e|..] == t;
      EscapeRoundTrip(x[1..], rest);
      assert [x[0]] + x[1..] == x;
    }
  }

  /** Decodes a JSON string literal at the front of s: its text and what follows it. */
  function ParseQuoted(s: string): (r: Option<(string, string)>)
    ensures r.Some? ==> |r.value.1| < |s|
  {
    if |s| == 0 || s[0] != '"' then None else ParseChars(s[1..])
  }

  /** The quoted form of x, followed by anything, reads back as x. */
  lemma QuoteRoundTrip(x: string, rest: string)
    ensures ParseQuoted(Quote(x) + rest) == Some((x, rest))
  {
    assert (Quote(x) + rest)[1..] == Escape(x) + "\"" + rest;
    EscapeRoundTrip(x, rest);
  }

  /** What follows the prefix k in s, if s starts with k. */
  function StripPrefix(k: string, s: string): (r: Option<string>)
    ensures r.Some? ==> s == k + r.value
  {
    if |k| <= |s| && s[..|k|] == k then Some(s[|k|..]) else None
  }

  lemma StripPrefixOfConcat(k: string, t: string)
    ensures StripPrefix(k, k + t) == Some(t)
  {
    assert (k + t)[..|k|] == k && (k + t)[|k|..] == t;
  }
}
