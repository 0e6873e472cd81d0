/** JSON string escaping (section 7 of RFC 8259) as the Go encoder does it, HTML-safe
    escapes included, and the `{"input":"..."}` wrapper of free-text tool input. */
module JsonString {
  import opened Wrappers

  const INPUT_PREFIX := "{\"input\":\""
  const INPUT_SUFFIX := "\"}"

  function HexDigit(n: nat): char
    requires n < 16
  {
    "0123456789abcdef"[n]
  }

  function HexValue(c: char): Option<nat> {
    if '0' <= c <= '9' then Some(c as nat - '0' as nat)
    else if 'a' <= c <= 'f' then Some(c as nat - 'a' as nat + 10)
    else if 'A' <= c <= 'F' then Some(c as nat - 'A' as nat + 10)
    else None
  }

  /** Characters written as a four-digit escape. */
  predicate NeedsHex(c: char) {
    (c < ' ' && c != '\U{8}' && c != '\t' && c != '\n' && c != '\U{c}' && c != '\r')
    || c == '<' || c == '>' || c == '&' || c == '\U{2028}' || c == '\U{2029}'
  }

  function EscapeHex(c: char): string
    requires c as int < 0x10000
  {
    var n := c as nat;
    "\\u" + [HexDigit(n / 0x1000), HexDigit(n / 0x100 % 16), HexDigit(n / 16 % 16), HexDigit(n % 16)]
  }

  function EscapeChar(c: char): string {
    if c == '\"' then "\\\""
    else if c == '\\' then "\\\\"
    else if c == '\U{8}' then "\\b"
    else if c == '\U{c}' then "\\f"
    else if c == '\n' then "\\n"
    else if c == '\r' then "\\r"
    else if c == '\t' then "\\t"
    else if NeedsHex(c) then EscapeHex(c)
    else [c]
  }

  /** The body of the JSON string literal for `s`, without its quotes. */
  function Escape(s: string): string {
    if s == "" then "" else EscapeChar(s[0]) + Escape(s[1..])
  }

  function Prepend(c: char, rest: Option<string>): Option<string> {
    if rest.None? then None else Some([c] + rest.value)
  }

  function SimpleEscape(c: char): Option<char> {
    match c
    case '\"' => Some('\"')
    case '\\' => Some('\\')
    case '/' => Some('/')
    case 'b' => Some('\U{8}')
    case 'f' => Some('\U{c}')
    case 'n' => Some('\n')
    case 'r' => Some('\r')
    case 't' => Some('\t')
    case _ => None
  }

  /** The code point of four hexadecimal digits; surrogates have none of their own. */
  function FourDigits(a: char, b: char, c: char, d: char): Option<char> {
    var wa, wb, wc, wd := HexValue(a), HexValue(b), HexValue(c), HexValue(d);
    if wa.None? || wb.None? || wc.None? || wd.None? then None
    else
      var n := wa.value * 0x1000 + wb.value * 0x100 + wc.value * 16 + wd.value;
      if 0 <= n < 0xd800 || 0xe000 <= n < 0x10000 then Some(n as char) else None
  }

  /** Decodes the body of a string literal; `None` if it is not one. */
  function Unescape(s: string): Option<string> {
    if s == "" then Some("")
    else if s[0] == '\"' || s[0] < ' ' then None
    else if s[0] != '\\' then Prepend(s[0], Unescape(s[1..]))
    else if |s| < 2 then None
    else if s[1] == 'u' then
      if |s| < 6 || FourDigits(s[2], s[3], s[4], s[5]).None? then None
      else Prepend(FourDigits(s[2], s[3], s[4], s[5]).value, Unescape(s[6..]))
    else if SimpleEscape(s[1]).None? then None
    else Prepend(SimpleEscape(s[1]).value, Unescape(s[2..]))
  }

  /** The JSON object that carries free text as a function argument. */
  function WrapInput(s: string): string {
    INPUT_PREFIX + Escape(s) + INPUT_SUFFIX
  }

  function UnwrapInput(args: string): Option<string> {
    var m, n := |INPUT_PREFIX|, |INPUT_SUFFIX|;
    if |args| >= m + n && args[..m] == INPUT_PREFIX && args[|args| - n..] == INPUT_SUFFIX
    then Unescape(args[m..|args| - n])
    else None
  }

  /** Escaping a concatenation is concatenating the escapes: fragments of a string may be
      escaped one by one. */
  lemma {:induction false} EscapeConcat(a: string, b: string)
    ensures Escape(a + b) == Escape(a) + Escape(b)
  {
    hide EscapeChar;
    if a == "" {
      assert a + b == b;
    } else {
      EscapeConcat(a[1..], b);
      assert (a + b)[1..] == a[1..] + b;
      assert EscapeChar(a[0]) + (Escape(a[1..]) + Escape(b)) == EscapeChar(a[0]) + Escape(a[1..]) + Escape(b);
    }
  }

  lemma HexRoundTrip(c: char)
    requires NeedsHex(c)
    ensures
      var e := EscapeHex(c);
      |e| == 6 && e[0] == '\\' && e[1] == 'u' && FourDigits(e[2], e[3], e[4], e[5]) == Some(c)
  {
    hide HexDigit, HexValue;
    var n := c as nat;
    var a, b, x, d := n / 0x1000, n / 0x100 % 16, n / 16 % 16, n % 16;
    DigitsAddUp(n);
    DigitRoundTrip(a);
    DigitRoundTrip(b);
    DigitRoundTrip(x);
    DigitRoundTrip(d);
  }

  lemma DigitsAddUp(n: nat)
    requires n < 0x10000
    ensures n / 0x1000 < 16 && n == n / 0x1000 * 0x1000 + n / 0x100 % 16 * 0x100 + n / 16 % 16 * 16 + n % 16
  {
  }

  lemma DigitRoundTrip(n: nat)
    requires n < 16
    ensures HexValue(HexDigit(n)) == Some(n)
  {
    var digits := "0123456789abcdef";
    assert digits[0] == '0' && digits[1] == '1' && digits[2] == '2' && digits[3] == '3';
    assert digits[4] == '4' && digits[5] == '5' && digits[6] == '6' && digits[7] == '7';
    assert digits[8] == '8' && digits[9] == '9' && digits[10] == 'a' && digits[11] == 'b';
    assert digits[12] == 'c' && digits[13] == 'd' && digits[14] == 'e' && digits[15] == 'f';
  }

  lemma UnescapeChar(c: char, rest: string)
    ensures Unescape(EscapeChar(c) + rest) == Prepend(c, Unescape(rest))
  {
    var e := EscapeChar(c);
    var s := e + rest;
    assert s[|e|..] == rest;
    if |e| == 6 {
      HexRoundTrip(c);
      assert s[0] == '\\' && s[1] == 'u' && s[2] == e[2] && s[3] == e[3] && s[4] == e[4] && s[5] == e[5];
    }
  }

  lemma {:induction false} EscapeRoundTrip(s: string)
    ensures Unescape(Escape(s)) == Some(s)
  {
    if s != "" {
      EscapeRoundTrip(s[1..]);
      UnescapeChar(s[0], Escape(s[1..]));
      assert [s[0]] + s[1..] == s;
    }
  }

  lemma HexIsPlain(c: char)
    requires NeedsHex(c)
    ensures |EscapeHex(c)| == 6
    ensures forall i :: 0 <= i < 6 ==>
              var x := EscapeHex(c)[i];
              x == '\\' || 'a' <= x <= 'z' || '0' <= x <= '9'
  {
    var n := c as nat;
    PlainDigit(n / 0x1000);
    PlainDigit(n / 0x100 % 16);
    PlainDigit(n / 16 % 16);
    PlainDigit(n % 16);
  }

  lemma PlainDigit(n: nat)
    requires n < 16
    ensures 'a' <= HexDigit(n) <= 'f' || '0' <= HexDigit(n) <= '9'
  {
  }

  /** The text can stand in a string literal of a page: it has no control characters and no
      angle brackets, and a quote only behind a backslash. */
  predicate Safe(e: string) {
    && (forall i :: 0 <= i < |e| ==> e[i] >= ' ' && e[i] != '<' && e[i] != '>' && e[i] != '&')
    && (forall i :: 0 <= i < |e| && e[i] == '\"' ==> i > 0 && e[i - 1] == '\\')
  }

  lemma CharIsSafe(c: char)
    ensures Safe(EscapeChar(c))
  {
    if NeedsHex(c) {
      HexIsPlain(c);
    }
  }

  lemma SafeConcat(a: string, b: string)
    requires Safe(a) && Safe(b)
    ensures Safe(a + b)
  {
  }

  lemma {:induction false} EscapeIsSafe(s: string)
    ensures Safe(Escape(s))
  {
    if s != "" {
      hide Safe, EscapeChar;
      EscapeIsSafe(s[1..]);
      CharIsSafe(s[0]);
      SafeConcat(EscapeChar(s[0]), Escape(s[1..]));
    } else {
      assert Safe("");
    }
  }

  lemma WrapRoundTrip(s: string)
    ensures UnwrapInput(WrapInput(s)) == Some(s)
  {
    EscapeRoundTrip(s);
    var w, m, n := WrapInput(s), |INPUT_PREFIX|, |INPUT_SUFFIX|;
    assert w[..m] == INPUT_PREFIX && w[|w| - n..] == INPUT_SUFFIX;
    assert w[m..|w| - n] == Escape(s);
  }

  /** Distinct texts have distinct wrappers. */
  lemma WrapInjective(a: string, b: string)
    requires WrapInput(a) == WrapInput(b)
    ensures a == b
  {
    WrapRoundTrip(a);
    WrapRoundTrip(b);
  }
}
