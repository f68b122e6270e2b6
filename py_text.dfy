/**
  Python's `str()` and `repr()` of decoded JSON values, which is what an
  f-string inserts for `{value}`.
 */
module PyText {
  import opened PyValues

  predicate IsDigits(s: string) {
    forall i :: 0 <= i < |s| ==> '0' <= s[i] <= '9'
  }

  function Digit(d: nat): char
    requires d < 10
  {
    ('0' as int + d) as char
  }

  /** `str(n)` for a natural number: decimal digits, no leading zero. */
  function NatToDecimal(n: nat): (s: string)
    ensures |s| >= 1 && IsDigits(s)
    ensures s[0] == '0' ==> n == 0
  {
    if n < 10 then [Digit(n)] else NatToDecimal(n / 10) + [Digit(n % 10)]
  }

  /** `str(n)` for an integer. */
  function IntToDecimal(n: int): string {
    if n < 0 then "-" + NatToDecimal(-n) else NatToDecimal(n)
  }

  /** The number a string of decimal digits denotes. */
  function DecimalValue(s: string): nat
    requires IsDigits(s)
  {
    if s == [] then 0 else 10 * DecimalValue(s[..|s| - 1]) + (s[|s| - 1] as int - '0' as int)
  }

  /** Reading back what `str(n)` printed gives `n`. */
  lemma {:induction false} DecimalRoundTrip(n: nat)
    ensures DecimalValue(NatToDecimal(n)) == n
  {
    var s := NatToDecimal(n);
    if n < 10 {
      assert s[..|s| - 1] == [];
    } else {
      DecimalRoundTrip(n / 10);
      assert s == NatToDecimal(n / 10) + [Digit(n % 10)];
      assert s[..|s| - 1] == NatToDecimal(n / 10);
    }
  }

  /** The quote `repr()` puts around a string: double quotes when the string holds a
      single quote and no double quote, single quotes otherwise. */
  function QuoteFor(s: string): char {
    if '\'' in s && '"' !in s then '"' else '\''
  }

  /** How `repr()` writes one character inside quotes `q`. Escapes of other
      non-printable characters are not modelled. */
  function EscapeChar(c: char, q: char): string {
    if c == '\\' then "\\\\"
    else if c == q then ['\\', q]
    else if c == '\n' then "\\n"
    else if c == '\r' then "\\r"
    else if c == '\t' then "\\t"
    else [c]
  }

  function Escape(s: string, q: char): string {
    if s == [] then [] else EscapeChar(s[0], q) + Escape(s[1..], q)
  }

  /** A string with no character that needs escaping is written as it is. */
  lemma {:induction false} EscapePlain(s: string, q: char)
    requires forall i :: 0 <= i < |s| ==> s[i] !in {'\\', q, '\n', '\r', '\t'}
    ensures Escape(s, q) == s
  {
    if s != [] {
      EscapePlain(s[1..], q);
    }
  }

  /** Reads back one escaped string body. */
  function Unescape(e: string): string {
    if e == [] then []
    else if e[0] == '\\' && |e| >= 2 then
      (if e[1] == 'n' then "\n" else if e[1] == 'r' then "\r" else if e[1] == 't' then "\t" else [e[1]])
        + Unescape(e[2..])
    else [e[0]] + Unescape(e[1..])
  }

  /** The escaping `repr()` applies can be undone: no two strings print alike. */
  lemma {:induction false} EscapeRoundTrip(s: string, q: char)
    requires q != '\\' && q != 'n' && q != 'r' && q != 't'
    ensures Unescape(Escape(s, q)) == s
  {
    if s != [] {
      EscapeRoundTrip(s[1..], q);
      UnescapeEscapedChar(s[0], q, Escape(s[1..], q));
      assert s == [s[0]] + s[1..];
    }
  }

  /** One escaped character reads back as itself, whatever follows it. */
  lemma UnescapeEscapedChar(c: char, q: char, rest: string)
    requires q != '\\' && q != 'n' && q != 'r' && q != 't'
    ensures Unescape(EscapeChar(c, q) + rest) == [c] + Unescape(rest)
  {
    var e := EscapeChar(c, q) + rest;
    if |EscapeChar(c, q)| == 2 {
      assert e[0] == '\\' && e[2..] == rest;
    } else {
      assert e[0] == c && e[1..] == rest;
    }
  }

  /** `repr(s)` for a string. */
  function ReprStr(s: string): (r: string)
    ensures |r| >= 2 && r[0] == r[|r| - 1] == QuoteFor(s)
    ensures Unescape(r[1..|r| - 1]) == s
  {
    var q := QuoteFor(s);
    EscapeRoundTrip(s, q);
    var r := [q] + Escape(s, q) + [q];
    assert r[1..|r| - 1] == Escape(s, q);
    r
  }

  /** A string without quotes, backslashes or control characters is written
      between single quotes, unchanged. */
  predicate Plain(s: string) {
    forall i :: 0 <= i < |s| ==> s[i] !in {'\\', '\'', '"', '\n', '\r', '\t'}
  }

  lemma ReprPlain(s: string)
    requires Plain(s)
    ensures ReprStr(s) == "'" + s + "'"
  {
    EscapePlain(s, '\'');
  }

  /** `", ".join(parts)` */
  function Join(parts: seq<string>): string {
    if parts == [] then "" else if |parts| == 1 then parts[0] else parts[0] + ", " + Join(parts[1..])
  }

  /** `str()` of None, a bool or an int. */
  function ScalarText(j: Json): string
    requires j.JNull? || j.JBool? || j.JInt?
  {
    match j
    case JNull => "None"
    case JBool(b) => if b then "True" else "False"
    case JInt(n) => IntToDecimal(n)
  }

  /** `repr(j)`: strings quoted, lists in brackets, dicts in braces in insertion order. */
  function Repr(j: Json): string {
    match j
    case JStr(s) => ReprStr(s)
    case JList(xs) => "[" + Join(seq(|xs|, i requires 0 <= i < |xs| => Repr(xs[i]))) + "]"
    case JObject(es) =>
      "{" + Join(seq(|es|, i requires 0 <= i < |es| => ReprStr(es[i].key) + ": " + Repr(es[i].val))) + "}"
    case _ => ScalarText(j)
  }

  /** `str(j)`: a string as it is, anything else as `repr()` writes it. */
  function Str(j: Json): string {
    match j
    case JStr(s) => s
    case _ => Repr(j)
  }
}
