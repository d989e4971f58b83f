/**
 * The Python values the bot handles: what `json` decodes an API reply into,
 * their truthiness, `str()` and `repr()`, and the exceptions the bot raises
 * together with the text `str(exception)` gives for them.
 */
module PyValue {
  import opened Wrappers
  import opened PyDict

  /**
   * A decoded JSON value. An object is the Python dict `json` builds for it,
   * entries in iteration order; a number is a Python `int`.
   */
  datatype Json =
    | JNull
    | JBool(b: bool)
    | JNum(n: int)
    | JStr(s: string)
    | JList(items: seq<Json>)
    | JObject(members: Dict<string, Json>)

  /** `bool(x)`: `None`, `False`, `0` and empty strings, lists and dicts are false. */
  predicate Truthy(x: Json) {
    match x
    case JNull => false
    case JBool(b) => b
    case JNum(n) => n != 0
    case JStr(s) => s != ""
    case JList(items) => items != []
    case JObject(members) => members != []
  }

  /** Whether `x` can be a dict key: lists and dicts cannot. */
  predicate Hashable(x: Json) {
    !x.JList? && !x.JObject?
  }

  /** `type(x).__name__` */
  function TypeName(x: Json): (r: string)
    ensures r != ""
  {
    match x
    case JNull => "NoneType"
    case JBool(_) => "bool"
    case JNum(_) => "int"
    case JStr(_) => "str"
    case JList(_) => "list"
    case JObject(_) => "dict"
  }

  /** The decimal digits of `n`, most significant first. */
  function NatToString(n: nat): (r: string)
    ensures r != [] && forall i :: 0 <= i < |r| ==> '0' <= r[i] <= '9'
    ensures |r| == 1 <==> n < 10
  {
    var d := "0123456789"[n % 10];
    if n < 10 then [d] else NatToString(n / 10) + [d]
  }

  /** `str(n)` for a Python `int`. */
  function IntToString(n: int): (r: string)
    ensures r != []
    ensures (r[0] == '-') <==> n < 0
  {
    if n < 0 then "-" + NatToString(-n) else NatToString(n)
  }

  /** `s` joined with `sep` between consecutive parts. */
  function Join(sep: string, parts: seq<string>): string {
    if parts == [] then ""
    else if |parts| == 1 then parts[0]
    else parts[0] + sep + Join(sep, parts[1..])
  }

  /** A lower-case hexadecimal digit. */
  function HexDigit(d: nat): (c: char)
    requires d < 16
    ensures HexValue(c) == d
  {
    if d < 10 then ('0' as int + d) as char else ('a' as int + d - 10) as char
  }

  /** The value of a hexadecimal digit as Python reads it in a `\x` escape. */
  function HexValue(c: char): int {
    if '0' <= c <= '9' then c as int - '0' as int
    else if 'a' <= c <= 'f' then c as int - 'a' as int + 10
    else if 'A' <= c <= 'F' then c as int - 'A' as int + 10
    else 0
  }

  /** How `repr` writes one character of a string quoted with `quote`. */
  function EscapeChar(c: char, quote: char): (r: string)
    ensures r != []
  {
    if c == quote || c == '\\' then ['\\', c]
    else if c == '\t' then "\\t"
    else if c == '\n' then "\\n"
    else if c == '\r' then "\\r"
    else if c < ' ' || c as int == 0x7f then
      var k := c as int;
      "\\x" + [HexDigit(k / 16), HexDigit(k % 16)]
    else [c]
  }

  /** The body of a string literal for `s` quoted with `quote`. */
  function Escape(s: string, quote: char): string {
    if s == [] then "" else EscapeChar(s[0], quote) + Escape(s[1..], quote)
  }

  /** Python picks double quotes only for a string with a `'` and no `"` in it. */
  function QuoteFor(s: string): (q: char)
    ensures q == '\'' || q == '"'
  {
    if '\'' in s && '"' !in s then '"' else '\''
  }

  /** `repr(s)` for a Python `str`. */
  function StrRepr(s: string): (r: string)
    ensures |r| >= |s| + 2
    ensures r[0] == r[|r| - 1] == QuoteFor(s)
  {
    var q := QuoteFor(s);
    EscapeLength(s, q);
    [q] + Escape(s, q) + [q]
  }

  /**
   * How Python reads the body of a string literal: `\\`, `\'`, `\"`, `\t`,
   * `\n`, `\r` and `\xHH` stand for one character each, every other character
   * for itself.
   */
  function Unescape(t: string): string
    decreases |t|
  {
    if t == [] then ""
    else if t[0] == '\\' && |t| >= 2 then
      var e := t[1];
      if e == 't' then "\t" + Unescape(t[2..])
      else if e == 'n' then "\n" + Unescape(t[2..])
      else if e == 'r' then "\r" + Unescape(t[2..])
      else if e == 'x' && |t| >= 4 then
        var k := 16 * HexValue(t[2]) + HexValue(t[3]);
        (if 0 <= k < 0x80 then [k as char] else []) + Unescape(t[4..])
      else [e] + Unescape(t[2..])
    else [t[0]] + Unescape(t[1..])
  }

  /** Reading back one escaped character, followed by anything, yields that character first. */
  lemma UnescapeChar(c: char, quote: char, rest: string)
    requires quote == '\'' || quote == '"'
    ensures Unescape(EscapeChar(c, quote) + rest) == [c] + Unescape(rest)
  {
    var t := EscapeChar(c, quote) + rest;
    if c == quote || c == '\\' {
      assert t[2..] == rest;
    } else if c == '\t' || c == '\n' || c == '\r' {
      assert t[2..] == rest;
    } else if c < ' ' || c as int == 0x7f {
      var k := c as int;
      assert t[..4] == "\\x" + [HexDigit(k / 16), HexDigit(k % 16)];
      assert t[4..] == rest;
      assert 16 * HexValue(t[2]) + HexValue(t[3]) == k;
    } else {
      assert t[1..] == rest;
    }
  }

  /** Escaping loses nothing: reading the literal body back gives the string. */
  lemma {:induction false} EscapeRoundTrip(s: string, quote: char)
    requires quote == '\'' || quote == '"'
    ensures Unescape(Escape(s, quote)) == s
  {
    if s != [] {
      EscapeRoundTrip(s[1..], quote);
      UnescapeChar(s[0], quote, Escape(s[1..], quote));
      assert s == [s[0]] + s[1..];
    }
  }

  /** `repr` of a string is a literal that reads back as the string. */
  lemma StrReprRoundTrip(s: string)
    ensures var r := StrRepr(s); Unescape(r[1..|r| - 1]) == s
  {
    var r := StrRepr(s);
    assert r[1..|r| - 1] == Escape(s, QuoteFor(s));
    EscapeRoundTrip(s, QuoteFor(s));
  }

  /** Escaping never shortens a string. */
  lemma {:induction false} EscapeLength(s: string, quote: char)
    ensures |Escape(s, quote)| >= |s|
  {
    if s != [] {
      EscapeLength(s[1..], quote);
    }
  }

  /** Characters `repr` copies unchanged into a single-quoted literal. */
  predicate PlainChar(c: char) {
    c != '\'' && c != '"' && c != '\\' && ' ' <= c && c as int != 0x7f
  }

  /** Every character of `s` is plain, checked one character at a time. */
  predicate AllPlain(s: string)
    ensures AllPlain(s) ==> forall i :: 0 <= i < |s| ==> PlainChar(s[i])
  {
    s == [] || (PlainChar(s[0]) && AllPlain(s[1..]))
  }

  /** A string of plain characters is shown by `repr` between single quotes, as is. */
  lemma {:induction false} PlainStrRepr(s: string)
    requires forall i :: 0 <= i < |s| ==> PlainChar(s[i])
    ensures StrRepr(s) == "'" + s + "'"
  {
    assert QuoteFor(s) == '\'';
    PlainEscape(s);
  }

  lemma {:induction false} PlainEscape(s: string)
    requires forall i :: 0 <= i < |s| ==> PlainChar(s[i])
    ensures Escape(s, '\'') == s
  {
    if s != [] {
      PlainEscape(s[1..]);
      assert s == [s[0]] + s[1..];
    }
  }

  /** `str(x)` and `repr(x)` of `None`, a `bool` or an `int`: the two agree. */
  function ScalarText(x: Json): (r: string)
    requires x.JNull? || x.JBool? || x.JNum?
    ensures r != []
  {
    match x
    case JNull => "None"
    case JBool(b) => if b then "True" else "False"
    case JNum(n) => IntToString(n)
  }

  /** `repr(x)` */
  function Repr(x: Json): string
    decreases x
  {
    match x
    case JStr(s) => StrRepr(s)
    case JList(items) =>
      "[" + Join(", ", seq(|items|, i requires 0 <= i < |items| => Repr(items[i]))) + "]"
    case JObject(members) =>
      "{" + Join(", ", seq(|members|, i requires 0 <= i < |members| =>
                 assert members[i] in members;
                 StrRepr(members[i].0) + ": " + Repr(members[i].1))) + "}"
    case _ => ScalarText(x)
  }

  /** `str(x)`, which is also what an f-string substitutes for `{x}`. */
  function Str(x: Json): (r: string)
    ensures x.JStr? && AllPlain(x.s) ==> Repr(x) == "'" + r + "'"
    ensures !x.JStr? ==> r == Repr(x)
  {
    match x
    case JStr(s) => if AllPlain(s) then PlainStrRepr(s); s else s
    case _ => Repr(x)
  }

  /** The exceptions the modelled code raises, with their arguments. */
  datatype PyError =
    | PlainException             // `raise Exception`
    | TypeError(msg: string)     // `raise TypeError` has the empty message
    | KeyError(key: Option<string>)
    | ValueError(msg: string)
    | AttributeError(msg: string)

  /**
   * `str(e)`. An exception raised bare gives the empty string; `KeyError`
   * shows the `repr` of its argument, the others their message as is.
   */
  function ErrorText(e: PyError): string {
    match e
    case PlainException => ""
    case TypeError(msg) => msg
    case KeyError(None) => ""
    case KeyError(Some(key)) => StrRepr(key)
    case ValueError(msg) => msg
    case AttributeError(msg) => msg
  }
}
