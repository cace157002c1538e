/**
 * The part of Go's `fmt` and `strconv` packages that printw relies on:
 * `%#v` of a value, `strconv.Quote` for strings, and `Sprintf`/`Fprintf`
 * interpreting a format string against a list of `interface{}` arguments.
 *
 * Only the shape of `doPrintf` that matters to printw is modelled: literal
 * text, the flags `#0+- `, the verbs `%%`, `%v`, `%#v` and `%s` on strings,
 * and the error forms `%!(NOVERB)`, `%!c(MISSING)`, `%!c(type=value)` and
 * `%!(EXTRA type=value, ...)`.
 */
module GoFmt {
  import opened Wrappers

  /** An `interface{}` value as the formatter sees it. `Other` stands for a
      value whose dynamic type is not `string`: its type name, its `%v`
      rendering and its `%#v` rendering. */
  datatype Value =
    | Str(s: string)
    | NilInterface
    | Other(typeName: string, text: string, goSyntax: string)

  // ---------------------------------------------------------------------
  // strconv.Quote and its inverse
  // ---------------------------------------------------------------------

  /** Lower-case hexadecimal digit for 0 <= k < 16. */
  function HexDigit(k: nat): char
    requires k < 16
  {
    if k < 10 then ('0' as int + k) as char else ('a' as int + k - 10) as char
  }

  function HexValue(d: char): (r: Option<nat>)
    ensures r.Some? ==> r.value < 16
  {
    if '0' <= d <= '9' then Some(d as int - '0' as int)
    else if 'a' <= d <= 'f' then Some(d as int - 'a' as int + 10)
    else if 'A' <= d <= 'F' then Some(d as int - 'A' as int + 10)
    else None
  }

  /** Characters that strconv.Quote copies unchanged (every character at or
      above U+0080 is taken to be printable). */
  predicate Verbatim(c: char) {
    c != '"' && c != '\\' && c as int >= 0x20 && c as int != 0x7f
  }

  /** strconv's escape of one character inside a double-quoted literal. */
  function EscapeChar(c: char): string {
    if c == '"' then "\\\""
    else if c == '\\' then "\\\\"
    else if c as int == 7 then "\\a"
    else if c as int == 8 then "\\b"
    else if c as int == 12 then "\\f"
    else if c == '\n' then "\\n"
    else if c == '\r' then "\\r"
    else if c == '\t' then "\\t"
    else if c as int == 11 then "\\v"
    else if c as int < 0x20 || c as int == 0x7f then
      "\\x" + [HexDigit(c as int / 16), HexDigit(c as int % 16)]
    else [c]
  }

  function Escape(s: string): string {
    if s == [] then [] else EscapeChar(s[0]) + Escape(s[1..])
  }

  /** strconv.Quote: what `%#v` prints for a string. */
  function Quote(s: string): string {
    "\"" + Escape(s) + "\""
  }

  /** The character a one-letter escape `\c` stands for. */
  function SimpleEscape(c: char): Option<char> {
    if c == 'a' then Some(7 as char)
    else if c == 'b' then Some(8 as char)
    else if c == 'f' then Some(12 as char)
    else if c == 'n' then Some('\n')
    else if c == 'r' then Some('\r')
    else if c == 't' then Some('\t')
    else if c == 'v' then Some(11 as char)
    else if c == '\\' then Some('\\')
    else if c == '"' then Some('"')
    else None
  }

  function Prepend(c: char, o: Option<string>): Option<string> {
    match o
    case Some(r) => Some([c] + r)
    case None => None
  }

  /** Decodes the body of a double-quoted literal written with the escapes
      that Quote produces; None on a stray quote or a malformed escape. */
  function Unescape(t: string): Option<string>
    decreases |t|
  {
    if t == [] then Some([])
    else if t[0] == '"' then None
    else if t[0] != '\\' then Prepend(t[0], Unescape(t[1..]))
    else if |t| < 2 then None
    else if t[1] == 'x' then
      if |t| < 4 then None
      else match (HexValue(t[2]), HexValue(t[3]))
        case (Some(hi), Some(lo)) => Prepend((hi * 16 + lo) as char, Unescape(t[4..]))
        case _ => None
    else match SimpleEscape(t[1])
      case Some(d) => Prepend(d, Unescape(t[2..]))
      case None => None
  }

  function Unquote(q: string): Option<string> {
    if |q| >= 2 && q[0] == '"' && q[|q| - 1] == '"' then Unescape(q[1..|q| - 1]) else None
  }

  lemma UnescapeEscapeChar(c: char, rest: string)
    ensures Unescape(EscapeChar(c) + rest) == Prepend(c, Unescape(rest))
  {
    var t := EscapeChar(c) + rest;
    if Verbatim(c) {
      assert t[1..] == rest;
    } else if (c as int < 0x20 && c !in "\n\r\t" && c as int !in {7, 8, 11, 12}) || c as int == 0x7f {
      var hi, lo := c as int / 16, c as int % 16;
      assert t[..4] == ['\\', 'x', HexDigit(hi), HexDigit(lo)];
      assert t[4..] == rest;
      assert HexValue(t[2]) == Some(hi) && HexValue(t[3]) == Some(lo);
      assert (hi * 16 + lo) as char == c;
    } else {
      assert t[2..] == rest;
    }
  }

  lemma {:induction false} UnescapeEscape(s: string)
    ensures Unescape(Escape(s)) == Some(s)
  {
    if s != [] {
      UnescapeEscapeChar(s[0], Escape(s[1..]));
      UnescapeEscape(s[1..]);
      assert [s[0]] + s[1..] == s;
    }
  }

  /** `%#v` of a string reads back as that string: the rendering is lossless. */
  lemma QuoteRoundTrip(s: string)
    ensures Unquote(Quote(s)) == Some(s)
  {
    var q := Quote(s);
    assert q[1..|q| - 1] == Escape(s);
    UnescapeEscape(s);
  }

  /** A string of verbatim characters is printed between double quotes as is. */
  lemma {:induction false} QuoteVerbatim(s: string)
    requires forall i :: 0 <= i < |s| ==> Verbatim(s[i])
    ensures Quote(s) == "\"" + s + "\""
    ensures Escape(s) == s
  {
    if s != [] {
      QuoteVerbatim(s[1..]);
      assert [s[0]] + s[1..] == s;
    }
  }

  /** Quoting never leaves a raw line break, so a quoted value stays on its line. */
  lemma {:induction false} QuoteHasNoNewline(s: string)
    ensures '\n' !in Quote(s)
    ensures '\n' !in Escape(s)
  {
    if s != [] {
      QuoteHasNoNewline(s[1..]);
      assert '\n' !in EscapeChar(s[0]);
    }
  }

  // ---------------------------------------------------------------------
  // Rendering one argument
  // ---------------------------------------------------------------------

  /** `%v` */
  function Text(v: Value): string {
    match v
    case Str(s) => s
    case NilInterface => "<nil>"
    case Other(_, text, _) => text
  }

  /** `%#v` */
  function GoSyntax(v: Value): string {
    match v
    case Str(s) => Quote(s)
    case NilInterface => "<nil>"
    case Other(_, _, goSyntax) => goSyntax
  }

  /** `%#v` of an element inside a `[]interface{}`. */
  function ElemGoSyntax(v: Value): string {
    if v.NilInterface? then "interface {}(nil)" else GoSyntax(v)
  }

  /** What the error forms show of an argument: `type=value`, or `<nil>`. */
  function TypeAndValue(v: Value): string {
    match v
    case Str(s) => "string=" + s
    case NilInterface => "<nil>"
    case Other(typeName, text, _) => typeName + "=" + text
  }

  /** The dynamic type a failed type assertion names. */
  function DynamicType(v: Value): string {
    match v
    case Str(_) => "string"
    case NilInterface => "nil"
    case Other(typeName, _, _) => typeName
  }

  function Join(sep: string, parts: seq<string>): string {
    if parts == [] then ""
    else if |parts| == 1 then parts[0]
    else parts[0] + sep + Join(sep, parts[1..])
  }

  /** A `[]interface{}` holding vs, as one argument. */
  function SliceOf(vs: seq<Value>): Value {
    Other("[]interface {}",
          "[" + Join(" ", seq(|vs|, i requires 0 <= i < |vs| => Text(vs[i]))) + "]",
          "[]interface {}{" + Join(", ", seq(|vs|, i requires 0 <= i < |vs| => ElemGoSyntax(vs[i]))) + "}")
  }

  /** One verb applied to one argument. `sharp` is the `#` flag. */
  function FormatVerb(sharp: bool, verb: char, v: Value): string {
    if verb == 'v' then (if sharp then GoSyntax(v) else Text(v))
    else if verb == 's' && v.Str? then v.s
    else "%!" + [verb] + "(" + TypeAndValue(v) + ")"
  }

  // ---------------------------------------------------------------------
  // Sprintf
  // ---------------------------------------------------------------------

  const Flags: string := "#0+- "

  /** Length of the run of flag characters that starts f. */
  function FlagCount(f: string): (k: nat)
    ensures k <= |f|
  {
    if f != [] && f[0] in Flags then 1 + FlagCount(f[1..]) else 0
  }

  /** Text produced so far, and the arguments no verb has consumed. */
  datatype Scanned = Scanned(out: string, unused: seq<Value>)

  function Lead(text: string, r: Scanned): Scanned {
    Scanned(text + r.out, r.unused)
  }

  /** Interprets format against args from left to right. */
  function Scan(format: string, args: seq<Value>): Scanned
    decreases |format|, 1
  {
    if format == [] then Scanned("", args)
    else if format[0] != '%' then Lead([format[0]], Scan(format[1..], args))
    else Directive(format[1..], args)
  }

  /** What follows a `%`: flags, then the verb. */
  function Directive(f: string, args: seq<Value>): Scanned
    decreases |f| + 1, 0
  {
    var k := FlagCount(f);
    var rest := f[k..];
    if rest == [] then Scanned("%!(NOVERB)", args)
    else if rest[0] == '%' then Lead("%", Scan(rest[1..], args))
    else if args == [] then Lead("%!" + [rest[0]] + "(MISSING)", Scan(rest[1..], args))
    else Lead(FormatVerb('#' in f[..k], rest[0], args[0]), Scan(rest[1..], args[1..]))
  }

  /** `fmt.Sprintf`, and what `fmt.Fprintf` writes. */
  function Sprintf(format: string, args: seq<Value>): string {
    var r := Scan(format, args);
    if r.unused == [] then r.out
    else r.out + "%!(EXTRA " + Join(", ", seq(|r.unused|, i requires 0 <= i < |r.unused| => TypeAndValue(r.unused[i]))) + ")"
  }

  /** Text without `%` is copied to the output and consumes no argument. */
  lemma {:induction false} ScanLiteral(lit: string, rest: string, args: seq<Value>)
    requires '%' !in lit
    ensures Scan(lit + rest, args) == Lead(lit, Scan(rest, args))
  {
    if lit != [] {
      assert (lit + rest)[0] == lit[0];
      assert (lit + rest)[1..] == lit[1..] + rest;
      ScanLiteral(lit[1..], rest, args);
      assert [lit[0]] + (lit[1..] + Scan(rest, args).out) == lit + Scan(rest, args).out;
    } else {
      assert lit + rest == rest;
      assert lit + Scan(rest, args).out == Scan(rest, args).out;
    }
  }

  /** `%#v` consumes exactly one argument and prints its Go syntax. */
  lemma ScanGoSyntaxVerb(rest: string, v: Value, args: seq<Value>)
    ensures Scan("%#v" + rest, [v] + args) == Lead(GoSyntax(v), Scan(rest, args))
  {
    var f := "%#v" + rest;
    assert f[0] == '%' && f[1..] == "#v" + rest;
    assert FlagCount(f[1..]) == 1 by {
      assert f[1..][1..] == "v" + rest;
    }
    assert f[1..][1..] == "v" + rest && f[1..][1..][1..] == rest;
    assert f[1..][..1] == "#";
    assert ([v] + args)[1..] == args;
  }

  /** `%#v` with no argument left prints `%!v(MISSING)`. */
  lemma ScanGoSyntaxMissing(rest: string)
    ensures Scan("%#v" + rest, []) == Lead("%!v(MISSING)", Scan(rest, []))
  {
    var f := "%#v" + rest;
    assert f[0] == '%' && f[1..] == "#v" + rest;
    assert Scan(f, []) == Directive(f[1..], []);
    assert FlagCount(f[1..]) == 1 by {
      assert f[1..][1..] == "v" + rest;
    }
    var r := f[1..][1..];
    assert r == "v" + rest && r[0] == 'v' && r[1..] == rest;
    assert "%!" + [r[0]] + "(MISSING)" == "%!v(MISSING)";
  }

  /** A verb with no flags takes the next argument. The character after `%`
      must not open a width, a precision or an argument index, which Go reads
      differently and this model does not. */
  lemma ScanVerb(verb: char, rest: string, v: Value, args: seq<Value>)
    requires verb !in Flags && verb != '%'
    requires !('1' <= verb <= '9') && verb !in ".*["
    ensures Scan(['%', verb] + rest, [v] + args) == Lead(FormatVerb(false, verb, v), Scan(rest, args))
  {
    var f := ['%', verb] + rest;
    assert f[0] == '%' && f[1..] == [verb] + rest;
    assert FlagCount(f[1..]) == 0;
    assert f[1..][0..] == f[1..] && f[1..][1..] == rest;
    assert f[1..][..0] == [];
    assert ([v] + args)[1..] == args;
  }

  /** Literal text, one `%#v`, literal text, then the rest of the format. */
  lemma ScanGoSyntaxBetween(prefix: string, suffix: string, more: string, v: Value, args: seq<Value>)
    requires '%' !in prefix && '%' !in suffix
    ensures Scan(prefix + "%#v" + suffix + more, [v] + args)
         == Lead(prefix + GoSyntax(v) + suffix, Scan(more, args))
  {
    var m := Scan(more, args);
    var f1 := suffix + more;
    var f2 := "%#v" + f1;
    assert prefix + "%#v" + suffix + more == prefix + f2;
    ScanLiteral(suffix, more, args);
    ScanGoSyntaxVerb(f1, v, args);
    ScanLiteral(prefix, f2, [v] + args);
    var g := GoSyntax(v);
    assert Scan(prefix + f2, [v] + args) == Scanned(prefix + (g + (suffix + m.out)), m.unused);
    assert prefix + (g + (suffix + m.out)) == prefix + g + suffix + m.out;
  }

  /** A format with a single `%#v` verb and literal text around it. */
  lemma SprintfOneGoSyntax(prefix: string, suffix: string, v: Value)
    requires '%' !in prefix && '%' !in suffix
    ensures Sprintf(prefix + "%#v" + suffix, [v]) == prefix + GoSyntax(v) + suffix
  {
    assert prefix + "%#v" + suffix == prefix + "%#v" + suffix + "";
    assert [v] == [v] + [];
    ScanGoSyntaxBetween(prefix, suffix, "", v, []);
    assert prefix + GoSyntax(v) + suffix + "" == prefix + GoSyntax(v) + suffix;
  }
}
