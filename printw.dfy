/**
 * printw (logos.go:14-38): renders a level label, a message and a flat
 * key/value list into one human-readable block. Go's `...interface{}`
 * list is a `seq<Value>`; keys sit at even positions, values at odd ones.
 *
 * The source does not substitute the values itself: it splices the label,
 * the message and the decorated keys into a `fmt` format string and lets
 * `Fprintf` fill one `%#v` per value. Block models exactly that; Layout is
 * the block the format string is meant to produce, and BlockLayout says
 * when the two agree (no `%` in the spliced text).
 */
module Printw {
  import opened Wrappers
  import opened GoFmt
  import opened Colors

  /** Why printw panics, with the panic value as Go prints it. `index` is
      the position of the offending key in the key/value list. */
  datatype Panic =
    | OddLength(message: string)
    | KeyNotString(index: nat, message: string)
    | NilWrite(message: string)

  /** What `Fprintf` on a nil `io.Writer` panics with. */
  const NilDereference: string := "runtime error: invalid memory address or nil pointer dereference"

  /** The i-th key and the i-th value of a key/value list. */
  function Key(kvs: seq<Value>, i: nat): Value
    requires i < |kvs| / 2
  {
    kvs[2 * i]
  }

  function Val(kvs: seq<Value>, i: nat): Value
    requires i < |kvs| / 2
  {
    kvs[2 * i + 1]
  }

  predicate KeysAreStrings(kvs: seq<Value>) {
    forall i :: 0 <= i < |kvs| / 2 ==> Key(kvs, i).Str?
  }

  /** The first pair, at or after `from`, whose key is not a string: the
      pair at which the source's `.(string)` assertion panics. */
  function FirstNonStringKey(kvs: seq<Value>, from: nat): (r: Option<nat>)
    requires from <= |kvs| / 2
    ensures r.Some? ==> from <= r.value < |kvs| / 2 && !Key(kvs, r.value).Str?
    ensures r.Some? ==> forall j :: from <= j < r.value ==> Key(kvs, j).Str?
    ensures r.None? <==> forall j :: from <= j < |kvs| / 2 ==> Key(kvs, j).Str?
    decreases |kvs| / 2 - from
  {
    if from == |kvs| / 2 then None
    else if !Key(kvs, from).Str? then Some(from)
    else FirstNonStringKey(kvs, from + 1)
  }

  /** `fmt.Sprintf("len() not even - keysAndValues: %#v\n", keysAndValues)` */
  function OddLengthMessage(kvs: seq<Value>): string {
    Sprintf("len() not even - keysAndValues: %#v\n", [SliceOf(kvs)])
  }

  /** The runtime error of `v.(string)` on an `interface{}` holding v. */
  function KeyNotStringMessage(v: Value): string {
    "interface conversion: interface {} is " + DynamicType(v) + ", not string"
  }

  /** `keys`: every key made bold by the colour capability, in order. */
  function DecoratedKeys(color: Color, kvs: seq<Value>): (keys: seq<string>)
    requires KeysAreStrings(kvs)
  {
    seq(|kvs| / 2, i requires 0 <= i < |kvs| / 2 => color.add([Bold], Key(kvs, i).s))
  }

  /** `values`: the entries at odd positions, in order. */
  function Values(kvs: seq<Value>): (values: seq<Value>) {
    seq(|kvs| / 2, i requires 0 <= i < |kvs| / 2 => Val(kvs, i))
  }

  /** The format-string line for one key. */
  function KeyLine(key: string): string {
    "  " + key + ": %#v\n"
  }

  function KeyLines(keys: seq<string>): string {
    if keys == [] then "" else KeyLine(keys[0]) + KeyLines(keys[1..])
  }

  /** `fmtStr` as the source builds it, from the header `coloredLevel + ": " + msg`. */
  function FormatString(header: string, keys: seq<string>): string {
    header + "\n" + KeyLines(keys) + "\n"
  }

  /** What printw writes, or why it panics. */
  function Block(color: Color, coloredLevel: string, msg: string, kvs: seq<Value>): Result<string, Panic> {
    if |kvs| % 2 != 0 then Failure(OddLength(OddLengthMessage(kvs)))
    else match FirstNonStringKey(kvs, 0)
      case Some(i) => Failure(KeyNotString(2 * i, KeyNotStringMessage(Key(kvs, i))))
      case None => Success(Sprintf(FormatString(coloredLevel + ": " + msg, DecoratedKeys(color, kvs)), Values(kvs)))
  }

  // ---------------------------------------------------------------------
  // The documented layout
  // ---------------------------------------------------------------------

  function PairLine(key: string, value: Value): string {
    "  " + key + ": " + GoSyntax(value) + "\n"
  }

  function PairLines(keys: seq<string>, values: seq<Value>): string
    requires |keys| == |values|
  {
    if keys == [] then "" else PairLine(keys[0], values[0]) + PairLines(keys[1..], values[1..])
  }

  /** A header line, one `  key: value` line per pair, then a blank line. */
  function Layout(header: string, keys: seq<string>, values: seq<Value>): string
    requires |keys| == |values|
  {
    header + "\n" + PairLines(keys, values) + "\n"
  }

  // ---------------------------------------------------------------------
  // printw's loops
  // ---------------------------------------------------------------------

  lemma {:induction false} KeyLinesSnoc(keys: seq<string>, key: string)
    ensures KeyLines(keys + [key]) == KeyLines(keys) + KeyLine(key)
  {
    if keys == [] {
      assert keys + [key] == [key];
      assert [key][1..] == [];
    } else {
      assert (keys + [key])[0] == keys[0];
      assert (keys + [key])[1..] == keys[1..] + [key];
      KeyLinesSnoc(keys[1..], key);
    }
  }

  lemma FirstNonStringKeyAt(kvs: seq<Value>, i: nat)
    requires i < |kvs| / 2 && !Key(kvs, i).Str?
    requires forall j :: 0 <= j < i ==> Key(kvs, j).Str?
    ensures FirstNonStringKey(kvs, 0) == Some(i)
  {
  }

  /** printw's second loop: the header line, one `  key: %#v` line per key,
      and the closing blank line. */
  method BuildFormatString(header: string, keys: array<string>) returns (fmtStr: string)
    ensures fmtStr == FormatString(header, keys[..])
  {
    fmtStr := header + "\n";
    var i := 0;
    while i < keys.Length
      invariant 0 <= i <= keys.Length
      invariant fmtStr == header + "\n" + KeyLines(keys[..i])
    {
      KeyLinesSnoc(keys[..i], keys[i]);
      assert keys[..i + 1] == keys[..i] + [keys[i]];
      fmtStr := fmtStr + KeyLine(keys[i]);
      i := i + 1;
    }
    assert keys[..i] == keys[..];
    fmtStr := fmtStr + "\n";
  }

  /** printw up to, but not including, the write: the odd-length check, the
      loop that splits and decorates the keys and collects the values (and
      panics at the first key that is not a string), the loop that grows the
      format string, and the formatting of the values into it. */
  method FormatBlock(color: Color, coloredLevel: string, msg: string, kvs: seq<Value>)
    returns (r: Result<string, Panic>)
    ensures r == Block(color, coloredLevel, msg, kvs)
  {
    var length := |kvs|;
    if length % 2 != 0 {
      return Failure(OddLength(OddLengthMessage(kvs)));
    }
    var header := coloredLevel + ": " + msg;
    var n := length / 2;
    var keys := new string[n];
    var values := new Value[n];
    var i := 0;
    while i < n
      invariant 0 <= i <= n
      invariant forall j :: 0 <= j < i ==> Key(kvs, j).Str?
      invariant forall j :: 0 <= j < i ==> keys[j] == color.add([Bold], Key(kvs, j).s)
      invariant forall j :: 0 <= j < i ==> values[j] == Val(kvs, j)
    {
      var key := kvs[2 * i];
      if !key.Str? {
        FirstNonStringKeyAt(kvs, i);
        return Failure(KeyNotString(2 * i, KeyNotStringMessage(key)));
      }
      keys[i] := color.add([Bold], key.s);
      values[i] := kvs[2 * i + 1];
      i := i + 1;
    }
    assert keys[..] == DecoratedKeys(color, kvs);
    assert values[..] == Values(kvs);

    var fmtStr := BuildFormatString(header, keys);
    assert FirstNonStringKey(kvs, 0) == None;
    r := Success(Sprintf(fmtStr, values[..]));
  }

  // ---------------------------------------------------------------------
  // Properties of the rendered block
  // ---------------------------------------------------------------------

  /** Failure exactly when the list has odd length or a key is not a
      string; the odd length is reported first, and otherwise the first
      non-string key is named by its position. */
  lemma BlockFails(color: Color, coloredLevel: string, msg: string, kvs: seq<Value>)
    ensures Block(color, coloredLevel, msg, kvs).Failure? <==> |kvs| % 2 != 0 || !KeysAreStrings(kvs)
    ensures |kvs| % 2 != 0 ==> Block(color, coloredLevel, msg, kvs).error.OddLength?
    ensures forall i :: 0 <= i < |kvs| / 2 && |kvs| % 2 == 0 && !Key(kvs, i).Str? &&
                        (forall j :: 0 <= j < i ==> Key(kvs, j).Str?) ==>
              Block(color, coloredLevel, msg, kvs) == Failure(KeyNotString(2 * i, KeyNotStringMessage(Key(kvs, i))))
  {
  }

  /** The odd-length panic value shows the whole list in Go syntax. */
  lemma OddLengthMessageShowsList(kvs: seq<Value>)
    ensures OddLengthMessage(kvs) == "len() not even - keysAndValues: " + SliceOf(kvs).goSyntax + "\n"
  {
    SprintfOneGoSyntax("len() not even - keysAndValues: ", "\n", SliceOf(kvs));
    assert "len() not even - keysAndValues: %#v\n" == "len() not even - keysAndValues: " + "%#v" + "\n";
  }

  lemma {:induction false} ScanKeyLines(keys: seq<string>, values: seq<Value>, tail: string, rest: seq<Value>)
    requires |keys| == |values|
    requires forall i :: 0 <= i < |keys| ==> '%' !in keys[i]
    ensures Scan(KeyLines(keys) + tail, values + rest) == Lead(PairLines(keys, values), Scan(tail, rest))
  {
    var t := Scan(tail, rest);
    if keys == [] {
      assert KeyLines(keys) + tail == tail;
      assert values + rest == rest;
      assert PairLines(keys, values) + t.out == t.out;
    } else {
      var k, v := keys[0], values[0];
      var ks, vs := keys[1..], values[1..];
      var more := KeyLines(ks) + tail;
      assert KeyLines(keys) + tail == "  " + k + ": " + "%#v" + "\n" + more;
      assert values + rest == [v] + (vs + rest);
      assert '%' !in "  " + k + ": " by { assert '%' !in k; }
      ScanGoSyntaxBetween("  " + k + ": ", "\n", more, v, vs + rest);
      ScanKeyLines(ks, vs, tail, rest);
      assert PairLine(k, v) + (PairLines(ks, vs) + t.out) == PairLines(keys, values) + t.out;
    }
  }

  /** With no `%` in the label, the message or the decorated keys, printw
      writes the documented layout: the header `label: msg`, then
      `  key: %#v-of-value` for every pair in the order given, then a blank
      line. */
  lemma BlockLayout(color: Color, coloredLevel: string, msg: string, kvs: seq<Value>)
    requires |kvs| % 2 == 0 && KeysAreStrings(kvs)
    requires '%' !in coloredLevel && '%' !in msg
    requires forall i :: 0 <= i < |kvs| / 2 ==> '%' !in DecoratedKeys(color, kvs)[i]
    ensures Block(color, coloredLevel, msg, kvs)
         == Success(Layout(coloredLevel + ": " + msg, DecoratedKeys(color, kvs), Values(kvs)))
  {
    var header := coloredLevel + ": " + msg;
    var keys, values := DecoratedKeys(color, kvs), Values(kvs);
    assert '%' !in header + "\n";
    assert FormatString(header, keys) == (header + "\n") + (KeyLines(keys) + "\n");
    ScanLiteral(header + "\n", KeyLines(keys) + "\n", values);
    assert values + [] == values;
    ScanKeyLines(keys, values, "\n", []);
    ScanLiteral("\n", "", []);
    assert "\n" + "" == "\n";
    assert Scan("", []) == Scanned("", []);
    var r := Scan(FormatString(header, keys), values);
    assert r == Scanned((header + "\n") + (PairLines(keys, values) + "\n"), []);
    assert Sprintf(FormatString(header, keys), values) == Layout(header, keys, values);
    assert FirstNonStringKey(kvs, 0) == None;
  }

  /** Occurrences of c in s. */
  function Count(s: string, c: char): nat {
    if s == [] then 0 else (if s[0] == c then 1 else 0) + Count(s[1..], c)
  }

  lemma {:induction false} CountConcat(a: string, b: string, c: char)
    ensures Count(a + b, c) == Count(a, c) + Count(b, c)
  {
    if a == [] {
      assert a + b == b;
    } else {
      assert (a + b)[1..] == a[1..] + b;
      CountConcat(a[1..], b, c);
    }
  }

  lemma {:induction false} CountAbsent(s: string, c: char)
    requires c !in s
    ensures Count(s, c) == 0
  {
    if s != [] {
      CountAbsent(s[1..], c);
    }
  }

  lemma {:induction false} PairLinesCount(keys: seq<string>, values: seq<Value>)
    requires |keys| == |values|
    requires forall i :: 0 <= i < |keys| ==> '\n' !in keys[i] && '\n' !in GoSyntax(values[i])
    ensures Count(PairLines(keys, values), '\n') == |keys|
  {
    if keys != [] {
      var k, v := keys[0], values[0];
      CountConcat("  " + k + ": " + GoSyntax(v), "\n", '\n');
      CountConcat("  " + k + ": ", GoSyntax(v), '\n');
      CountConcat("  ", k, '\n');
      CountConcat("  " + k, ": ", '\n');
      CountAbsent(k, '\n');
      CountAbsent(GoSyntax(v), '\n');
      CountConcat(PairLine(k, v), PairLines(keys[1..], values[1..]), '\n');
      PairLinesCount(keys[1..], values[1..]);
    }
  }

  /** The layout has one line for the header, one per pair and one blank
      line: exactly pairs + 2 line breaks, the last two adjacent. */
  lemma LayoutLineCount(header: string, keys: seq<string>, values: seq<Value>)
    requires |keys| == |values|
    requires '\n' !in header
    requires forall i :: 0 <= i < |keys| ==> '\n' !in keys[i] && '\n' !in GoSyntax(values[i])
    ensures Count(Layout(header, keys, values), '\n') == |keys| + 2
    ensures var b := Layout(header, keys, values); |b| >= 2 && b[|b| - 2..] == "\n\n"
  {
    var p := PairLines(keys, values);
    PairLinesCount(keys, values);
    CountAbsent(header, '\n');
    CountConcat(header, "\n", '\n');
    CountConcat(header + "\n", p, '\n');
    CountConcat(header + "\n" + p, "\n", '\n');
    var b := Layout(header, keys, values);
    assert b[|b| - 1] == '\n';
    assert b[|b| - 2] == '\n' by {
      if p == [] {
        assert b == header + "\n" + "\n";
      } else {
        assert p == PairLine(keys[0], values[0]) + PairLines(keys[1..], values[1..]);
        PairLinesEndsWithNewline(keys, values);
      }
    }
  }

  /** When printw writes the documented layout, the block it writes has
      one line per pair plus the header and the blank line. */
  lemma BlockLineCount(color: Color, coloredLevel: string, msg: string, kvs: seq<Value>)
    requires |kvs| % 2 == 0 && KeysAreStrings(kvs)
    requires '%' !in coloredLevel && '%' !in msg && '\n' !in coloredLevel && '\n' !in msg
    requires forall i :: 0 <= i < |kvs| / 2 ==>
               '%' !in DecoratedKeys(color, kvs)[i] && '\n' !in DecoratedKeys(color, kvs)[i]
    requires forall i :: 0 <= i < |kvs| / 2 && Val(kvs, i).Other? ==> '\n' !in Val(kvs, i).goSyntax
    ensures Block(color, coloredLevel, msg, kvs).Success?
    ensures Count(Block(color, coloredLevel, msg, kvs).value, '\n') == |kvs| / 2 + 2
  {
    BlockLayout(color, coloredLevel, msg, kvs);
    var values := Values(kvs);
    forall i | 0 <= i < |values|
      ensures '\n' !in GoSyntax(values[i])
    {
      if values[i].Str? {
        QuoteHasNoNewline(values[i].s);
      }
    }
    LayoutLineCount(coloredLevel + ": " + msg, DecoratedKeys(color, kvs), values);
  }

  lemma PairLinesEndsWithNewline(keys: seq<string>, values: seq<Value>)
    requires |keys| == |values| && keys != []
    ensures var p := PairLines(keys, values); |p| > 0 && p[|p| - 1] == '\n'
  {
    if |keys| > 1 {
      PairLinesEndsWithNewline(keys[1..], values[1..]);
    }
  }

  /** Helper for PercentScan: regroups a five-part concatenation. */
  lemma Reassociate(a: string, b: string, c: string, d: string, e: string)
    ensures a + (b + (c + (d + e))) == a + b + c + d + e
  {
  }

  /** The key line of PercentInMessageShiftsValues, once the value is gone. */
  lemma PercentTailScan()
    ensures Scan("  key: " + ("%#v" + "\n\n"), []) == Scanned("  key: " + ("%!v(MISSING)" + "\n\n"), [])
  {
    ScanLiteral("\n\n", "", []);
    assert Scan("\n\n", []) == Scanned("\n\n", []) by {
      assert "\n\n" + "" == "\n\n";
    }
    ScanGoSyntaxMissing("\n\n");
    ScanLiteral("  key: ", "%#v" + "\n\n", []);
  }

  /** Helper for PercentScan: the format string printw builds for
      PercentInMessageShiftsValues. */
  lemma PercentFormatString()
    ensures FormatString("INFO" + ": " + "100%", ["key"]) == "INFO: 100" + (['%', '\n'] + ("  key: " + ("%#v" + "\n\n")))
  {
    assert KeyLines(["key"]) == "  key: %#v\n" + KeyLines([]);
  }

  /** Helper for PercentScan: `%` followed by a newline is a bad verb that
      still takes a value. */
  lemma PercentNewlineVerb()
    ensures FormatVerb(false, '\n', Str("value")) == "%!\n(string=value)"
  {
  }

  /** The scan behind PercentInMessageShiftsValues. */
  lemma PercentScan()
    ensures Scan(FormatString("INFO" + ": " + "100%", ["key"]), [Str("value")])
         == Scanned("INFO: 100" + "%!\n(string=value)" + "  key: " + "%!v(MISSING)" + "\n\n", [])
  {
    var tail := "  key: " + ("%#v" + "\n\n");
    PercentFormatString();
    PercentTailScan();
    assert [Str("value")] == [Str("value")] + [];
    ScanVerb('\n', tail, Str("value"), []);
    PercentNewlineVerb();
    ScanLiteral("INFO: 100", ['%', '\n'] + tail, [Str("value")]);
    Reassociate("INFO: 100", "%!\n(string=value)", "  key: ", "%!v(MISSING)", "\n\n");
  }

  /** A `%` in the message is read as a verb: in `100%` followed by the
      key line, `%\n` swallows the first value and the key's own `%#v` finds
      no value left. */
  lemma PercentInMessageShiftsValues()
    ensures Block(Empty(), "INFO", "100%", [Str("key"), Str("value")])
         == Success("INFO: 100" + "%!\n(string=value)" + "  key: " + "%!v(MISSING)" + "\n\n")
  {
    var kvs := [Str("key"), Str("value")];
    assert KeysAreStrings(kvs) by { assert Key(kvs, 0) == Str("key"); }
    assert DecoratedKeys(Empty(), kvs) == ["key"];
    assert Values(kvs) == [Str("value")];
    PercentScan();
  }
}
