/**
 * The logger of logos.go: construction with functional options (New,
 * WithStdout, WithStderr, NewNop) and the leveled operations Infow, Errorw
 * and Debugw, each of which sends one structured record and, for Info and
 * Error, one printw block to a console stream.
 *
 * The structured logger (zap) and the writers are outside the model; what
 * the logger does to them is kept, in order, as a trace of events: a
 * `Record` for each call into the sugared zap logger, a `Write` for each
 * `Fprintf` on a writer.
 */
module Logos {
  import opened Wrappers
  import opened GoFmt
  import opened Colors
  import opened Printw

  datatype Level = Debug | Info | Error

  /** An `io.Writer` as the logger holds it: nil, the process's standard
      streams, `io.Discard`, or any other writer, told apart by identity. */
  datatype Writer = NilWriter | OsStdout | OsStderr | Discard | Stream(id: nat)

  /** A `*zap.Logger`: `zap.NewNop()` or some configured logger. */
  datatype ZapLogger = ZapNop | Zap(id: nat)

  datatype Event =
    | Record(level: Level, msg: string, kvs: seq<Value>)
    | Write(writer: Writer, chunk: string)

  // ---------------------------------------------------------------------
  // Construction
  // ---------------------------------------------------------------------

  /** `LoggerOpt`, as built by `WithStderr(w)` and `WithStdout(w)`. */
  datatype LoggerOpt = WithStderr(stderr: Writer) | WithStdout(stdout: Writer)

  datatype Streams = Streams(stdout: Writer, stderr: Writer)

  /** What running one option on a logger does to its streams. */
  function Apply(opt: LoggerOpt, s: Streams): Streams {
    match opt
    case WithStderr(w) => s.(stderr := w)
    case WithStdout(w) => s.(stdout := w)
  }

  /** Options run in the order given. */
  function ApplyAll(opts: seq<LoggerOpt>, s: Streams): Streams
    decreases |opts|
  {
    if opts == [] then s else Apply(opts[|opts| - 1], ApplyAll(opts[..|opts| - 1], s))
  }

  /** The nil checks after the options: an unset stream becomes the
      process's own. */
  function Defaults(s: Streams): (r: Streams)
    ensures r.stdout != NilWriter && r.stderr != NilWriter
  {
    Streams(if s.stdout == NilWriter then OsStdout else s.stdout,
            if s.stderr == NilWriter then OsStderr else s.stderr)
  }

  /** The streams `New(logger, color, opts...)` ends up with. */
  function Configured(opts: seq<LoggerOpt>): Streams {
    Defaults(ApplyAll(opts, Streams(NilWriter, NilWriter)))
  }

  /** The two streams, to state the option rules once for both. */
  datatype Channel = Out | Err

  function Get(s: Streams, ch: Channel): Writer {
    if ch == Out then s.stdout else s.stderr
  }

  predicate Sets(opt: LoggerOpt, ch: Channel) {
    if ch == Out then opt.WithStdout? else opt.WithStderr?
  }

  function Target(opt: LoggerOpt): Writer {
    match opt
    case WithStderr(w) => w
    case WithStdout(w) => w
  }

  function Default(ch: Channel): Writer {
    if ch == Out then OsStdout else OsStderr
  }

  /** Options for the other stream leave a stream as it was. */
  lemma {:induction false} UnsetStreamKept(opts: seq<LoggerOpt>, ch: Channel, s: Streams)
    requires forall j :: 0 <= j < |opts| ==> !Sets(opts[j], ch)
    ensures Get(ApplyAll(opts, s), ch) == Get(s, ch)
  {
    if opts != [] {
      UnsetStreamKept(opts[..|opts| - 1], ch, s);
    }
  }

  /** A stream no option sets becomes the process's standard stream. */
  lemma UnsetStreamGetsDefault(opts: seq<LoggerOpt>, ch: Channel)
    requires forall j :: 0 <= j < |opts| ==> !Sets(opts[j], ch)
    ensures Get(Configured(opts), ch) == Default(ch)
  {
    UnsetStreamKept(opts, ch, Streams(NilWriter, NilWriter));
  }

  /** The last option for a stream decides it, whatever came before. */
  lemma {:induction false} LastOptionWins(opts: seq<LoggerOpt>, ch: Channel, i: nat, s: Streams)
    requires i < |opts| && Sets(opts[i], ch)
    requires forall j :: i < j < |opts| ==> !Sets(opts[j], ch)
    ensures Get(ApplyAll(opts, s), ch) == Target(opts[i])
  {
    if i == |opts| - 1 {
    } else {
      LastOptionWins(opts[..|opts| - 1], ch, i, s);
    }
  }

  /** A stream some option sets keeps the writer of the last such option,
      unless that writer is nil, in which case the default applies. */
  lemma ConfiguredStream(opts: seq<LoggerOpt>, ch: Channel, i: nat)
    requires i < |opts| && Sets(opts[i], ch)
    requires forall j :: i < j < |opts| ==> !Sets(opts[j], ch)
    ensures Get(Configured(opts), ch)
         == if Target(opts[i]) == NilWriter then Default(ch) else Target(opts[i])
  {
    LastOptionWins(opts, ch, i, Streams(NilWriter, NilWriter));
  }

  // ---------------------------------------------------------------------
  // What one call emits
  // ---------------------------------------------------------------------

  /** The coloured level label: bold bright green `INFO`, bold bright red
      `ERROR`; with no colour, the bare level name. */
  function Label(color: Color, level: Level): (r: string)
    requires level != Debug
    ensures IsIdentity(color) ==> r == (if level == Info then "INFO" else "ERROR")
  {
    if level == Info then color.add([Bold, FgGreenBright], "INFO")
    else color.add([Bold, FgRedBright], "ERROR")
  }

  /** The stream a level is printed to: stdout for Info, stderr for Error. */
  function Console(s: Streams, level: Level): (w: Writer)
    requires level != Debug
    ensures w == Get(s, if level == Info then Out else Err)
    ensures s.stdout != NilWriter && s.stderr != NilWriter ==> w != NilWriter
  {
    if level == Info then s.stdout else s.stderr
  }

  /** The events of one Infow, Errorw or Debugw call. A nil console stream
      makes `Fprintf` panic before anything is written. */
  function Emitted(color: Color, s: Streams, level: Level, msg: string, kvs: seq<Value>): seq<Event> {
    [Record(level, msg, kvs)] +
    if level == Debug then []
    else match Block(color, Label(color, level), msg, kvs)
      case Success(block) => if Console(s, level) == NilWriter then [] else [Write(Console(s, level), block)]
      case Failure(_) => []
  }

  /** Whether that call returns or panics. */
  function CallOutcome(color: Color, s: Streams, level: Level, msg: string, kvs: seq<Value>): Outcome<Panic> {
    if level == Debug then Pass
    else match Block(color, Label(color, level), msg, kvs)
      case Success(_) => if Console(s, level) == NilWriter then Fail(NilWrite(NilDereference)) else Pass
      case Failure(p) => Fail(p)
  }

  /** The structured records sent, oldest first. */
  function Records(events: seq<Event>): seq<(Level, string, seq<Value>)> {
    if events == [] then []
    else
      var e := events[|events| - 1];
      Records(events[..|events| - 1]) + if e.Record? then [(e.level, e.msg, e.kvs)] else []
  }

  /** The chunks written to w, one per Fprintf, oldest first. */
  function Chunks(events: seq<Event>, w: Writer): seq<string> {
    if events == [] then []
    else
      var e := events[|events| - 1];
      Chunks(events[..|events| - 1], w) + if e.Write? && e.writer == w then [e.chunk] else []
  }

  /** What can be read back from w: `io.Discard` keeps nothing. */
  function Visible(events: seq<Event>, w: Writer): seq<string> {
    if w == Discard then [] else Chunks(events, w)
  }

  lemma {:induction false} RecordsAppend(a: seq<Event>, b: seq<Event>)
    ensures Records(a + b) == Records(a) + Records(b)
  {
    if b == [] {
      assert a + b == a;
    } else {
      assert (a + b)[..|a + b| - 1] == a + b[..|b| - 1];
      RecordsAppend(a, b[..|b| - 1]);
    }
  }

  lemma {:induction false} ChunksAppend(a: seq<Event>, b: seq<Event>, w: Writer)
    ensures Chunks(a + b, w) == Chunks(a, w) + Chunks(b, w)
  {
    if b == [] {
      assert a + b == a;
    } else {
      assert (a + b)[..|a + b| - 1] == a + b[..|b| - 1];
      ChunksAppend(a, b[..|b| - 1], w);
    }
  }

  /** Every call sends exactly one structured record, before anything is
      printed, and prints at most one block. */
  lemma RecordFirst(color: Color, s: Streams, level: Level, msg: string, kvs: seq<Value>)
    ensures var e := Emitted(color, s, level, msg, kvs);
      1 <= |e| <= 2 && e[0] == Record(level, msg, kvs) && forall k :: 1 <= k < |e| ==> e[k].Write?
  {
  }

  /** The record and the chunk of one call, seen through the two views. */
  lemma EmittedViews(color: Color, s: Streams, level: Level, msg: string, kvs: seq<Value>)
    ensures Records(Emitted(color, s, level, msg, kvs)) == [(level, msg, kvs)]
    ensures forall w :: Chunks(Emitted(color, s, level, msg, kvs), w) ==
                         if level != Debug && w == Console(s, level) && w != NilWriter && Block(color, Label(color, level), msg, kvs).Success?
                         then [Block(color, Label(color, level), msg, kvs).value] else []
  {
    var e := Emitted(color, s, level, msg, kvs);
    var r := [Record(level, msg, kvs)];
    assert Records(r) == [(level, msg, kvs)] by {
      assert r[..0] == [];
    }
    assert forall w :: Chunks(r, w) == [] by {
      assert r[..0] == [];
    }
    if |e| == 2 {
      assert e[..1] == r;
    }
  }

  /** Infow: one Info record; one block on stdout when printw succeeds;
      no other writer receives anything. */
  lemma InfowRouting(events: seq<Event>, color: Color, s: Streams, msg: string, kvs: seq<Value>)
    ensures var after := events + Emitted(color, s, Info, msg, kvs);
      && Records(after) == Records(events) + [(Info, msg, kvs)]
      && (forall w :: w != s.stdout ==> Chunks(after, w) == Chunks(events, w))
      && Chunks(after, s.stdout) == Chunks(events, s.stdout) +
           if |kvs| % 2 == 0 && KeysAreStrings(kvs) && s.stdout != NilWriter
           then [Block(color, Label(color, Info), msg, kvs).value] else []
  {
    var e := Emitted(color, s, Info, msg, kvs);
    RecordsAppend(events, e);
    BlockFails(color, Label(color, Info), msg, kvs);
    EmittedViews(color, s, Info, msg, kvs);
    forall w
      ensures Chunks(events + e, w) == Chunks(events, w) + Chunks(e, w)
    {
      ChunksAppend(events, e, w);
    }
  }

  /** Errorw: one Error record; one block on stderr when printw succeeds;
      no other writer receives anything. */
  lemma ErrorwRouting(events: seq<Event>, color: Color, s: Streams, msg: string, kvs: seq<Value>)
    ensures var after := events + Emitted(color, s, Error, msg, kvs);
      && Records(after) == Records(events) + [(Error, msg, kvs)]
      && (forall w :: w != s.stderr ==> Chunks(after, w) == Chunks(events, w))
      && Chunks(after, s.stderr) == Chunks(events, s.stderr) +
           if |kvs| % 2 == 0 && KeysAreStrings(kvs) && s.stderr != NilWriter
           then [Block(color, Label(color, Error), msg, kvs).value] else []
  {
    var e := Emitted(color, s, Error, msg, kvs);
    RecordsAppend(events, e);
    BlockFails(color, Label(color, Error), msg, kvs);
    EmittedViews(color, s, Error, msg, kvs);
    forall w
      ensures Chunks(events + e, w) == Chunks(events, w) + Chunks(e, w)
    {
      ChunksAppend(events, e, w);
    }
  }

  /** Debugw: one Debug record and nothing printed, whatever the list. */
  lemma DebugwRouting(events: seq<Event>, color: Color, s: Streams, msg: string, kvs: seq<Value>)
    ensures var after := events + Emitted(color, s, Debug, msg, kvs);
      && Records(after) == Records(events) + [(Debug, msg, kvs)]
      && forall w :: Chunks(after, w) == Chunks(events, w)
    ensures CallOutcome(color, s, Debug, msg, kvs) == Pass
  {
    var e := Emitted(color, s, Debug, msg, kvs);
    RecordsAppend(events, e);
    EmittedViews(color, s, Debug, msg, kvs);
    forall w
      ensures Chunks(events + e, w) == Chunks(events, w) + Chunks(e, w)
    {
      ChunksAppend(events, e, w);
    }
  }

  /** An odd-length list makes Infow and Errorw panic after the record is
      sent and before anything is printed. */
  lemma OddLengthPanicsAfterRecord(events: seq<Event>, color: Color, s: Streams, level: Level, msg: string, kvs: seq<Value>)
    requires level != Debug && |kvs| % 2 != 0
    ensures Emitted(color, s, level, msg, kvs) == [Record(level, msg, kvs)]
    ensures CallOutcome(color, s, level, msg, kvs) == Fail(OddLength(OddLengthMessage(kvs)))
    ensures forall w :: Chunks(events + Emitted(color, s, level, msg, kvs), w) == Chunks(events, w)
  {
    forall w
      ensures Chunks(events + [Record(level, msg, kvs)], w) == Chunks(events, w)
    {
      ChunksAppend(events, [Record(level, msg, kvs)], w);
    }
  }

  /** A well-formed list sent to a nil console stream: the record is sent,
      then `Fprintf` panics on the nil writer and nothing is written. */
  lemma NilStreamPanics(color: Color, s: Streams, level: Level, msg: string, kvs: seq<Value>)
    requires level != Debug && Console(s, level) == NilWriter
    requires |kvs| % 2 == 0 && KeysAreStrings(kvs)
    ensures Emitted(color, s, level, msg, kvs) == [Record(level, msg, kvs)]
    ensures CallOutcome(color, s, level, msg, kvs) == Fail(NilWrite(NilDereference))
  {
    BlockFails(color, Label(color, level), msg, kvs);
  }

  /** On the streams New gives a logger, a call panics exactly when printw
      rejects the list: odd length or a key that is not a string. */
  lemma ConfiguredPanicsOnlyOnList(color: Color, opts: seq<LoggerOpt>, level: Level, msg: string, kvs: seq<Value>)
    ensures CallOutcome(color, Configured(opts), level, msg, kvs).Fail?
        <==> level != Debug && (|kvs| % 2 != 0 || !KeysAreStrings(kvs))
  {
    if level != Debug {
      BlockFails(color, Label(color, level), msg, kvs);
    }
  }

  /** A logger whose streams are both `io.Discard` shows nothing, whatever
      it is asked to log: nothing can be read back from any writer. */
  lemma DiscardShowsNothing(events: seq<Event>, color: Color, level: Level, msg: string, kvs: seq<Value>)
    requires forall w :: Visible(events, w) == []
    ensures forall w :: Visible(events + Emitted(color, Streams(Discard, Discard), level, msg, kvs), w) == []
  {
    var s := Streams(Discard, Discard);
    var after := events + Emitted(color, s, level, msg, kvs);
    EmittedViews(color, s, level, msg, kvs);
    forall w | w != Discard
      ensures Visible(after, w) == []
    {
      ChunksAppend(events, Emitted(color, s, level, msg, kvs), w);
      assert Visible(events, w) == Chunks(events, w);
    }
  }

  /** A string value made of printable characters is shown between plain quotes. */
  lemma PairLineVerbatim(k: string, v: string)
    requires forall i :: 0 <= i < |v| ==> Verbatim(v[i])
    ensures PairLine(k, Str(v)) == "  " + k + ": \"" + v + "\"\n"
  {
    QuoteVerbatim(v);
  }

  lemma TwoPairLines(k1: string, v1: Value, k2: string, v2: Value)
    ensures PairLines([k1, k2], [v1, v2]) == PairLine(k1, v1) + PairLine(k2, v2)
  {
    assert [k1, k2][1..] == [k2] && [v1, v2][1..] == [v2];
    assert PairLines([k2], [v2]) == PairLine(k2, v2) + PairLines([], []);
  }

  /** printw on two string pairs with the empty colour: the keys as given,
      the values quoted. */
  lemma TwoPairBlock(level: string, msg: string, k1: string, v1: string, k2: string, v2: string)
    requires '%' !in level && '%' !in msg && '%' !in k1 && '%' !in k2
    requires forall i :: 0 <= i < |v1| ==> Verbatim(v1[i])
    requires forall i :: 0 <= i < |v2| ==> Verbatim(v2[i])
    ensures Block(Empty(), level, msg, [Str(k1), Str(v1), Str(k2), Str(v2)])
         == Success(level + ": " + msg + "\n" + ("  " + k1 + ": \"" + v1 + "\"\n") + ("  " + k2 + ": \"" + v2 + "\"\n") + "\n")
  {
    var kvs := [Str(k1), Str(v1), Str(k2), Str(v2)];
    assert KeysAreStrings(kvs) by {
      assert Key(kvs, 0) == Str(k1) && Key(kvs, 1) == Str(k2);
    }
    assert DecoratedKeys(Empty(), kvs) == [k1, k2];
    assert Values(kvs) == [Str(v1), Str(v2)];
    BlockLayout(Empty(), level, msg, kvs);
    TwoPairLines(k1, Str(v1), k2, Str(v2));
    PairLineVerbatim(k1, v1);
    PairLineVerbatim(k2, v2);
    var head := level + ": " + msg + "\n";
    var a, b := PairLine(k1, Str(v1)), PairLine(k2, Str(v2));
    assert head + (a + b) + "\n" == head + a + b + "\n";
  }

  /** Helper for DocumentedExample: the example's values need no escaping. */
  lemma ExampleValuesVerbatim()
    ensures forall i :: 0 <= i < |"value"| ==> Verbatim("value"[i])
    ensures forall i :: 0 <= i < |"othervalue"| ==> Verbatim("othervalue"[i])
  {
  }

  /** Helper for DocumentedExample: the example's lines as single literals. */
  lemma ExampleLines()
    ensures "INFO" + ": " + "Now we're logging :)" + "\n" == "INFO: Now we're logging :)\n"
    ensures "  " + "key" + ": \"" + "value" + "\"\n" == "  key: \"value\"\n"
    ensures "  " + "otherkey" + ": \"" + "othervalue" + "\"\n" == "  otherkey: \"othervalue\"\n"
  {
  }

  /** The package example: `Infow("Now we're logging :)", "key", "value",
      "otherkey", "othervalue")` on an uncoloured logger sends the record and
      prints the header and one quoted line per pair, then a blank line, to stdout. */
  lemma DocumentedExample()
    ensures Emitted(Empty(), Configured([]), Info, "Now we're logging :)",
                    [Str("key"), Str("value"), Str("otherkey"), Str("othervalue")])
         == [Record(Info, "Now we're logging :)", [Str("key"), Str("value"), Str("otherkey"), Str("othervalue")]),
             Write(OsStdout, "INFO: Now we're logging :)\n" + "  key: \"value\"\n" + "  otherkey: \"othervalue\"\n" + "\n")]
  {
    assert Configured([]).stdout == OsStdout;
    ExampleValuesVerbatim();
    TwoPairBlock("INFO", "Now we're logging :)", "key", "value", "otherkey", "othervalue");
    ExampleLines();
  }

  // ---------------------------------------------------------------------
  // The logger
  // ---------------------------------------------------------------------

  class Logger {
    var color: Color
    var logger: ZapLogger
    var stderr: Writer
    var stdout: Writer
    /** What the logger has done to its zap logger and its writers, oldest first. */
    var events: seq<Event>

    /** Both streams are set, as New leaves them. An option run later can
        set one back to nil; Infow or Errorw then panic at the write
        (NilStreamPanics). */
    ghost predicate Valid()
      reads this
    {
      stdout != NilWriter && stderr != NilWriter
    }

    /** `New(logger, color, opts...)`: runs the options in order on a logger
        with nil streams, then gives each stream still nil its default. */
    constructor New(logger: ZapLogger, color: Color, opts: seq<LoggerOpt>)
      ensures Valid()
      ensures this.logger == logger && this.color == color
      ensures Streams(stdout, stderr) == Configured(opts)
      ensures events == []
    {
      this.color := color;
      this.logger := logger;
      stderr := NilWriter;
      stdout := NilWriter;
      events := [];
      new;
      var k := 0;
      while k < |opts|
        invariant 0 <= k <= |opts|
        invariant Streams(stdout, stderr) == ApplyAll(opts[..k], Streams(NilWriter, NilWriter))
        invariant this.logger == logger && this.color == color && events == []
      {
        assert opts[..k + 1][..k] == opts[..k];
        ApplyOption(opts[k]);
        k := k + 1;
      }
      assert opts[..k] == opts;
      if stderr == NilWriter {
        ApplyOption(WithStderr(OsStderr));
      }
      if stdout == NilWriter {
        ApplyOption(WithStdout(OsStdout));
      }
    }

    /** `opt(l)` */
    method ApplyOption(opt: LoggerOpt)
      modifies this`stdout, this`stderr
      ensures Streams(stdout, stderr) == Apply(opt, old(Streams(stdout, stderr)))
    {
      match opt {
        case WithStderr(w) => stderr := w;
        case WithStdout(w) => stdout := w;
      }
    }

    /** printw's single `Fprintf` of the block to w, or its panic; a nil w
        panics at the write. */
    method Printw(w: Writer, color: Color, coloredLevel: string, msg: string, kvs: seq<Value>)
      returns (o: Outcome<Panic>)
      modifies this`events
      ensures match Block(color, coloredLevel, msg, kvs)
        case Success(block) =>
          if w == NilWriter then events == old(events) && o == Fail(NilWrite(NilDereference))
          else events == old(events) + [Write(w, block)] && o == Pass
        case Failure(p) => events == old(events) && o == Fail(p)
    {
      var r := FormatBlock(color, coloredLevel, msg, kvs);
      match r {
        case Success(block) =>
          if w == NilWriter {
            o := Fail(NilWrite(NilDereference));
          } else {
            events := events + [Write(w, block)];
            o := Pass;
          }
        case Failure(p) =>
          o := Fail(p);
      }
    }

    /** Infow: the record, then the block to stdout. */
    method Infow(msg: string, kvs: seq<Value>) returns (o: Outcome<Panic>)
      modifies this`events
      ensures events == old(events) + Emitted(color, Streams(stdout, stderr), Info, msg, kvs)
      ensures o == CallOutcome(color, Streams(stdout, stderr), Info, msg, kvs)
    {
      events := events + [Record(Info, msg, kvs)];
      var coloredLevel := color.add([Bold, FgGreenBright], "INFO");
      o := Printw(stdout, color, coloredLevel, msg, kvs);
    }

    /** Errorw: the record, then the block to stderr. */
    method Errorw(msg: string, kvs: seq<Value>) returns (o: Outcome<Panic>)
      modifies this`events
      ensures events == old(events) + Emitted(color, Streams(stdout, stderr), Error, msg, kvs)
      ensures o == CallOutcome(color, Streams(stdout, stderr), Error, msg, kvs)
    {
      events := events + [Record(Error, msg, kvs)];
      var coloredLevel := color.add([Bold, FgRedBright], "ERROR");
      o := Printw(stderr, color, coloredLevel, msg, kvs);
    }

    /** Debugw: the record only. */
    method Debugw(msg: string, kvs: seq<Value>)
      modifies this`events
      ensures events == old(events) + Emitted(color, Streams(stdout, stderr), Debug, msg, kvs)
    {
      events := events + [Record(Debug, msg, kvs)];
    }
  }

  /** `NewNop()`: both streams `io.Discard`, the empty colour, zap's no-op logger. */
  method NewNop() returns (l: Logger)
    ensures fresh(l) && l.Valid()
    ensures l.stdout == Discard && l.stderr == Discard
    ensures l.logger == ZapNop && IsIdentity(l.color) && l.events == []
  {
    var opts := [WithStderr(Discard), WithStdout(Discard)];
    assert opts[..1] == [WithStderr(Discard)] && opts[..1][..0] == [];
    l := new Logger.New(ZapNop, Empty(), opts);
  }
}
