# logos, modelled in Dafny

logos (`logos.go`) is a small Go logging wrapper. One call such as
`Infow(msg, "key", value, ...)` does two things:

- it sends a structured record to a zap sugared logger;
- for Info and Error, it also prints a human-readable block to a console stream.

The block is a header line `LEVEL: msg`, then one `  key: %#v-of-value` line per
pair, then a blank line. Keys are made bold and the level label is coloured by a
`gocolor.Color`. Info goes to stdout, Error to stderr, and Debug is never printed.
A logger is built with `New(logger, color, opts...)`. The options `WithStdout` and
`WithStderr` override the two streams, and `NewNop()` builds a logger that writes
to `io.Discard` with no colour.

The model has five modules:

- `Wrappers`: `Option`, `Result` and `Outcome`. A Go panic is modelled as a
  `Failure`/`Fail` value.
- `GoFmt`: the part of Go's `fmt` and `strconv` that `printw` relies on.
  - `%#v` of a string is `strconv.Quote`, and it is proved to round-trip through
    `Unquote`.
  - `Sprintf`/`Fprintf` is modelled as an interpreter of the format string
    (`Scan`/`Directive`). It covers literal text, flags, `%%`, `%v`, `%#v`, `%s`,
    and the error forms `%!(NOVERB)`, `%!v(MISSING)`, `%!c(type=value)` and
    `%!(EXTRA ...)`.
- `Colors`: the colour capability is an abstract decoration function. The empty
  colour is the identity.
- `Printw`: `printw` itself.
  - `Block` is the function that specifies it.
  - `FormatBlock` and `BuildFormatString` are the imperative version, with the
    source's two loops over the `keys`/`values` arrays.
  - `Layout` is the documented block. The lemmas say when the two agree and what
    happens when they do not.
- `Logos`: the `Logger` class, with fields `color`, `logger`, `stderr` and
  `stdout`, the option functions, `New`, `NewNop`, `Infow`, `Errorw` and `Debugw`.
  - What the logger does to the outside world is kept in one ordered trace,
    `events`. It holds a `Record` for each call into the sugared zap logger and a
    `Write` for each `Fprintf`.
  - `Emitted` specifies the events of one call. `Records`, `Chunks` and `Visible`
    are the views of the trace that the routing lemmas speak about.

An important behaviour of the source is proved, not assumed away. `printw` splices
the label, the message and the decorated keys into the format string it hands to
`Fprintf`. A `%` in any of them is therefore read as a verb.

- `BlockLayout` proves that the block is the documented layout when none of them
  contains `%`.
- `PercentInMessageShiftsValues` shows what happens otherwise. `Infow("100%",
  "key", "value")` prints `INFO: 100%!\n(string=value)` and then `  key:
  %!v(MISSING)`.

Three behaviours of the code are worth stating outright:

- `Debugw` (logos.go:68-70) never panics. It only calls the sugared logger and
  never `printw`, so an odd-length list does not stop it. Only `Infow` and
  `Errorw` panic on one.
- `New` checks for nil after running the options (logos.go:128-133). So an
  explicit `WithStdout(nil)` or `WithStderr(nil)` is still replaced by the
  process's stream.
- A stream can be set back to nil after `New`, by running an option such as
  `WithStdout(nil)` on the logger. `Infow` or `Errorw` on such a stream formats
  the block and then panics inside `Fprintf`, which is a nil-pointer
  dereference. The model keeps that panic (`NilWrite`).

The package example's expected output has no final blank line. Go's example
runner trims trailing space, and the block itself ends with `"\n\n"`.

## Model

| member | source | states |
|---|---|---|
| GoFmt.UnescapeEscape | logos.go:33 | decoding the body of a quoted string gives back the original string |
| GoFmt.QuoteRoundTrip | logos.go:33 | `%#v` of a string (strconv.Quote) reads back as exactly that string: values are printed losslessly |
| GoFmt.QuoteVerbatim | logos.go:33 | a string of printable characters without `"` or `\` is printed as itself between double quotes |
| GoFmt.QuoteHasNoNewline | logos.go:33 | a quoted string never contains a raw line break, so a string value stays on its key's line |
| GoFmt.ScanLiteral | logos.go:37 | format text without `%` is copied to the output unchanged and consumes no argument |
| GoFmt.ScanGoSyntaxVerb | logos.go:33-37 | a `%#v` in the format string consumes exactly one argument and prints its Go syntax |
| GoFmt.ScanGoSyntaxMissing | logos.go:33-37 | a `%#v` with no argument left prints `%!v(MISSING)` and goes on |
| GoFmt.ScanVerb | logos.go:37 | a `%` followed by a character that is not a flag, `%`, a width digit, `.`, `*` or `[` takes the next argument, even where that character is not a verb (a bad verb) |
| GoFmt.ScanGoSyntaxBetween | logos.go:33-37 | literal text, a `%#v` and more literal text print the text around the Go syntax of one argument |
| GoFmt.SprintfOneGoSyntax | logos.go:19 | a format with one `%#v` and literal text around it prints that text around the argument's Go syntax, with no extra arguments |
| Printw.FirstNonStringKey | logos.go:26-27 | the first pair whose key is not a string, with every key before it a string; None exactly when every key is a string |
| Printw.FirstNonStringKeyAt | logos.go:26-27 | the key at which the loop stops is the first non-string key |
| Printw.KeyLinesSnoc | logos.go:32-34 | appending a key appends its `  key: %#v` line to the format string |
| Printw.BuildFormatString | logos.go:31-36 | the second loop builds the header line, one `  key: %#v` line per key in order, and the closing newline |
| Printw.FormatBlock | logos.go:16-37 | printw's odd-length check, its two loops and its formatting produce exactly Block: the block, or the panic of the odd length or of the first non-string key |
| Printw.BlockFails | logos.go:17-27 | printw panics if and only if the list has odd length or some key is not a string; odd length gives the odd-length panic; otherwise the first non-string key is named, by its position in the list |
| Printw.OddLengthMessageShowsList | logos.go:18-19 | the odd-length panic message is `len() not even - keysAndValues: ` followed by the `%#v` of the whole list and a newline |
| Printw.ScanKeyLines | logos.go:32-37 | the key lines, formatted against the values, become one `  key: <%#v of value>` line per pair in order, each consuming one value |
| Printw.BlockLayout | logos.go:22-37 | with no `%` in the label, the message or the decorated keys, printw writes the header `label: msg`, one line per pair with the bold key and the value's Go syntax, in order, then a blank line |
| Printw.PairLinesCount | logos.go:32-34 | the pair lines hold one line break per pair when keys and values have none of their own |
| Printw.LayoutLineCount | logos.go:31-36 | the documented block has the header, one line per pair and the blank line (pairs + 2 line breaks) and ends with an empty line |
| Printw.BlockLineCount | logos.go:31-37 | with no `%` and no line breaks in label, message, keys or value renderings, printw succeeds and writes exactly n/2 + 2 lines for n entries |
| Printw.PercentInMessageShiftsValues | logos.go:22-37 | a `%` in the message is read as a verb: `100%` followed by a newline consumes the first value, and the key's own `%#v` finds no value left |
| Logos.Defaults | logos.go:128-133 | after the nil checks neither stream is nil |
| Logos.UnsetStreamKept | logos.go:96-108 | options for one stream leave the other stream as it was |
| Logos.UnsetStreamGetsDefault | logos.go:125-133 | a stream no option sets becomes the process's stdout or stderr |
| Logos.LastOptionWins | logos.go:125-127 | options run in order, so the last option for a stream decides it whatever came before |
| Logos.ConfiguredStream | logos.go:116-136 | a stream set by an option keeps the writer of the last such option; only a nil writer is replaced by the default |
| Logos.Label | logos.go:56-63 | the level label INFO or ERROR, decorated by the colour; with the identity colour it is the bare `INFO` or `ERROR` |
| Logos.Console | logos.go:57-64 | Info is printed to the stdout stream and Error to the stderr stream; on streams that are both set, the chosen stream is never nil |
| Logos.EmittedViews | logos.go:53-70 | one call sends one record with its level, message and list. It writes at most one block, only to the level's console stream, and only when printw succeeds and that stream is not nil |
| Logos.RecordFirst | logos.go:54-57 | every call sends its structured record before anything is printed, and prints at most once |
| Logos.InfowRouting | logos.go:54-58 | Infow adds one Info record. stdout gets exactly the printw block when the list is well formed and stdout is set, and nothing otherwise. Every other writer is unchanged |
| Logos.ErrorwRouting | logos.go:61-65 | Errorw adds one Error record. stderr gets exactly the printw block when the list is well formed and stderr is set, and nothing otherwise. Every other writer is unchanged |
| Logos.DebugwRouting | logos.go:68-70 | Debugw adds one Debug record, prints nothing to any writer, and never panics, whatever the list |
| Logos.OddLengthPanicsAfterRecord | logos.go:17-20 | with an odd-length list, Infow and Errorw send the record, then panic with the odd-length message before writing anything |
| Logos.NilStreamPanics | logos.go:37 | a well-formed call to a nil console stream sends its record, then panics with a nil-pointer dereference in `Fprintf` and writes nothing |
| Logos.ConfiguredPanicsOnlyOnList | logos.go:116-136 | on the streams New produces, a call panics if and only if it is Infow or Errorw and the list has odd length or a key that is not a string |
| Logos.DiscardShowsNothing | logos.go:110-113 | a logger whose streams are io.Discard leaves nothing readable on any writer, whatever it logs |
| Logos.PairLineVerbatim | logos.go:33 | a printable string value is shown between plain double quotes on its key's line |
| Logos.TwoPairLines | logos.go:32-34 | two pairs give their two lines in order |
| Logos.TwoPairBlock | logos.go:22-37 | with the empty colour, printw of two string pairs writes the header, `  k: "v"` for each pair in order, and a blank line |
| Logos.DocumentedExample | example_logos_test.go:21-29 | on a logger built with no options, the package example sends its Info record and writes exactly `INFO: Now we're logging :)\n  key: "value"\n  otherkey: "othervalue"\n\n` to os.Stdout |
| Logos.Logger.New | logos.go:116-136 | the logger keeps the given zap logger and colour, runs the options in order, gives each stream still nil the process's stream, and has written nothing |
| Logos.Logger.ApplyOption | logos.go:96-108 | WithStderr sets only stderr and WithStdout sets only stdout |
| Logos.Logger.Printw | logos.go:16-38 | on success, exactly one write of the whole block to the given writer. On printw's panics, and on a nil writer, nothing is written |
| Logos.Logger.Infow | logos.go:54-58 | appends exactly the events Emitted specifies for Info on the logger's streams, and panics exactly when CallOutcome says |
| Logos.Logger.Errorw | logos.go:61-65 | appends exactly the events Emitted specifies for Error on the logger's streams, and panics exactly when CallOutcome says |
| Logos.Logger.Debugw | logos.go:68-70 | appends exactly the one Debug record |
| Logos.NewNop | logos.go:111-113 | a new logger with both streams io.Discard, zap's no-op logger and the identity colour, which has written nothing |

## Left out

- `NewDeterministicZapLogger` and `NewBBKaneZapLogger` (logos.go:138-215) only configure zap and lumberjack, which are not part of this model. A nil lumberjack target gives `zap.NewNop()`, which is the `ZapNop` value here.
- `Sync` (logos.go:73-75) is a call into zap's flush and is not modelled.
- `LogOnPanic` (logos.go:79-91) relies on Go's panic/recover and stack traces, so it is not modelled. A panic is a returned `Fail`/`Failure` value instead.
- The sugared logger derived in `New` (`logger.WithOptions(zap.AddCallerSkip(1)).Sugar()`) is not stored. A `Record` event stands for the call into it.
- Zap's level filtering, JSON encoding and its handling of malformed lists are not modelled. Every call's record is kept as (level, message, list).
- The escape codes of `gocolor` are not modelled. The colour is an abstract function of the attributes and the text.
- A `Logger{}` built directly has a nil sugared logger, and Go panics on the first call into it. That panic is not modelled: the model has no sugared logger and always records the call.
- GoFmt.Value reduces `%#v` and `%v` of a value that is not a string to given strings (`Other`). Go's rendering of composite values is not modelled.
- GoFmt.Directive does not model width, precision or argument indexes. It reads a width digit, `.`, `*` or `[` after `%` as a bad verb: `%5v` gives `%!5(string=x)v` where Go prints `    x`. These characters reach a format string only through text that printw splices into it; printw's own format strings use only `%#v`.
- GoFmt.ScanVerb is stated only for a character after `%` that Go reads as the verb itself. A width digit, `.`, `*` or `[` is left out, as the line above explains.
- GoFmt.Directive renders every verb other than `v` (and `s` on a string) in the bad-verb form `%!c(type=value)`. Go's own rendering for the other verbs is not modelled.
- GoFmt.Verbatim treats every character at or above U+0080 as printable. It does not model `strconv.IsPrint`, so non-printable Unicode characters are not escaped as `\u` sequences.
- The writers are identities. The model does not capture I/O errors from `Fprintf`, partial writes, or concurrent callers interleaving on a shared writer.
