/**
 * The colour capability the logger is given (a `gocolor.Color`). The
 * escape codes themselves belong to the colour library; the logger only
 * ever asks it to wrap a text in a combination of attributes.
 */
module Colors {

  /** The attributes the logger uses: `color.Bold`, `color.FgGreenBright`
      and `color.FgRedBright`. A combination such as
      `color.Bold + color.FgGreenBright` is the sequence of its parts. */
  datatype Attr = Bold | FgGreenBright | FgRedBright

  /** `color.Add(attrs, text)` */
  datatype Color = Color(add: (seq<Attr>, string) -> string)

  /** `gocolor.NewEmpty()`: decoration that returns the text unchanged. */
  function Empty(): (c: Color)
    ensures IsIdentity(c)
  {
    Color((attrs: seq<Attr>, text: string) => text)
  }

  ghost predicate IsIdentity(c: Color) {
    forall attrs, text :: c.add(attrs, text) == text
  }
}
