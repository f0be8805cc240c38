/** The already-read slide deck the rules inspect: the values the document
    reader hands to the rule engine, with the reader itself abstracted away. */
module Document {
  import opened Results

  /** A font size in points; the reader only ever reports non-negative sizes. */
  type Points = x: real | 0.0 <= x

  /** One text run with its resolved formatting. `fontColor` is the reader's
      lower-case "#rrggbb" string, or `None` when no colour could be resolved;
      the three style flags collapse the reader's `None` to `false`. */
  datatype TextRun = TextRun(
    text: string,
    fontName: string,
    fontSize: Option<Points>,
    bold: bool,
    italic: bool,
    underline: bool,
    fontColor: Option<string>)

  /** A shape that carries text. `textFrame` holds the runs of all its
      paragraphs in order, or `None` when the shape exposes no text frame. */
  datatype TextShape = TextShape(
    shapeId: int,
    shapeName: string,
    isPlaceholder: bool,
    textFrame: Option<seq<TextRun>>)

  /** One slide. `title` is the stripped title text (`None` when the slide has
      no title placeholder or it is empty). `textShapes` is what the reader's
      `get_all_text_shapes` returns, or the error it raises. */
  datatype Slide = Slide(
    title: Option<string>,
    layoutName: string,
    textShapes: Result<seq<TextShape>>)

  /** The deck, with the document title the reader reports ("Untitled" when unset). */
  datatype Presentation = Presentation(slides: seq<Slide>, title: string)

  /** The reader's `has_title`: a title that is present and non-empty. */
  predicate HasTitle(s: Slide) {
    s.title.Some? && |s.title.value| > 0
  }
}
