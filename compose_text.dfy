/**
 * The parts of Jetpack Compose's text model that the note editor manipulates:
 * span styles, `AnnotatedString` with its ordered list of style ranges, the
 * `AnnotatedString.Builder` it is built with, and the editor's `TextFieldValue`.
 * Floating-point units and colours are reduced to the discrete values the
 * editor actually uses.
 */
module ComposeText {
  import opened Wrappers

  /** Compose's `FontWeight(weight)` refuses a weight outside 1..1000. */
  type Weight = w: int | 1 <= w <= 1000 witness 400

  datatype FontWeight = FontWeight(weight: Weight)

  const Bold := FontWeight(700)

  /** `FontStyle` is a value class over an int: 0 is Normal, 1 is Italic. */
  datatype FontStyle = FontStyle(value: int)

  const Normal := FontStyle(0)
  const Italic := FontStyle(1)

  /** `TextDecoration` is a bit mask: None, Underline, LineThrough, or both combined. */
  datatype TextDecoration = NoDecoration | Underline | LineThrough | UnderlineAndLineThrough

  /** The two background colours the editor sets (`Color.Yellow`, `Color.Transparent`). */
  datatype Background = Yellow | Transparent

  /** The three font sizes the editor sets: 16.sp, 20.sp and 24.sp. */
  datatype FontSize = Sp16 | Sp20 | Sp24

  /**
   * A `SpanStyle` restricted to the five attributes the editor touches.
   * `None` stands for null (weight, style, decoration) or for Compose's
   * "Unspecified" (background, font size).
   */
  datatype SpanStyle = SpanStyle(
    fontWeight: Option<FontWeight>,
    fontStyle: Option<FontStyle>,
    textDecoration: Option<TextDecoration>,
    background: Option<Background>,
    fontSize: Option<FontSize>)

  /** `AnnotatedString.Range<SpanStyle>`: a style over the offsets [start, end). */
  datatype Range = Range(item: SpanStyle, start: int, end: int)

  /** A text with its span styles, in the order they were added. */
  datatype AnnotatedString = AnnotatedString(text: string, spanStyles: seq<Range>)

  /** A selection; `collapsed` when it is a bare cursor. */
  datatype TextRange = TextRange(start: nat, end: nat)
  {
    predicate Collapsed() { start == end }
  }

  /** The editable text field's content: plain text plus selection. */
  datatype TextFieldValue = TextFieldValue(text: string, selection: TextRange)

  /**
   * `AnnotatedString.Builder`: text and ranges that `append` and `addStyle`
   * extend in place.
   */
  class Builder {
    var text: string
    var spans: seq<Range>

    /** `AnnotatedString.Builder()` */
    constructor ()
      ensures text == [] && spans == []
    {
      text := [];
      spans := [];
    }

    /** `AnnotatedString.Builder(annotatedString)` */
    constructor FromAnnotatedString(a: AnnotatedString)
      ensures text == a.text && spans == a.spanStyles
    {
      text := a.text;
      spans := a.spanStyles;
    }

    /** `append(s)` */
    method Append(s: string)
      modifies this
      ensures text == old(text) + s && spans == old(spans)
    {
      text := text + s;
    }

    /** `addStyle(style, start, end)` */
    method AddStyle(style: SpanStyle, start: int, end: int)
      modifies this
      ensures spans == old(spans) + [Range(style, start, end)] && text == old(text)
    {
      spans := spans + [Range(style, start, end)];
    }

    /** `toAnnotatedString()` */
    function ToAnnotatedString(): AnnotatedString
      reads this
    {
      AnnotatedString(text, spans)
    }
  }
}
