/**
 * The Room type converter that stores an `AnnotatedString`
 * (model/db/AnnotatedStringConverter.kt). Each range becomes a plain record
 * keeping its offsets and three of its style attributes, font style and
 * decoration written as strings; reading back rebuilds the ranges.
 *
 * Gson's JSON step is taken to store the records faithfully, so the
 * converter is modelled up to the records: `FromAnnotatedString` gives the
 * record `toJson` is handed, `ToAnnotatedString` takes the record `fromJson`
 * returns.
 */
module AnnotatedStringConverter {
  import opened Wrappers
  import opened ComposeText

  /** `SpanStyleData`: the three stored attributes, each nullable. */
  datatype SpanStyleData = SpanStyleData(fontWeight: Option<int>, fontStyle: Option<string>, textDecoration: Option<string>)

  /** `AnnotatedStringSpan`: offsets and a nullable style record. */
  datatype AnnotatedStringSpan = AnnotatedStringSpan(start: int, end: int, style: Option<SpanStyleData>)

  /** `AnnotatedStringData`: the stored text and ranges. */
  datatype AnnotatedStringData = AnnotatedStringData(text: string, spans: seq<AnnotatedStringSpan>)

  // ---------------------------------------------------------------------
  // The string codecs
  // ---------------------------------------------------------------------

  /** `FontStyle.toSerializedString()` */
  function FontStyleToString(s: FontStyle): string
  {
    if s == Normal then "Normal"
    else if s == Italic then "Italic"
    else "None"
  }

  /** `String.toFontStyle()`: anything but "Normal" and "Italic" reads as Normal. */
  function ToFontStyle(s: string): FontStyle
  {
    if s == "Normal" then Normal
    else if s == "Italic" then Italic
    else Normal
  }

  /** `TextDecoration.toSerializedString()` */
  function DecorationToString(d: TextDecoration): string
  {
    match d
    case Underline => "Underline"
    case LineThrough => "LineThrough"
    case _ => "None"
  }

  /** `String.toTextDecoration()`: "None" and unknown strings read as null. */
  function ToTextDecoration(s: string): Option<TextDecoration>
  {
    if s == "Underline" then Some(Underline)
    else if s == "LineThrough" then Some(LineThrough)
    else if s == "None" then None
    else None
  }

  /** Normal and Italic survive their codec; every other string reads as Normal. */
  lemma FontStyleRoundTrip(s: FontStyle, text: string)
    ensures s == Normal || s == Italic ==> ToFontStyle(FontStyleToString(s)) == s
    ensures s != Normal && s != Italic ==> ToFontStyle(FontStyleToString(s)) == Normal
    ensures ToFontStyle(text) == Italic <==> text == "Italic"
  {
  }

  /**
   * Underline and LineThrough survive their codec; no decoration and the
   * combined one are written "None" and read back as null, as is any
   * unknown string.
   */
  lemma DecorationRoundTrip(d: TextDecoration, text: string)
    ensures d == Underline || d == LineThrough ==> ToTextDecoration(DecorationToString(d)) == Some(d)
    ensures d == NoDecoration || d == UnderlineAndLineThrough ==> ToTextDecoration(DecorationToString(d)) == None
    ensures ToTextDecoration(text).Some? <==> text == "Underline" || text == "LineThrough"
  {
  }

  // ---------------------------------------------------------------------
  // fromAnnotatedString, toAnnotatedString
  // ---------------------------------------------------------------------

  /** The record one range is stored as: offsets, weight, and the two codecs' strings. */
  function SpanToData(r: Range): AnnotatedStringSpan
  {
    AnnotatedStringSpan(
      r.start, r.end,
      Some(SpanStyleData(
        if r.item.fontWeight.Some? then Some(r.item.fontWeight.value.weight) else None,
        if r.item.fontStyle.Some? then Some(FontStyleToString(r.item.fontStyle.value)) else None,
        if r.item.textDecoration.Some? then Some(DecorationToString(r.item.textDecoration.value)) else None)))
  }

  /**
   * `fromAnnotatedString`, before Gson: the text, and one record per range
   * in the same order with the same offsets.
   */
  function FromAnnotatedString(value: AnnotatedString): (d: AnnotatedStringData)
    ensures d.text == value.text && |d.spans| == |value.spanStyles|
    ensures forall k :: 0 <= k < |d.spans| ==>
      d.spans[k].start == value.spanStyles[k].start && d.spans[k].end == value.spanStyles[k].end
  {
    AnnotatedStringData(value.text, seq(|value.spanStyles|, k requires 0 <= k < |value.spanStyles| => SpanToData(value.spanStyles[k])))
  }

  /**
   * Storing writes a null exactly where the style has a null, and a null
   * style record reads back as a style with every attribute null.
   */
  lemma NullsStayNull(r: Range)
    ensures var data := SpanToData(r).style;
      && data.Some?
      && (data.value.fontWeight.None? <==> r.item.fontWeight.None?)
      && (data.value.fontStyle.None? <==> r.item.fontStyle.None?)
      && (data.value.textDecoration.None? <==> r.item.textDecoration.None?)
    ensures StyleFromData(None) == Some(SpanStyle(None, None, None, None, None))
    ensures StyleFromData(Some(SpanStyleData(None, None, None))) == Some(SpanStyle(None, None, None, None, None))
  {
  }

  /**
   * The style one stored record reads back as; `FontWeight(weight)` throws
   * for a weight outside 1..1000, which gives None. A null record gives a
   * style with every attribute null.
   */
  function StyleFromData(style: Option<SpanStyleData>): Option<SpanStyle>
  {
    if style.None? then Some(SpanStyle(None, None, None, None, None))
    else
      var data := style.value;
      if data.fontWeight.Some? && !(1 <= data.fontWeight.value <= 1000) then None
      else
        Some(SpanStyle(
          if data.fontWeight.Some? then Some(FontWeight(data.fontWeight.value)) else None,
          if data.fontStyle.Some? then Some(ToFontStyle(data.fontStyle.value)) else None,
          if data.textDecoration.Some? then ToTextDecoration(data.textDecoration.value) else None,
          None, None))
  }

  /** The ranges the stored records read back as, or None when one of them throws. */
  function RangesFromData(spans: seq<AnnotatedStringSpan>): Option<seq<Range>>
  {
    if spans == [] then Some([])
    else
      match RangesFromData(spans[..|spans| - 1])
      case None => None
      case Some(init) =>
        var last := spans[|spans| - 1];
        match StyleFromData(last.style)
        case None => None
        case Some(item) => Some(init + [Range(item, last.start, last.end)])
  }

  /** `toAnnotatedString`, after Gson: None where the Kotlin code throws. */
  function ToAnnotatedString(data: AnnotatedStringData): Option<AnnotatedString>
  {
    match RangesFromData(data.spans)
    case None => None
    case Some(ranges) => Some(AnnotatedString(data.text, ranges))
  }

  // ---------------------------------------------------------------------
  // What a stored string reads back as
  // ---------------------------------------------------------------------

  /**
   * What storing keeps of a style: weight as it was, font style other than
   * Italic read as Normal, decoration only when Underline or LineThrough,
   * background and font size dropped.
   */
  function Persisted(style: SpanStyle): (p: SpanStyle)
    ensures p.fontWeight == style.fontWeight
    ensures p.fontStyle.Some? <==> style.fontStyle.Some?
    ensures p.textDecoration.Some? ==> p.textDecoration == style.textDecoration
    ensures p.background.None? && p.fontSize.None?
  {
    SpanStyle(
      style.fontWeight,
      if style.fontStyle.Some? then Some(if style.fontStyle.value == Italic then Italic else Normal) else None,
      if style.textDecoration == Some(Underline) || style.textDecoration == Some(LineThrough) then style.textDecoration else None,
      None, None)
  }

  /** The stored record of a range reads back as the range with its persisted style. */
  lemma SpanRoundTrip(r: Range)
    ensures StyleFromData(SpanToData(r).style) == Some(Persisted(r.item))
  {
    var item := r.item;
    if item.fontStyle.Some? {
      FontStyleRoundTrip(item.fontStyle.value, "");
    }
    if item.textDecoration.Some? {
      DecorationRoundTrip(item.textDecoration.value, "");
    }
  }

  /** The ranges, each with its persisted style, in the same order. */
  function PersistedRanges(spans: seq<Range>): (p: seq<Range>)
  {
    seq(|spans|, k requires 0 <= k < |spans| => Range(Persisted(spans[k].item), spans[k].start, spans[k].end))
  }

  lemma {:induction false} RangesRoundTrip(spans: seq<Range>)
    ensures RangesFromData(FromAnnotatedString(AnnotatedString([], spans)).spans) == Some(PersistedRanges(spans))
  {
    var d := FromAnnotatedString(AnnotatedString([], spans)).spans;
    if spans != [] {
      var init := spans[..|spans| - 1];
      assert d[..|d| - 1] == FromAnnotatedString(AnnotatedString([], init)).spans;
      var last := spans[|spans| - 1];
      RangesRoundTrip(init);
      assert d[|d| - 1] == SpanToData(last);
      SpanRoundTrip(last);
      assert PersistedRanges(spans) == PersistedRanges(init) + [Range(Persisted(last.item), last.start, last.end)];
    } else {
      assert d == [] && PersistedRanges(spans) == [];
    }
  }

  /**
   * Reading back what was stored never fails, and gives the same text and
   * the same ranges in the same order, each with its persisted style.
   */
  lemma RoundTrip(a: AnnotatedString)
    ensures ToAnnotatedString(FromAnnotatedString(a)) == Some(AnnotatedString(a.text, PersistedRanges(a.spanStyles)))
  {
    RangesRoundTrip(a.spanStyles);
    assert FromAnnotatedString(a).spans == FromAnnotatedString(AnnotatedString([], a.spanStyles)).spans;
  }

  /**
   * A style survives storing exactly when it has no background and no font
   * size, its font style is null, Normal or Italic, and its decoration is
   * null, Underline or LineThrough.
   */
  lemma PersistedIffStorable(style: SpanStyle)
    ensures Persisted(style) == style <==>
      && style.background.None? && style.fontSize.None?
      && (style.fontStyle.None? || style.fontStyle == Some(Normal) || style.fontStyle == Some(Italic))
      && (style.textDecoration.None? || style.textDecoration == Some(Underline) || style.textDecoration == Some(LineThrough))
  {
  }

  /** Storing twice loses nothing more than storing once. */
  lemma PersistedIdempotent(style: SpanStyle)
    ensures Persisted(Persisted(style)) == Persisted(style)
  {
    PersistedIffStorable(Persisted(style));
  }

  /** A string whose styles are all storable reads back exactly as it was. */
  lemma StorableRoundTrip(a: AnnotatedString)
    requires forall k :: 0 <= k < |a.spanStyles| ==> Persisted(a.spanStyles[k].item) == a.spanStyles[k].item
    ensures ToAnnotatedString(FromAnnotatedString(a)) == Some(a)
  {
    RoundTrip(a);
    assert PersistedRanges(a.spanStyles) == a.spanStyles;
  }
}
