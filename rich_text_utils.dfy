/**
 * The rich-text span engine of composetexteditor/utils/RichTextUtils.kt.
 *
 * Each `apply*` operation builds its result in an `AnnotatedString.Builder`
 * and is modelled as a method doing the same, proved equal to a function
 * that specifies it; the lemmas below state what those functions promise.
 */
module RichTextUtils {
  import opened Wrappers
  import opened ComposeText
  import opened Lines
  import F = FormattingActions

  function Min(a: int, b: int): int { if a <= b then a else b }
  function Max(a: int, b: int): int { if a >= b then a else b }

  // ---------------------------------------------------------------------
  // getSpanStyle
  // ---------------------------------------------------------------------

  /** The style a set of active formats gives to the text it covers. */
  function GetSpanStyle(activeFormatting: set<F.FormattingAction>): (style: SpanStyle)
    ensures style.background.Some? && style.fontSize.Some?
    ensures StyleFormats(style) == CanonicalFormats(activeFormatting)
  {
    SpanStyle(
      fontWeight := if F.Bold in activeFormatting then Some(Bold) else None,
      fontStyle := if F.Italic in activeFormatting then Some(Italic) else None,
      textDecoration :=
        if F.Underline in activeFormatting then Some(Underline)
        else if F.Strikethrough in activeFormatting then Some(LineThrough)
        else None,
      background := Some(if F.Highlight in activeFormatting then Yellow else Transparent),
      fontSize := Some(
        if F.Heading in activeFormatting then Sp24
        else if F.Subheading in activeFormatting then Sp20
        else Sp16))
  }

  /**
   * The formats a style shows, read back from it: the inverse of
   * GetSpanStyle on the formats that affect a style.
   */
  function StyleFormats(style: SpanStyle): set<F.FormattingAction>
  {
    (if style.fontWeight == Some(Bold) then {F.Bold} else {})
    + (if style.fontStyle == Some(Italic) then {F.Italic} else {})
    + (if style.textDecoration == Some(Underline) then {F.Underline}
       else if style.textDecoration == Some(LineThrough) then {F.Strikethrough}
       else {})
    + (if style.background == Some(Yellow) then {F.Highlight} else {})
    + (if style.fontSize == Some(Sp24) then {F.Heading}
       else if style.fontSize == Some(Sp20) then {F.Subheading}
       else {})
  }

  /**
   * The formats of a set that decide a style: Bold, Italic and Highlight as
   * they are, Underline winning over Strikethrough, Heading over Subheading.
   * Body and the list formats never affect a style.
   */
  function CanonicalFormats(active: set<F.FormattingAction>): set<F.FormattingAction>
  {
    active * {F.Bold, F.Italic, F.Highlight}
    + (if F.Underline in active then {F.Underline}
       else if F.Strikethrough in active then {F.Strikethrough}
       else {})
    + (if F.Heading in active then {F.Heading}
       else if F.Subheading in active then {F.Subheading}
       else {})
  }

  /** Two sets of formats give the same style exactly when their deciding formats agree. */
  lemma SameStyleIffSameCanonicalFormats(a: set<F.FormattingAction>, b: set<F.FormattingAction>)
    ensures GetSpanStyle(a) == GetSpanStyle(b) <==> CanonicalFormats(a) == CanonicalFormats(b)
  {
    if CanonicalFormats(a) == CanonicalFormats(b) {
      var ca := CanonicalFormats(a);
      assert F.Bold in a <==> F.Bold in ca;
      assert F.Italic in a <==> F.Italic in ca;
      assert F.Highlight in a <==> F.Highlight in ca;
      assert F.Underline in a <==> F.Underline in ca;
      assert F.Heading in a <==> F.Heading in ca;
      assert F.Bold in b <==> F.Bold in ca;
      assert F.Italic in b <==> F.Italic in ca;
      assert F.Highlight in b <==> F.Highlight in ca;
      assert F.Underline in b <==> F.Underline in ca;
      assert F.Heading in b <==> F.Heading in ca;
      assert (F.Underline !in a && F.Strikethrough in a) <==> F.Strikethrough in ca;
      assert (F.Underline !in b && F.Strikethrough in b) <==> F.Strikethrough in ca;
      assert (F.Heading !in a && F.Subheading in a) <==> F.Subheading in ca;
      assert (F.Heading !in b && F.Subheading in b) <==> F.Subheading in ca;
    }
  }

  // ---------------------------------------------------------------------
  // applyFormattingToSelection, applyFormattingToNewText
  // ---------------------------------------------------------------------

  /** The text and every range kept, in order, and one range over the selection appended. */
  function SelectionFormatted(a: AnnotatedString, selection: TextRange, activeFormatting: set<F.FormattingAction>): (r: AnnotatedString)
    ensures r.text == a.text
    ensures |r.spanStyles| == |a.spanStyles| + 1 && r.spanStyles[..|a.spanStyles|] == a.spanStyles
    ensures r.spanStyles[|a.spanStyles|] == Range(GetSpanStyle(activeFormatting), selection.start, selection.end)
  {
    AnnotatedString(a.text, a.spanStyles + [Range(GetSpanStyle(activeFormatting), selection.start, selection.end)])
  }

  method ApplyFormattingToSelection(a: AnnotatedString, selection: TextRange, activeFormatting: set<F.FormattingAction>)
    returns (r: AnnotatedString)
    ensures r == SelectionFormatted(a, selection, activeFormatting)
  {
    var builder := new Builder.FromAnnotatedString(a);
    var spanStyle := GetSpanStyle(activeFormatting);
    builder.AddStyle(spanStyle, selection.start, selection.end);
    r := builder.ToAnnotatedString();
  }

  /**
   * The added text appended, every range kept, and one range appended over
   * |addedText| characters from startIndex.
   */
  function NewTextFormatted(a: AnnotatedString, addedText: string, startIndex: int, activeFormatting: set<F.FormattingAction>): (r: AnnotatedString)
    ensures r.text == a.text + addedText
    ensures |r.spanStyles| == |a.spanStyles| + 1 && r.spanStyles[..|a.spanStyles|] == a.spanStyles
    ensures var added := r.spanStyles[|a.spanStyles|];
      added.item == GetSpanStyle(activeFormatting) && added.start == startIndex
      && added.end - added.start == |addedText|
  {
    AnnotatedString(a.text + addedText,
      a.spanStyles + [Range(GetSpanStyle(activeFormatting), startIndex, startIndex + |addedText|)])
  }

  method ApplyFormattingToNewText(a: AnnotatedString, addedText: string, startIndex: int, activeFormatting: set<F.FormattingAction>)
    returns (r: AnnotatedString)
    ensures r == NewTextFormatted(a, addedText, startIndex, activeFormatting)
  {
    var builder := new Builder.FromAnnotatedString(a);
    var spanStyle := GetSpanStyle(activeFormatting);
    builder.Append(addedText);
    builder.AddStyle(spanStyle, startIndex, startIndex + |addedText|);
    r := builder.ToAnnotatedString();
  }

  // ---------------------------------------------------------------------
  // applyFormattingToTextRemoval
  // ---------------------------------------------------------------------

  /** What one range becomes in a text of the given length: dropped, or its end clamped. */
  function Clamped(span: Range, length: int): seq<Range>
  {
    if span.start < length then [Range(span.item, span.start, Min(span.end, length))] else []
  }

  /** The ranges that start inside a text of the given length, clamped to it, in order. */
  function Truncated(spans: seq<Range>, length: int): seq<Range>
  {
    if spans == [] then []
    else Truncated(spans[..|spans| - 1], length) + Clamped(spans[|spans| - 1], length)
  }

  /** No more ranges than before, and every one starts and ends inside the text. */
  lemma {:induction false} TruncatedInText(spans: seq<Range>, length: int)
    ensures var r := Truncated(spans, length);
      && |r| <= |spans|
      && forall k :: 0 <= k < |r| ==> r[k].start < length && r[k].end <= length
  {
    if spans != [] {
      TruncatedInText(spans[..|spans| - 1], length);
    }
  }

  /** `applyFormattingToTextRemoval`: the new text, with the old ranges truncated to it. */
  function TextRemovalFormatted(a: AnnotatedString, newText: string): AnnotatedString
  {
    AnnotatedString(newText, Truncated(a.spanStyles, |newText|))
  }

  method ApplyFormattingToTextRemoval(a: AnnotatedString, newText: string) returns (r: AnnotatedString)
    ensures r == TextRemovalFormatted(a, newText)
  {
    var builder := new Builder();
    builder.Append(newText);
    var j := 0;
    while j < |a.spanStyles|
      invariant 0 <= j <= |a.spanStyles|
      invariant builder.text == newText
      invariant builder.spans == Truncated(a.spanStyles[..j], |newText|)
    {
      var span := a.spanStyles[j];
      if span.start < |newText| {
        builder.AddStyle(span.item, span.start, Min(span.end, |newText|));
      }
      assert a.spanStyles[..j + 1][..j] == a.spanStyles[..j];
      j := j + 1;
    }
    assert a.spanStyles[..j] == a.spanStyles;
    r := builder.ToAnnotatedString();
  }

  /** Truncating keeps order: the ranges of a concatenation are the concatenated ranges. */
  lemma {:induction false} TruncatedAppend(s1: seq<Range>, s2: seq<Range>, length: int)
    ensures Truncated(s1 + s2, length) == Truncated(s1, length) + Truncated(s2, length)
    decreases |s2|
  {
    if s2 == [] {
      assert s1 + s2 == s1;
    } else {
      var s2' := s2[..|s2| - 1];
      assert (s1 + s2)[..|s1 + s2| - 1] == s1 + s2';
      TruncatedAppend(s1, s2', length);
    }
  }

  /**
   * Range j survives exactly when it starts inside the new text; a survivor
   * keeps its start and style, its end is clamped, and it comes right after
   * the survivors of the ranges before it.
   */
  lemma TruncatedKeeps(spans: seq<Range>, length: int, j: nat)
    requires j < |spans|
    ensures var before := Truncated(spans[..j], length);
      var r := Truncated(spans, length);
      if spans[j].start < length then
        |before| < |r| && r[|before|] == Range(spans[j].item, spans[j].start, Min(spans[j].end, length))
      else
        Truncated(spans[..j + 1], length) == before
  {
    assert spans == spans[..j] + [spans[j]] + spans[j + 1..];
    TruncatedAppend(spans[..j] + [spans[j]], spans[j + 1..], length);
    TruncatedAppend(spans[..j], [spans[j]], length);
    assert [spans[j]][..0] == [];
    assert spans[..j + 1] == spans[..j] + [spans[j]];
  }

  /** Ranges that already fit a text of the given length pass through unchanged. */
  lemma {:induction false} TruncatedFitting(spans: seq<Range>, length: int)
    requires forall k :: 0 <= k < |spans| ==> spans[k].start < length && spans[k].end <= length
    ensures Truncated(spans, length) == spans
  {
    if spans != [] {
      var init := spans[..|spans| - 1];
      TruncatedFitting(init, length);
      assert Clamped(spans[|spans| - 1], length) == [spans[|spans| - 1]];
      assert spans == init + [spans[|spans| - 1]];
    }
  }

  // ---------------------------------------------------------------------
  // The line prefixes of applyListFormatting and applyDynamicListFormatting
  // ---------------------------------------------------------------------

  const BulletPrefix: string := "\U{2022} "

  /** Every character is a decimal digit. */
  predicate AllDigits(s: string)
  {
    forall k :: 0 <= k < |s| ==> '0' <= s[k] <= '9'
  }

  /** Kotlin's decimal `toString()` of a non-negative number. */
  function NatToString(n: nat): (s: string)
    ensures |s| >= 1 && AllDigits(s)
  {
    var digit := ['0' + (n % 10) as char];
    if n < 10 then digit else NatToString(n / 10) + digit
  }

  /** The number a string of decimal digits stands for. */
  function DecimalValue(s: string): nat
    requires AllDigits(s)
  {
    if s == [] then 0 else DecimalValue(s[..|s| - 1]) * 10 + (s[|s| - 1] as int - '0' as int)
  }

  /** The digits spell n, with no leading zero unless n is 0. */
  lemma {:induction false} NatToStringValue(n: nat)
    ensures DecimalValue(NatToString(n)) == n
    ensures NatToString(n)[0] == '0' ==> n == 0
  {
    var s := NatToString(n);
    var digit := ['0' + (n % 10) as char];
    if n < 10 {
      assert s == digit && s[..0] == [];
    } else {
      var init := NatToString(n / 10);
      assert s == init + digit && s[..|s| - 1] == init;
      NatToStringValue(n / 10);
      assert s[0] == init[0];
    }
  }

  /**
   * The prefix line `index` gets: "• " with BulletList active, otherwise
   * "{index + 1}. " with NumberedList active, and only on the cursor's line.
   */
  function LinePrefix(activeFormatting: set<F.FormattingAction>, index: nat, cursorInLine: bool): (p: string)
    ensures |p| > 0 <==> cursorInLine && (F.BulletList in activeFormatting || F.NumberedList in activeFormatting)
    ensures |p| > 0 ==> p[|p| - 1] == ' '
  {
    if F.BulletList in activeFormatting then (if cursorInLine then BulletPrefix else "")
    else if F.NumberedList in activeFormatting then (if cursorInLine then NatToString(index + 1) + ". " else "")
    else ""
  }

  /** The prefix the new line after line `index` gets when the cursor ends that line. */
  function NextLinePrefix(activeFormatting: set<F.FormattingAction>, index: nat): string
  {
    if F.BulletList in activeFormatting then BulletPrefix
    else if F.NumberedList in activeFormatting then NatToString(index + 2) + ". "
    else ""
  }

  /**
   * With NumberedList active and BulletList not, the prefix on the cursor's
   * line is the line's 1-based number in decimal, without leading zeros,
   * followed by ". ".
   */
  lemma NumberedPrefix(active: set<F.FormattingAction>, index: nat)
    requires F.NumberedList in active && F.BulletList !in active
    ensures var p := LinePrefix(active, index, true);
      && |p| >= 3 && p[|p| - 2..] == ". " && p[0] != '0'
      && AllDigits(p[..|p| - 2])
      && DecimalValue(p[..|p| - 2]) == index + 1
  {
    var digits := NatToString(index + 1);
    var p := LinePrefix(active, index, true);
    assert p == digits + ". ";
    assert p[..|p| - 2] == digits && p[|p| - 2..] == ". " && p[0] == digits[0];
    NatToStringValue(index + 1);
  }

  /** Only the line holding the cursor can get a prefix. */
  lemma PrefixOnlyOnCursorLine(lines: seq<string>, active: set<F.FormattingAction>, cursor: int, i: nat, j: nat)
    requires i < |lines| && j < |lines|
    requires LinePrefix(active, i, InLine(lines, i, cursor)) != ""
    requires LinePrefix(active, j, InLine(lines, j, cursor)) != ""
    ensures i == j
  {
    AtMostOneLine(lines, i, j, cursor);
  }

  // ---------------------------------------------------------------------
  // The ranges both list functions copy, line by line
  // ---------------------------------------------------------------------

  /**
   * A range that overlaps the line [lineStart, lineEnd], clipped to the line
   * and moved by `shift`; nothing for a range that misses the line.
   */
  function ClipToLine(span: Range, lineStart: int, lineEnd: int, shift: int): seq<Range>
  {
    if span.start < lineEnd && span.end > lineStart then
      [Range(span.item, Max(span.start, lineStart) + shift, Min(span.end, lineEnd) + shift)]
    else []
  }

  /** The ranges copied for one line, in the order of the original ranges. */
  function LineRanges(spans: seq<Range>, lineStart: int, lineEnd: int, shift: int): seq<Range>
    requires lineStart <= lineEnd
  {
    if spans == [] then []
    else LineRanges(spans[..|spans| - 1], lineStart, lineEnd, shift) + ClipToLine(spans[|spans| - 1], lineStart, lineEnd, shift)
  }

  /**
   * At most one copy per original range, and every copy lies inside the
   * line, moved by `shift`.
   */
  lemma {:induction false} LineRangesInLine(spans: seq<Range>, lineStart: int, lineEnd: int, shift: int)
    requires lineStart <= lineEnd
    ensures var r := LineRanges(spans, lineStart, lineEnd, shift);
      && |r| <= |spans|
      && forall k :: 0 <= k < |r| ==>
        lineStart + shift <= r[k].start <= lineEnd + shift && lineStart + shift <= r[k].end <= lineEnd + shift
  {
    if spans != [] {
      LineRangesInLine(spans[..|spans| - 1], lineStart, lineEnd, shift);
    }
  }

  /** The inner loop of both list functions: copy the ranges that overlap one line. */
  method AddLineRanges(builder: Builder, spans: seq<Range>, lineStart: int, lineEnd: int, shift: int)
    requires lineStart <= lineEnd
    modifies builder
    ensures builder.text == old(builder.text)
    ensures builder.spans == old(builder.spans) + LineRanges(spans, lineStart, lineEnd, shift)
  {
    var j := 0;
    while j < |spans|
      invariant 0 <= j <= |spans|
      invariant builder.text == old(builder.text)
      invariant builder.spans == old(builder.spans) + LineRanges(spans[..j], lineStart, lineEnd, shift)
    {
      var span := spans[j];
      if span.start < lineEnd && span.end > lineStart {
        builder.AddStyle(span.item, Max(span.start, lineStart) + shift, Min(span.end, lineEnd) + shift);
      }
      assert spans[..j + 1][..j] == spans[..j];
      j := j + 1;
    }
    assert spans[..j] == spans;
  }

  /**
   * The ranges both list functions produce for their first n lines: each
   * line copies the ranges overlapping it, moved by that line's own prefix
   * only (prefixes of earlier lines are not added).
   */
  function ShiftedSpans(spans: seq<Range>, lines: seq<string>, cursor: int, active: set<F.FormattingAction>, n: nat): seq<Range>
    requires n <= |lines|
  {
    if n == 0 then []
    else
      ShiftedSpans(spans, lines, cursor, active, n - 1)
      + LineRanges(spans, LineStart(lines, n - 1), LineEnd(lines, n - 1), |LinePrefix(active, n - 1, InLine(lines, n - 1, cursor))|)
  }

  /**
   * A non-empty range inside one line is copied for that line only, moved by
   * that line's prefix; for every other line it yields nothing.
   */
  lemma RangeInOneLine(span: Range, lines: seq<string>, k: nat, j: nat, shift: int)
    requires k < |lines| && j < |lines|
    requires LineStart(lines, k) <= span.start < span.end <= LineEnd(lines, k)
    ensures ClipToLine(span, LineStart(lines, j), LineEnd(lines, j), shift)
      == if j == k then [Range(span.item, span.start + shift, span.end + shift)] else []
  {
    if j < k {
      LineStartGrows(lines, j, k);
    } else if k < j {
      LineStartGrows(lines, k, j);
    }
  }

  /** For a single range, the copies for one line are its clip to that line. */
  lemma LineRangesSingle(span: Range, lineStart: int, lineEnd: int, shift: int)
    requires lineStart <= lineEnd
    ensures LineRanges([span], lineStart, lineEnd, shift) == ClipToLine(span, lineStart, lineEnd, shift)
  {
    assert [span][..0] == [];
    assert LineRanges([span][..0], lineStart, lineEnd, shift) == [];
  }

  lemma {:induction false} RangeInLineUpTo(span: Range, lines: seq<string>, cursor: int, active: set<F.FormattingAction>, k: nat, n: nat)
    requires k < |lines| && n <= |lines|
    requires LineStart(lines, k) <= span.start < span.end <= LineEnd(lines, k)
    ensures n <= k ==> ShiftedSpans([span], lines, cursor, active, n) == []
    ensures n > k ==> var shift := |LinePrefix(active, k, InLine(lines, k, cursor))|;
      ShiftedSpans([span], lines, cursor, active, n) == [Range(span.item, span.start + shift, span.end + shift)]
  {
    if n > 0 {
      var m := n - 1;
      var shift := |LinePrefix(active, m, InLine(lines, m, cursor))|;
      var piece := LineRanges([span], LineStart(lines, m), LineEnd(lines, m), shift);
      var before := ShiftedSpans([span], lines, cursor, active, m);
      assert ShiftedSpans([span], lines, cursor, active, n) == before + piece;
      assert piece == ClipToLine(span, LineStart(lines, m), LineEnd(lines, m), shift) by {
        LineRangesSingle(span, LineStart(lines, m), LineEnd(lines, m), shift);
      }
      if m < k {
        assert before == [] by {
          RangeInLineUpTo(span, lines, cursor, active, k, m);
        }
        assert piece == [] by {
          RangeInOneLine(span, lines, k, m, shift);
        }
      } else if m == k {
        assert before == [] by {
          RangeInLineUpTo(span, lines, cursor, active, k, m);
        }
        assert piece == [Range(span.item, span.start + shift, span.end + shift)] by {
          RangeInOneLine(span, lines, k, m, shift);
        }
      } else {
        RangeInLineUpTo(span, lines, cursor, active, k, m);
        assert piece == [] by {
          RangeInOneLine(span, lines, k, m, shift);
        }
        assert before + [] == before;
      }
    }
  }

  /**
   * A non-empty range inside line k comes out of either list function
   * exactly once, moved by line k's own prefix.
   */
  lemma RangeInLineCopiedOnce(span: Range, lines: seq<string>, cursor: int, active: set<F.FormattingAction>, k: nat)
    requires k < |lines|
    requires LineStart(lines, k) <= span.start < span.end <= LineEnd(lines, k)
    ensures var shift := |LinePrefix(active, k, InLine(lines, k, cursor))|;
      ShiftedSpans([span], lines, cursor, active, |lines|) == [Range(span.item, span.start + shift, span.end + shift)]
  {
    RangeInLineUpTo(span, lines, cursor, active, k, |lines|);
  }

  // ---------------------------------------------------------------------
  // applyListFormatting
  // ---------------------------------------------------------------------

  /**
   * What line i contributes to the text: its prefix and the line, a "\n"
   * after all but the last line or when the cursor ends the line, and then
   * the next line's prefix, if any, when the cursor ends the line.
   */
  function ListLineText(lines: seq<string>, i: nat, cursor: int, active: set<F.FormattingAction>): string
    requires i < |lines|
  {
    var inLine := InLine(lines, i, cursor);
    var atEnd := inLine && cursor == LineEnd(lines, i);
    LinePrefix(active, i, inLine) + lines[i]
      + (if i < |lines| - 1 || atEnd then "\n" else "")
      + (if atEnd && |NextLinePrefix(active, i)| > 0 then NextLinePrefix(active, i) else "")
  }

  /** The result of `applyListFormatting(annotatedString, cursorPosition, activeFormatting)`. */
  function ListFormatted(a: AnnotatedString, cursor: int, active: set<F.FormattingAction>): AnnotatedString
  {
    var lines := SplitLines(a.text);
    AnnotatedString(Concat(ListTexts(lines, cursor, active), |lines|), ShiftedSpans(a.spanStyles, lines, cursor, active, |lines|))
  }

  /**
   * One pass of the loop in `applyListFormatting`: line `index` with its
   * prefix and ranges, its "\n", and the next line's prefix when the cursor
   * ends the line.
   */
  method AppendListLine(builder: Builder, spanStyles: seq<Range>, lines: seq<string>, index: nat, currentLineStart: int,
                        cursorPosition: int, activeFormatting: set<F.FormattingAction>)
    requires index < |lines| && currentLineStart == LineStart(lines, index)
    modifies builder
    ensures builder.text == old(builder.text) + ListLineText(lines, index, cursorPosition, activeFormatting)
    ensures builder.spans == old(builder.spans)
      + LineRanges(spanStyles, LineStart(lines, index), LineEnd(lines, index),
                   |LinePrefix(activeFormatting, index, InLine(lines, index, cursorPosition))|)
  {
    ghost var built := builder.text;
    var isCursorAtLineEnd := false;
    var nextLinePrefix := "";
    var line := lines[index];
    var currentLineEnd := currentLineStart + |line|;
    var isCursorInLine := currentLineStart <= cursorPosition <= currentLineEnd;
    var prefix := LinePrefix(activeFormatting, index, isCursorInLine);
    builder.Append(prefix);
    builder.Append(line);
    ghost var piece := prefix + line;
    AppendAssoc3(built, prefix, line);
    AddLineRanges(builder, spanStyles, currentLineStart, currentLineEnd, |prefix|);
    if isCursorInLine && cursorPosition == currentLineEnd {
      isCursorAtLineEnd := true;
      nextLinePrefix := NextLinePrefix(activeFormatting, index);
    } else {
      isCursorAtLineEnd := false;
    }
    if index < |lines| - 1 || isCursorAtLineEnd {
      builder.Append("\n");
      AppendAssoc3(built, piece, "\n");
      piece := piece + "\n";
    }
    if isCursorAtLineEnd && |nextLinePrefix| > 0 {
      builder.Append(nextLinePrefix);
      AppendAssoc3(built, piece, nextLinePrefix);
      piece := piece + nextLinePrefix;
    }
    assert piece == ListLineText(lines, index, cursorPosition, activeFormatting);
  }

  method ApplyListFormatting(a: AnnotatedString, cursorPosition: int, activeFormatting: set<F.FormattingAction>)
    returns (r: AnnotatedString)
    ensures r == ListFormatted(a, cursorPosition, activeFormatting)
  {
    var builder := new Builder();
    var currentLineStart := 0;
    var lines := SplitLines(a.text);
    var index := 0;
    while index < |lines|
      invariant 0 <= index <= |lines|
      invariant currentLineStart == LineStart(lines, index)
      invariant builder.text == Concat(ListTexts(lines, cursorPosition, activeFormatting), index)
      invariant builder.spans == ShiftedSpans(a.spanStyles, lines, cursorPosition, activeFormatting, index)
    {
      AppendListLine(builder, a.spanStyles, lines, index, currentLineStart, cursorPosition, activeFormatting);
      currentLineStart := currentLineStart + |lines[index]| + 1;
      index := index + 1;
    }
    r := builder.ToAnnotatedString();
  }

  /** What each line contributes; the loop builds their concatenation. */
  function ListTexts(lines: seq<string>, cursor: int, active: set<F.FormattingAction>): (ps: seq<string>)
    ensures |ps| == |lines|
    ensures forall i :: 0 <= i < |ps| ==> ps[i] == ListLineText(lines, i, cursor, active)
  {
    seq(|lines|, i requires 0 <= i < |lines| => ListLineText(lines, i, cursor, active))
  }

  /** Off the cursor's line, a line contributes exactly what it holds in the text. */
  lemma ListLinePlain(lines: seq<string>, i: nat, cursor: int, active: set<F.FormattingAction>)
    requires i < |lines| && !InLine(lines, i, cursor)
    ensures ListLineText(lines, i, cursor, active) == PlainPiece(lines, i)
  {
    assert "" + lines[i] == lines[i];
  }

  /** On the cursor's line, short of its end, the line gets its prefix and nothing more. */
  lemma ListLineInside(lines: seq<string>, i: nat, cursor: int, active: set<F.FormattingAction>)
    requires i < |lines| && InLine(lines, i, cursor) && cursor != LineEnd(lines, i)
    ensures ListLineText(lines, i, cursor, active) == LinePrefix(active, i, true) + PlainPiece(lines, i)
  {
    var sep := if i < |lines| - 1 then "\n" else "";
    AppendAssoc3(LinePrefix(active, i, true), lines[i], sep);
  }

  /** At the end of the cursor's line, the line gets its prefix, one "\n" and the next line's prefix. */
  lemma ListLineAtEnd(lines: seq<string>, i: nat, cursor: int, active: set<F.FormattingAction>)
    requires i < |lines| && cursor == LineEnd(lines, i)
    ensures ListLineText(lines, i, cursor, active) == LinePrefix(active, i, true) + lines[i] + "\n" + NextLinePrefix(active, i)
  {
  }

  lemma ListOtherLinesPlain(t: string, cursor: int, active: set<F.FormattingAction>, k: nat)
    requires k < |SplitLines(t)| && InLine(SplitLines(t), k, cursor)
    ensures forall i :: 0 <= i < |SplitLines(t)| && i != k ==>
      ListTexts(SplitLines(t), cursor, active)[i] == PlainPiece(SplitLines(t), i)
  {
    var lines := SplitLines(t);
    forall i | 0 <= i < |lines| && i != k
      ensures ListTexts(lines, cursor, active)[i] == PlainPiece(lines, i)
    {
      if InLine(lines, i, cursor) {
        AtMostOneLine(lines, i, k, cursor);
      }
      ListLinePlain(lines, i, cursor, active);
    }
  }

  /**
   * With the cursor at the end of line k, the text comes out with the prefix
   * inserted at the start of line k, and one "\n" and the next line's prefix
   * right after the line; the rest follows after that line's own "\n".
   */
  lemma ListTextCursorAtLineEnd(a: AnnotatedString, cursor: int, active: set<F.FormattingAction>, k: nat)
    requires k < |SplitLines(a.text)| && cursor == LineEnd(SplitLines(a.text), k)
    ensures var t := a.text;
      var ls := LineStart(SplitLines(t), k);
      && 0 <= ls <= cursor <= |t|
      && ListFormatted(a, cursor, active).text ==
        t[..ls] + (LinePrefix(active, k, true) + t[ls..cursor] + "\n" + NextLinePrefix(active, k)) + t[Min(cursor + 1, |t|)..]
  {
    var t := a.text;
    var lines := SplitLines(t);
    var ps := ListTexts(lines, cursor, active);
    var ls := LineStart(lines, k);
    var next := PieceStart(lines, k + 1);
    assert 0 <= ls <= cursor <= |t| && t[ls..cursor] == lines[k] && next == Min(cursor + 1, |t|) by {
      LineInText(t, k);
    }
    ListLineAtEnd(lines, k, cursor, active);
    assert Concat(ps, |ps|) == t[..ls] + ps[k] + t[next..] by {
      SplitLayout(t);
      ListOtherLinesPlain(t, cursor, active, k);
      SpliceLine(t, lines, ps, k);
    }
  }

  /**
   * With the cursor on line k but not at its end, the text comes out with the
   * prefix inserted at the start of line k and nothing else changed.
   */
  lemma ListTextCursorInsideLine(a: AnnotatedString, cursor: int, active: set<F.FormattingAction>, k: nat)
    requires k < |SplitLines(a.text)| && InLine(SplitLines(a.text), k, cursor)
    requires cursor != LineEnd(SplitLines(a.text), k)
    ensures var t := a.text;
      var ls := LineStart(SplitLines(t), k);
      && 0 <= ls <= |t|
      && ListFormatted(a, cursor, active).text == t[..ls] + LinePrefix(active, k, true) + t[ls..]
  {
    var t := a.text;
    var lines := SplitLines(t);
    var ps := ListTexts(lines, cursor, active);
    ListLineInside(lines, k, cursor, active);
    SplitLayout(t);
    ListOtherLinesPlain(t, cursor, active, k);
    InsertAtLine(t, lines, ps, k, LinePrefix(active, k, true));
  }

  /** With the cursor outside the text no line gets a prefix and the text is unchanged. */
  lemma ListTextCursorOutside(a: AnnotatedString, cursor: int, active: set<F.FormattingAction>)
    requires cursor < 0 || cursor > |a.text|
    ensures ListFormatted(a, cursor, active).text == a.text
  {
    var lines := SplitLines(a.text);
    var ps := ListTexts(lines, cursor, active);
    forall i | 0 <= i < |ps|
      ensures ps[i] == PlainPiece(lines, i)
    {
      NoLineOutside(a.text, cursor, i);
      ListLinePlain(lines, i, cursor, active);
    }
    SplitLayout(a.text);
    PlainAll(a.text, lines, ps);
  }

  /**
   * Without a list format, a cursor ending line k gives the line its "\n"
   * and nothing else: the text between the line and its own "\n" stays
   * as it was.
   */
  lemma NoListAtLineEnd(a: AnnotatedString, cursor: int, active: set<F.FormattingAction>, k: nat)
    requires F.BulletList !in active && F.NumberedList !in active
    requires k < |SplitLines(a.text)| && cursor == LineEnd(SplitLines(a.text), k)
    ensures 0 <= cursor <= |a.text|
    ensures ListFormatted(a, cursor, active).text == a.text[..cursor] + "\n" + a.text[Min(cursor + 1, |a.text|)..]
  {
    var t := a.text;
    var ls := LineStart(SplitLines(t), k);
    assert 0 <= ls <= cursor <= |t| by {
      LineInText(t, k);
    }
    var rest := t[Min(cursor + 1, |t|)..];
    assert ListFormatted(a, cursor, active).text == t[..ls] + ("" + t[ls..cursor] + "\n" + "") + rest by {
      ListTextCursorAtLineEnd(a, cursor, active, k);
    }
    NewLineAfter(t, ls, cursor, rest);
  }

  /** Splitting the text before the end of a line and adding a "\n" after it. */
  lemma NewLineAfter(t: string, ls: int, cursor: int, rest: string)
    requires 0 <= ls <= cursor <= |t|
    ensures t[..ls] + ("" + t[ls..cursor] + "\n" + "") + rest == t[..cursor] + "\n" + rest
  {
    assert "" + t[ls..cursor] + "\n" + "" == t[ls..cursor] + "\n";
    assert t[..cursor] == t[..ls] + t[ls..cursor];
    AppendAssoc3(t[..ls], t[ls..cursor], "\n");
  }

  /** Without a list format, a cursor inside a line changes nothing. */
  lemma NoListInsideLine(a: AnnotatedString, cursor: int, active: set<F.FormattingAction>, k: nat)
    requires F.BulletList !in active && F.NumberedList !in active
    requires k < |SplitLines(a.text)| && InLine(SplitLines(a.text), k, cursor)
    requires cursor != LineEnd(SplitLines(a.text), k)
    ensures cursor < |a.text| && ListFormatted(a, cursor, active).text == a.text
  {
    var t := a.text;
    assert cursor < |t| by {
      LineInText(t, k);
    }
    ListTextCursorInsideLine(a, cursor, active, k);
    SliceSplit(t, 0, LineStart(SplitLines(t), k));
  }

  /**
   * With neither BulletList nor NumberedList active, the text only gains a
   * "\n" when the cursor is at its very end.
   */
  lemma ListTextWithoutListFormat(a: AnnotatedString, cursor: int, active: set<F.FormattingAction>)
    requires F.BulletList !in active && F.NumberedList !in active
    ensures cursor == |a.text| ==> ListFormatted(a, cursor, active).text == a.text + "\n"
    ensures cursor != |a.text| ==> ListFormatted(a, cursor, active).text == a.text
  {
    var t := a.text;
    if 0 <= cursor <= |t| {
      SomeLineHolds(t, cursor);
      var lines := SplitLines(t);
      var k :| 0 <= k < |lines| && InLine(lines, k, cursor);
      if cursor == LineEnd(lines, k) {
        NoListLineEndInText(a, cursor, active, k);
      } else {
        NoListInsideLine(a, cursor, active, k);
      }
    } else {
      ListTextCursorOutside(a, cursor, active);
    }
  }

  /** Without a list format, a cursor ending a line adds a "\n" only when it ends the text. */
  lemma NoListLineEndInText(a: AnnotatedString, cursor: int, active: set<F.FormattingAction>, k: nat)
    requires F.BulletList !in active && F.NumberedList !in active
    requires k < |SplitLines(a.text)| && cursor == LineEnd(SplitLines(a.text), k)
    ensures cursor == |a.text| ==> ListFormatted(a, cursor, active).text == a.text + "\n"
    ensures cursor != |a.text| ==> ListFormatted(a, cursor, active).text == a.text
  {
    var t := a.text;
    var r := ListFormatted(a, cursor, active).text;
    assert 0 <= cursor <= |t| && r == t[..cursor] + "\n" + t[Min(cursor + 1, |t|)..] by {
      NoListAtLineEnd(a, cursor, active, k);
    }
    if cursor < |t| {
      assert t[cursor] == '\n' by {
        LineInText(t, k);
      }
      NewLineRestored(t, cursor);
    } else {
      assert t[..cursor] == t && t[cursor..] == [];
    }
  }

  lemma NewLineRestored(t: string, i: int)
    requires 0 <= i < |t| && t[i] == '\n'
    ensures t[..i] + "\n" + t[i + 1..] == t
  {
    assert t == t[..i] + t[i..i + 1] + t[i + 1..];
  }

  // ---------------------------------------------------------------------
  // applyDynamicListFormatting
  // ---------------------------------------------------------------------

  /** What line i contributes: the prefix on the cursor's line only, the line, and its "\n". */
  function DynamicLineText(lines: seq<string>, i: nat, cursor: int, active: set<F.FormattingAction>): string
    requires i < |lines|
  {
    (if InLine(lines, i, cursor) then LinePrefix(active, i, true) else "") + lines[i]
      + (if i < |lines| - 1 then "\n" else "")
  }

  /** The result of `applyDynamicListFormatting(newText, annotatedString, cursorPosition, activeFormatting)`. */
  function DynamicListFormatted(newText: string, a: AnnotatedString, cursor: int, active: set<F.FormattingAction>): AnnotatedString
  {
    var lines := SplitLines(newText);
    AnnotatedString(Concat(DynamicTexts(lines, cursor, active), |lines|), ShiftedSpans(a.spanStyles, lines, cursor, active, |lines|))
  }

  /** One pass of the loop in `applyDynamicListFormatting`: line `index` with its prefix, ranges and "\n". */
  method AppendDynamicLine(builder: Builder, spanStyles: seq<Range>, lines: seq<string>, index: nat, currentLineStart: int,
                           cursorPosition: int, activeFormatting: set<F.FormattingAction>)
    requires index < |lines| && currentLineStart == LineStart(lines, index)
    modifies builder
    ensures builder.text == old(builder.text) + DynamicLineText(lines, index, cursorPosition, activeFormatting)
    ensures builder.spans == old(builder.spans)
      + LineRanges(spanStyles, LineStart(lines, index), LineEnd(lines, index),
                   |LinePrefix(activeFormatting, index, InLine(lines, index, cursorPosition))|)
  {
    ghost var built := builder.text;
    ghost var piece := "";
    var line := lines[index];
    var isCursorInLine := currentLineStart <= cursorPosition <= currentLineStart + |line|;
    var prefix := LinePrefix(activeFormatting, index, isCursorInLine);
    if isCursorInLine {
      builder.Append(prefix);
      piece := prefix;
    }
    builder.Append(line);
    AppendAssoc3(built, piece, line);
    piece := piece + line;
    AddLineRanges(builder, spanStyles, currentLineStart, currentLineStart + |line|, |prefix|);
    if index < |lines| - 1 {
      builder.Append("\n");
      AppendAssoc3(built, piece, "\n");
      piece := piece + "\n";
    }
    assert piece == DynamicLineText(lines, index, cursorPosition, activeFormatting);
  }

  method ApplyDynamicListFormatting(newText: string, a: AnnotatedString, cursorPosition: int, activeFormatting: set<F.FormattingAction>)
    returns (r: AnnotatedString)
    ensures r == DynamicListFormatted(newText, a, cursorPosition, activeFormatting)
  {
    var builder := new Builder();
    var lines := SplitLines(newText);
    var currentLineStart := 0;
    var index := 0;
    while index < |lines|
      invariant 0 <= index <= |lines|
      invariant currentLineStart == LineStart(lines, index)
      invariant builder.text == Concat(DynamicTexts(lines, cursorPosition, activeFormatting), index)
      invariant builder.spans == ShiftedSpans(a.spanStyles, lines, cursorPosition, activeFormatting, index)
    {
      AppendDynamicLine(builder, a.spanStyles, lines, index, currentLineStart, cursorPosition, activeFormatting);
      currentLineStart := currentLineStart + |lines[index]| + 1;
      index := index + 1;
    }
    r := builder.ToAnnotatedString();
  }

  /** What each line contributes; the loop builds their concatenation. */
  function DynamicTexts(lines: seq<string>, cursor: int, active: set<F.FormattingAction>): (ps: seq<string>)
    ensures |ps| == |lines|
    ensures forall i :: 0 <= i < |ps| ==> ps[i] == DynamicLineText(lines, i, cursor, active)
  {
    seq(|lines|, i requires 0 <= i < |lines| => DynamicLineText(lines, i, cursor, active))
  }

  /** A line gets its prefix in front of what it holds in the text. */
  lemma DynamicLinePiece(lines: seq<string>, i: nat, cursor: int, active: set<F.FormattingAction>)
    requires i < |lines|
    ensures DynamicLineText(lines, i, cursor, active) == LinePrefix(active, i, InLine(lines, i, cursor)) + PlainPiece(lines, i)
  {
    var prefix := if InLine(lines, i, cursor) then LinePrefix(active, i, true) else "";
    var sep := if i < |lines| - 1 then "\n" else "";
    AppendAssoc3(prefix, lines[i], sep);
  }

  /** With the cursor on line k, the new text comes out with line k's prefix inserted at its start. */
  lemma DynamicTextAtCursorLine(newText: string, a: AnnotatedString, cursor: int, active: set<F.FormattingAction>, k: nat)
    requires k < |SplitLines(newText)| && InLine(SplitLines(newText), k, cursor)
    ensures var ls := LineStart(SplitLines(newText), k);
      && 0 <= ls <= |newText|
      && DynamicListFormatted(newText, a, cursor, active).text
        == newText[..ls] + LinePrefix(active, k, true) + newText[ls..]
  {
    var lines := SplitLines(newText);
    var ps := DynamicTexts(lines, cursor, active);
    forall i | 0 <= i < |ps|
      ensures ps[i] == LinePrefix(active, i, InLine(lines, i, cursor)) + PlainPiece(lines, i)
    {
      DynamicLinePiece(lines, i, cursor, active);
    }
    forall i | 0 <= i < |ps| && i != k
      ensures ps[i] == PlainPiece(lines, i)
    {
      if InLine(lines, i, cursor) {
        AtMostOneLine(lines, i, k, cursor);
      }
    }
    SplitLayout(newText);
    InsertAtLine(newText, lines, ps, k, LinePrefix(active, k, true));
  }

  /** With neither list format active, the text comes out as the new text itself. */
  lemma DynamicTextWithoutListFormat(newText: string, a: AnnotatedString, cursor: int, active: set<F.FormattingAction>)
    requires F.BulletList !in active && F.NumberedList !in active
    ensures DynamicListFormatted(newText, a, cursor, active).text == newText
  {
    var lines := SplitLines(newText);
    var ps := DynamicTexts(lines, cursor, active);
    forall i | 0 <= i < |ps|
      ensures ps[i] == PlainPiece(lines, i)
    {
      DynamicLinePiece(lines, i, cursor, active);
    }
    SplitLayout(newText);
    PlainAll(newText, lines, ps);
  }

  // ---------------------------------------------------------------------
  // Ranges on the lines after an inserted prefix
  // ---------------------------------------------------------------------

  /** `split` of "a\nb", one character at a time from the end. */
  lemma TwoLineSplit()
    ensures SplitLines("a\nb") == ["a", "b"]
  {
    SplitFirstLine();
    var t := "a\nb";
    assert t[..2] == "a\n";
    assert "" + "b" == "b";
  }

  lemma SplitFirstLine()
    ensures SplitLines("a\n") == ["a", ""]
  {
    var t := "a\n";
    assert t[..1] == "a" && t[..1][..0] == "";
    assert SplitLines("") == [""];
    assert "" + "a" == "a";
  }

  lemma TwoLineBulletText()
    ensures Concat(DynamicTexts(["a", "b"], 0, {F.BulletList}), 2) == BulletPrefix + "a\nb"
  {
    var lines := ["a", "b"];
    assert LineStart(lines, 1) == 2;
    assert DynamicLineText(lines, 0, 0, {F.BulletList}) == BulletPrefix + "a" + "\n";
    assert DynamicLineText(lines, 1, 0, {F.BulletList}) == "" + "b" + "";
  }

  lemma TwoLineBulletRanges(style: SpanStyle)
    ensures ShiftedSpans([Range(style, 2, 3)], ["a", "b"], 0, {F.BulletList}, 2) == [Range(style, 2, 3)]
  {
    var lines, span, active := ["a", "b"], Range(style, 2, 3), {F.BulletList};
    var first := ShiftedSpans([span], lines, 0, active, 1);
    assert first == [] by {
      assert LineStart(lines, 0) == 0 && LineEnd(lines, 0) == 1;
      assert |LinePrefix(active, 0, InLine(lines, 0, 0))| == 2;
      assert ShiftedSpans([span], lines, 0, active, 0) == [];
      LineRangesSingle(span, 0, 1, 2);
      assert first == [] + LineRanges([span], 0, 1, 2);
    }
    assert ShiftedSpans([span], lines, 0, active, 2) == first + [span] by {
      assert LineStart(lines, 1) == 2 && LineEnd(lines, 1) == 3;
      assert !InLine(lines, 1, 0);
      assert |LinePrefix(active, 1, false)| == 0;
      LineRangesSingle(span, 2, 3, 0);
      assert ClipToLine(span, 2, 3, 0) == [span];
    }
  }

  /**
   * Both list functions move a line's ranges by that line's own prefix
   * only, so a prefix inserted on an earlier line leaves the ranges after it
   * pointing at the wrong characters: in "a\nb" with a range over "b" and
   * the cursor on the first line, the bullet goes in front of "a" and the
   * range then covers "a".
   */
  lemma LaterLineRangeMisaligned(style: SpanStyle)
    ensures var a := AnnotatedString("a\nb", [Range(style, 2, 3)]);
      var r := DynamicListFormatted("a\nb", a, 0, {F.BulletList});
      && a.text[2..3] == "b"
      && r.text == BulletPrefix + "a\nb"
      && r.spanStyles == [Range(style, 2, 3)]
      && r.text[2..3] == "a"
  {
    var a := AnnotatedString("a\nb", [Range(style, 2, 3)]);
    var r := DynamicListFormatted("a\nb", a, 0, {F.BulletList});
    assert r == AnnotatedString(BulletPrefix + "a\nb", [Range(style, 2, 3)]) by {
      TwoLineSplit();
      TwoLineBulletText();
      TwoLineBulletRanges(style);
    }
    assert (BulletPrefix + "a\nb")[2..3] == "a";
  }
}
