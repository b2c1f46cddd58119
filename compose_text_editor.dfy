/**
 * The editor's change handler (composetexteditor/editor/ComposeTextEditor.kt):
 * on every new text-field value it classifies the edit against the value it
 * remembered last time, picks by priority the span operation of
 * RichTextUtils that rebuilds the annotated string, remembers the new value
 * and emits the new editor state.
 */
module ComposeTextEditor {
  import opened Wrappers
  import opened ComposeText
  import opened Lines
  import R = RichTextUtils
  import F = FormattingActions

  /** `EditorState` (composetexteditor/editor/EditorState.kt): the field's value and the styled text shown. */
  datatype EditorState = EditorState(textFieldValue: TextFieldValue, annotatedString: AnnotatedString)

  /** `EditorState()`: an empty field with the cursor at 0 and an empty annotated string. */
  const InitialEditorState := EditorState(TextFieldValue("", TextRange(0, 0)), AnnotatedString("", []))

  /** The arms of the `when` in `onValueChange`, in the order they are tried. */
  datatype Branch =
    | ListNewLine          // a list format is active and a line was ended
    | DynamicList          // a list format is active, any other edit
    | NewText              // text was added
    | Selection            // a non-collapsed selection
    | Removal              // text was removed
    | HeadingAtCursor      // Heading is active
    | SubheadingAtCursor   // Subheading is active
    | PassThrough          // nothing to do

  predicate IsTextAdded(oldText: string, newText: string) { |newText| > |oldText| }

  predicate IsTextRemoved(oldText: string, newText: string) { |newText| < |oldText| }

  /** Text was added and the new text ends with "\n" (`lastOrNull() == '\n'`). */
  predicate IsNewLineAdded(oldText: string, newText: string)
  {
    IsTextAdded(oldText, newText) && newText[|newText| - 1] == '\n'
  }

  predicate ListActive(activeFormatting: set<F.FormattingAction>)
  {
    F.BulletList in activeFormatting || F.NumberedList in activeFormatting
  }

  /** The first arm of the `when` whose condition holds. */
  function ChooseBranch(oldText: string, newValue: TextFieldValue, activeFormatting: set<F.FormattingAction>): Branch
  {
    var newText := newValue.text;
    if ListActive(activeFormatting) && IsNewLineAdded(oldText, newText) then ListNewLine
    else if ListActive(activeFormatting) then DynamicList
    else if IsTextAdded(oldText, newText) then NewText
    else if !newValue.selection.Collapsed() then Selection
    else if IsTextRemoved(oldText, newText) then Removal
    else if F.Heading in activeFormatting then HeadingAtCursor
    else if F.Subheading in activeFormatting then SubheadingAtCursor
    else PassThrough
  }

  /** The annotated string `onValueChange` computes for the chosen arm. */
  function Updated(oldText: string, newValue: TextFieldValue, a: AnnotatedString, activeFormatting: set<F.FormattingAction>): AnnotatedString
  {
    var newText := newValue.text;
    var cursorPosition := newValue.selection.start;
    match ChooseBranch(oldText, newValue, activeFormatting)
    case ListNewLine => R.ListFormatted(a, cursorPosition, activeFormatting)
    case DynamicList => R.DynamicListFormatted(newText, a, cursorPosition, activeFormatting)
    case NewText => R.NewTextFormatted(a, newText[|oldText|..], |oldText|, activeFormatting)
    case Selection => R.SelectionFormatted(a, newValue.selection, activeFormatting)
    case Removal => R.TextRemovalFormatted(a, newText)
    case HeadingAtCursor => R.SelectionFormatted(a, TextRange(cursorPosition, cursorPosition), {F.Heading})
    case SubheadingAtCursor => R.SelectionFormatted(a, TextRange(cursorPosition, cursorPosition), {F.Subheading})
    case PassThrough => a
  }

  /** The `RichTextEditor` composable with its remembered `previousTextFieldValue`. */
  class RichTextEditor {
    var previousTextFieldValue: TextFieldValue

    /** `remember { mutableStateOf(editorState.textFieldValue) }` */
    constructor (editorState: EditorState)
      ensures previousTextFieldValue == editorState.textFieldValue
    {
      previousTextFieldValue := editorState.textFieldValue;
    }

    /**
     * The `onValueChange` lambda: returns the state it hands to
     * `onStateChange`, whose field value is the new value and whose
     * annotated string is the chosen operation's result; the new value is
     * remembered for the next change.
     */
    method OnValueChange(editorState: EditorState, activeFormatting: set<F.FormattingAction>, newValue: TextFieldValue)
      returns (newState: EditorState)
      modifies this
      ensures previousTextFieldValue == newValue
      ensures newState.textFieldValue == newValue
      ensures newState.annotatedString
        == Updated(old(previousTextFieldValue).text, newValue, editorState.annotatedString, activeFormatting)
    {
      var oldText := previousTextFieldValue.text;
      var newText := newValue.text;
      var cursorPosition := newValue.selection.start;
      var isTextAdded := |newText| > |oldText|;
      var isTextRemoved := |newText| < |oldText|;
      var isNewLineAdded := isTextAdded && newText[|newText| - 1] == '\n';
      var listActive := F.BulletList in activeFormatting || F.NumberedList in activeFormatting;
      var updatedAnnotatedString;
      if listActive && isNewLineAdded {
        updatedAnnotatedString := R.ApplyListFormatting(editorState.annotatedString, cursorPosition, activeFormatting);
      } else if listActive {
        updatedAnnotatedString := R.ApplyDynamicListFormatting(newText, editorState.annotatedString, cursorPosition, activeFormatting);
      } else if isTextAdded {
        var addedText := newText[|oldText|..];
        updatedAnnotatedString := R.ApplyFormattingToNewText(editorState.annotatedString, addedText, |oldText|, activeFormatting);
      } else if !newValue.selection.Collapsed() {
        updatedAnnotatedString := R.ApplyFormattingToSelection(editorState.annotatedString, newValue.selection, activeFormatting);
      } else if isTextRemoved {
        updatedAnnotatedString := R.ApplyFormattingToTextRemoval(editorState.annotatedString, newText);
      } else if F.Heading in activeFormatting {
        updatedAnnotatedString := R.ApplyFormattingToSelection(editorState.annotatedString, TextRange(cursorPosition, cursorPosition), {F.Heading});
      } else if F.Subheading in activeFormatting {
        updatedAnnotatedString := R.ApplyFormattingToSelection(editorState.annotatedString, TextRange(cursorPosition, cursorPosition), {F.Subheading});
      } else {
        updatedAnnotatedString := editorState.annotatedString;
      }
      previousTextFieldValue := newValue;
      newState := editorState.(textFieldValue := newValue, annotatedString := updatedAnnotatedString);
    }
  }

  // ---------------------------------------------------------------------
  // What the dispatch promises
  // ---------------------------------------------------------------------

  /**
   * With BulletList or NumberedList active only the two list operations run,
   * whatever the edit and the selection: the list pass on a line ended, the
   * dynamic pass otherwise. Without them neither runs.
   */
  lemma ListOperationsIffListActive(oldText: string, newValue: TextFieldValue, activeFormatting: set<F.FormattingAction>)
    ensures var b := ChooseBranch(oldText, newValue, activeFormatting);
      && ((b == ListNewLine || b == DynamicList) <==> ListActive(activeFormatting))
      && (b == ListNewLine <==> ListActive(activeFormatting) && IsNewLineAdded(oldText, newValue.text))
  {
  }

  /**
   * Without a list format, added text is taken as the new text past the old
   * length and styled from the old length on: when the annotated text was in
   * step with the old text and the edit appended, it is in step with the new
   * text afterwards, and the last range covers exactly the added characters.
   */
  lemma AddedTextIsStyled(oldText: string, newValue: TextFieldValue, a: AnnotatedString, activeFormatting: set<F.FormattingAction>)
    requires !ListActive(activeFormatting) && IsTextAdded(oldText, newValue.text)
    requires a.text == oldText && oldText <= newValue.text
    ensures var r := Updated(oldText, newValue, a, activeFormatting);
      && r.text == newValue.text
      && |r.spanStyles| == |a.spanStyles| + 1 && r.spanStyles[..|a.spanStyles|] == a.spanStyles
      && r.spanStyles[|a.spanStyles|] == Range(R.GetSpanStyle(activeFormatting), |oldText|, |newValue.text|)
  {
    var newText := newValue.text;
    assert newText == oldText + newText[|oldText|..];
  }

  /**
   * Without a list format, any growth is taken as text appended after the old
   * text, wherever it was typed: the annotated text becomes the old text
   * followed by the new text past the old length. That is the new text
   * exactly when the edit appended; otherwise the two differ.
   */
  lemma GrowthAppendsTail(oldText: string, newValue: TextFieldValue, a: AnnotatedString, activeFormatting: set<F.FormattingAction>)
    requires !ListActive(activeFormatting) && IsTextAdded(oldText, newValue.text) && a.text == oldText
    ensures var r := Updated(oldText, newValue, a, activeFormatting);
      && r.text == oldText + newValue.text[|oldText|..]
      && (r.text == newValue.text <==> oldText <= newValue.text)
  {
    var newText := newValue.text;
    var r := Updated(oldText, newValue, a, activeFormatting);
    assert r.text == oldText + newText[|oldText|..];
    if oldText <= newText {
      assert newText == newText[..|oldText|] + newText[|oldText|..];
    }
    if r.text == newText {
      assert newText[..|oldText|] == r.text[..|oldText|] == oldText;
    }
  }

  /** Typing "X" before "Hello" shows "Helloo": the last character is repeated. */
  lemma InsertBeforeRepeatsTail()
    ensures Updated("Hello", TextFieldValue("XHello", TextRange(1, 1)), AnnotatedString("Hello", []), {}).text == "Helloo"
  {
    GrowthAppendsTail("Hello", TextFieldValue("XHello", TextRange(1, 1)), AnnotatedString("Hello", []), {});
    assert "XHello"[5..] == "o";
  }

  /**
   * The selection is looked at before removal: a shrinking edit that leaves
   * a selection styles the selection and keeps the old annotated text,
   * removed characters included.
   */
  lemma SelectionBeforeRemoval(oldText: string, newValue: TextFieldValue, a: AnnotatedString, activeFormatting: set<F.FormattingAction>)
    requires !ListActive(activeFormatting) && IsTextRemoved(oldText, newValue.text) && !newValue.selection.Collapsed()
    ensures var r := Updated(oldText, newValue, a, activeFormatting);
      && r.text == a.text
      && r.spanStyles == a.spanStyles + [Range(R.GetSpanStyle(activeFormatting), newValue.selection.start, newValue.selection.end)]
  {
  }

  /**
   * A removal with a bare cursor gives the new text, and keeps exactly the
   * ranges that start inside it, each clamped to it.
   */
  lemma RemovalClampsRanges(oldText: string, newValue: TextFieldValue, a: AnnotatedString, activeFormatting: set<F.FormattingAction>)
    requires !ListActive(activeFormatting) && IsTextRemoved(oldText, newValue.text) && newValue.selection.Collapsed()
    ensures var r := Updated(oldText, newValue, a, activeFormatting);
      && r.text == newValue.text
      && |r.spanStyles| <= |a.spanStyles|
      && forall k :: 0 <= k < |r.spanStyles| ==> r.spanStyles[k].start < |newValue.text| && r.spanStyles[k].end <= |newValue.text|
  {
    R.TruncatedInText(a.spanStyles, |newValue.text|);
  }

  /**
   * An edit that neither adds nor removes text, with a bare cursor, adds a
   * zero-width range at the cursor: 24sp when Heading is active (whether or
   * not Subheading is), 20sp when only Subheading is; with neither the
   * annotated string comes back unchanged.
   */
  lemma HeadingsAtCursor(oldText: string, newValue: TextFieldValue, a: AnnotatedString, activeFormatting: set<F.FormattingAction>)
    requires !ListActive(activeFormatting) && |newValue.text| == |oldText| && newValue.selection.Collapsed()
    ensures var r := Updated(oldText, newValue, a, activeFormatting);
      var c := newValue.selection.start;
      && (F.Heading in activeFormatting ==>
            r.text == a.text && r.spanStyles[..|a.spanStyles|] == a.spanStyles && |r.spanStyles| == |a.spanStyles| + 1
            && r.spanStyles[|a.spanStyles|].start == c == r.spanStyles[|a.spanStyles|].end
            && r.spanStyles[|a.spanStyles|].item.fontSize == Some(Sp24))
      && (F.Heading !in activeFormatting && F.Subheading in activeFormatting ==>
            r.text == a.text && r.spanStyles[..|a.spanStyles|] == a.spanStyles && |r.spanStyles| == |a.spanStyles| + 1
            && r.spanStyles[|a.spanStyles|].start == c == r.spanStyles[|a.spanStyles|].end
            && r.spanStyles[|a.spanStyles|].item.fontSize == Some(Sp20))
      && (F.Heading !in activeFormatting && F.Subheading !in activeFormatting ==> r == a)
  {
  }

  /**
   * With a list format active, ending the last line of text in step with the
   * old text runs the list pass with the cursor past the end of that text:
   * no line holds the cursor, so no prefix is added and the typed "\n" does
   * not reach the annotated string.
   */
  lemma NewLineAtEndIsDropped(oldText: string, newValue: TextFieldValue, a: AnnotatedString, activeFormatting: set<F.FormattingAction>)
    requires ListActive(activeFormatting) && a.text == oldText
    requires newValue.text == oldText + "\n" && newValue.selection.start == |newValue.text|
    ensures Updated(oldText, newValue, a, activeFormatting).text == oldText
  {
    R.ListTextCursorOutside(a, newValue.selection.start, activeFormatting);
  }

  /**
   * With a list format active and any other edit, the new text comes out
   * with the cursor line's prefix inserted at the start of that line.
   */
  lemma DynamicListPrefixesCursorLine(oldText: string, newValue: TextFieldValue, a: AnnotatedString, activeFormatting: set<F.FormattingAction>, k: nat)
    requires ListActive(activeFormatting) && !IsNewLineAdded(oldText, newValue.text)
    requires k < |SplitLines(newValue.text)| && InLine(SplitLines(newValue.text), k, newValue.selection.start)
    ensures var t := newValue.text;
      var ls := LineStart(SplitLines(t), k);
      && 0 <= ls <= |t|
      && Updated(oldText, newValue, a, activeFormatting).text
        == t[..ls] + R.LinePrefix(activeFormatting, k, true) + t[ls..]
      && |R.LinePrefix(activeFormatting, k, true)| > 0
  {
    R.DynamicTextAtCursorLine(newValue.text, a, newValue.selection.start, activeFormatting, k);
  }
}
