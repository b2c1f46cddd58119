# NotesApp editor and note logic in Dafny

This project models the logic at the core of the NotesApp Android notes
application (Kotlin, Jetpack Compose):

- **The rich-text span engine** (`RichTextUtils.kt`). An `AnnotatedString`
  is a text plus an ordered list of style ranges. The engine styles a
  selection or newly appended text. It clamps ranges when text is removed.
  It lays text out again line by line to put a bullet (`"• "`) or number
  (`"N. "`) prefix on the cursor's line. It also maps a set of active
  formats to a span style. Each `apply*` function fills an
  `AnnotatedString.Builder` in place. Each is modelled as a method over a
  `Builder` class, with the same loops. Each method is proved equal to a
  specification function, and lemmas state what those functions promise.
- **The toolbar's format toggle** (`EditorToolbar.kt`): `handleActionClick`,
  plus the Heading and Subheading buttons, which dispatch one or two clicks.
- **The editor's change handler** (`ComposeTextEditor.kt`). It classifies an
  edit against the remembered previous value and picks, by priority, the
  span operation that rebuilds the annotated string. The remembered value
  is a field of the class `RichTextEditor`.
- **Span persistence** (`AnnotatedStringConverter.kt`). Ranges become plain
  records with string codecs for font style and decoration, and are read
  back from them. The mapping is lossy.
- **The note detail view model** (`view/ui/viewmodel/NoteDetailViewModel.kt`).
  It holds the edited note and the outcome of the last lock or unlock
  request. Its repository writes and screen events are appended, in
  program order, to a log.
- **The two `NoteUiModel` variants** and their mappings to and from the
  stored `Note`. One variant has a lock and a password; the older one has
  neither.
- **`hashedString`** (`StringExt.kt`). It folds a SHA-256 digest into
  lowercase hex, the lowercase form of the base 16 encoding of section 8 of
  RFC 4648.

Modules follow the source files: `RichTextUtils`, `EditorToolbar`,
`ComposeTextEditor`, `AnnotatedStringConverter`, `NoteDetailViewModel`,
`ViewNoteUiModel`, `UiNoteUiModel` and `StringExt`. Supporting modules are:

- `ComposeText`: the Compose text types the editor uses, and the builder.
- `Lines`: Kotlin's `split("\n")` and the line-offset bookkeeping.
- `FormattingActions`, `NoteEntity` and `NoteActions`: the enum and records.
- `Wrappers`: `Option`.

Two facts about the list functions:

- The code never renumbers a numbered list. It prefixes only the cursor's
  line.
- Each line's ranges move by that line's own prefix only, so ranges on
  later lines cover the wrong characters
  (`RichTextUtils.LaterLineRangeMisaligned`).

Other facts about the source:

- In the list pass, the cursor sits after the typed `"\n"`. When the new
  line ends the text, that cursor lies past the end of the old annotated
  text. No line then holds it, so no prefix is added and the newline itself
  is dropped (`ComposeTextEditor.NewLineAtEndIsDropped`).
- Without a list format, any edit that makes the text longer is treated as
  an append. The annotated text becomes the old text followed by the new
  text past the old length. When the user typed anywhere but at the end,
  this differs from the field's text: typing "X" before "Hello" shows
  "Helloo" (`ComposeTextEditor.GrowthAppendsTail`,
  `ComposeTextEditor.InsertBeforeRepeatsTail`).
- The view model under `view/ui/viewmodel` and both `NoteUiModel` files
  declare the packages `com.an.notesapp.ui.viewmodel` and
  `com.an.notesapp.ui.model`, which the older `ui/...` files also use. The
  model keeps each file as its own module. The view model uses the variant
  with lock and password.

## Model

Paths are relative to the repository root.

| member | source | states |
|---|---|---|
| RichTextUtils.GetSpanStyle | app/src/main/java/com/an/notesapp/composetexteditor/utils/RichTextUtils.kt:176-192 | background and font size are always set. Reading the formats back from the style gives exactly the deciding formats: Bold, Italic and Highlight as given, Underline over Strikethrough, Heading over Subheading. |
| RichTextUtils.SameStyleIffSameCanonicalFormats | app/src/main/java/com/an/notesapp/composetexteditor/utils/RichTextUtils.kt:176-192 | two format sets give the same style if and only if their deciding formats agree. Body and the list formats never change a style. |
| RichTextUtils.SelectionFormatted | app/src/main/java/com/an/notesapp/composetexteditor/utils/RichTextUtils.kt:14-24 | the text and every range are kept, in order. Exactly one range over `[selection.start, selection.end)` with `getSpanStyle(active)` is appended. |
| RichTextUtils.ApplyFormattingToSelection | app/src/main/java/com/an/notesapp/composetexteditor/utils/RichTextUtils.kt:14-24 | the builder's result is `SelectionFormatted`. |
| RichTextUtils.NewTextFormatted | app/src/main/java/com/an/notesapp/composetexteditor/utils/RichTextUtils.kt:26-38 | the text becomes old text followed by the added text. Every range is kept, and one range of the added text's length is appended from `startIndex` with the active style. |
| RichTextUtils.ApplyFormattingToNewText | app/src/main/java/com/an/notesapp/composetexteditor/utils/RichTextUtils.kt:26-38 | the builder's result is `NewTextFormatted`. |
| RichTextUtils.ApplyFormattingToTextRemoval | app/src/main/java/com/an/notesapp/composetexteditor/utils/RichTextUtils.kt:40-59 | the loop's result is the new text with the old ranges truncated to its length, in order. |
| RichTextUtils.TruncatedKeeps | app/src/main/java/com/an/notesapp/composetexteditor/utils/RichTextUtils.kt:48-56 | a range survives if and only if it starts inside the new text. A survivor keeps its style and start, its end becomes `min(end, length)`, and it follows the survivors of the ranges before it. |
| RichTextUtils.TruncatedInText | app/src/main/java/com/an/notesapp/composetexteditor/utils/RichTextUtils.kt:48-56 | the number of ranges never grows, and every survivor starts and ends inside the new text. |
| RichTextUtils.TruncatedAppend | app/src/main/java/com/an/notesapp/composetexteditor/utils/RichTextUtils.kt:48-56 | truncation preserves order: it distributes over concatenation. |
| RichTextUtils.TruncatedFitting | app/src/main/java/com/an/notesapp/composetexteditor/utils/RichTextUtils.kt:48-56 | ranges that already fit the new text pass through unchanged. |
| RichTextUtils.NatToString | app/src/main/java/com/an/notesapp/composetexteditor/utils/RichTextUtils.kt:80 | the line number is written as one or more decimal digits. |
| RichTextUtils.NatToStringValue | app/src/main/java/com/an/notesapp/composetexteditor/utils/RichTextUtils.kt:80 | the digits spell the number in decimal, with no leading zero unless the number is 0. |
| RichTextUtils.NumberedPrefix | app/src/main/java/com/an/notesapp/composetexteditor/utils/RichTextUtils.kt:78-82 | with NumberedList active and BulletList not, the cursor line's prefix is the line's 1-based number in decimal, without leading zeros, followed by `". "`. |
| RichTextUtils.LinePrefix | app/src/main/java/com/an/notesapp/composetexteditor/utils/RichTextUtils.kt:78-82 | a prefix is non-empty if and only if the cursor is on the line and BulletList or NumberedList is active. A non-empty prefix ends with a space. |
| RichTextUtils.PrefixOnlyOnCursorLine | app/src/main/java/com/an/notesapp/composetexteditor/utils/RichTextUtils.kt:73-82 | at most one line gets a prefix. |
| RichTextUtils.LineRangesInLine | app/src/main/java/com/an/notesapp/composetexteditor/utils/RichTextUtils.kt:88-97 | a line copies at most one range per original range, and every copy lies inside that line moved by its prefix. |
| RichTextUtils.AddLineRanges | app/src/main/java/com/an/notesapp/composetexteditor/utils/RichTextUtils.kt:88-97 | the inner loop leaves the text alone and appends, in order, each overlapping range clipped to the line and shifted by the line's prefix. |
| RichTextUtils.RangeInOneLine | app/src/main/java/com/an/notesapp/composetexteditor/utils/RichTextUtils.kt:88-97 | a non-empty range inside line k is copied for line k only, shifted by the prefix. |
| RichTextUtils.RangeInLineCopiedOnce | app/src/main/java/com/an/notesapp/composetexteditor/utils/RichTextUtils.kt:88-97 | over all lines, such a range comes out exactly once, shifted by its own line's prefix. |
| RichTextUtils.AppendListLine | app/src/main/java/com/an/notesapp/composetexteditor/utils/RichTextUtils.kt:74-122 | one loop pass appends, for line `index`, its prefix, the line, its `"\n"` and the next prefix, plus that line's ranges. |
| RichTextUtils.ApplyListFormatting | app/src/main/java/com/an/notesapp/composetexteditor/utils/RichTextUtils.kt:61-126 | the loop's result is `ListFormatted`, the line-by-line specification. |
| RichTextUtils.ListTextCursorAtLineEnd | app/src/main/java/com/an/notesapp/composetexteditor/utils/RichTextUtils.kt:99-120 | when the cursor ends line k, the prefix goes before line k. The line is followed by one `"\n"` and then the next line's prefix (`"• "` or `"{k+2}. "`), and the rest of the text follows unchanged. |
| RichTextUtils.ListTextCursorInsideLine | app/src/main/java/com/an/notesapp/composetexteditor/utils/RichTextUtils.kt:73-86 | when the cursor is on line k but not at its end, the prefix is inserted at line k's start and nothing else changes. |
| RichTextUtils.ListTextCursorOutside | app/src/main/java/com/an/notesapp/composetexteditor/utils/RichTextUtils.kt:73-82 | with the cursor outside the text, the text comes out unchanged. |
| RichTextUtils.NoListAtLineEnd | app/src/main/java/com/an/notesapp/composetexteditor/utils/RichTextUtils.kt:99-114 | with no list format active, a cursor at the end of a line only gives that line its `"\n"`. |
| RichTextUtils.NoListInsideLine | app/src/main/java/com/an/notesapp/composetexteditor/utils/RichTextUtils.kt:78-86 | with no list format active, a cursor inside a line changes nothing. |
| RichTextUtils.ListTextWithoutListFormat | app/src/main/java/com/an/notesapp/composetexteditor/utils/RichTextUtils.kt:61-126 | with no list format active, the text is `text + "\n"` when the cursor is at its very end, and `text` otherwise. |
| RichTextUtils.AppendDynamicLine | app/src/main/java/com/an/notesapp/composetexteditor/utils/RichTextUtils.kt:139-169 | one loop pass appends the prefix (only on the cursor's line), the line, its ranges and its `"\n"`. |
| RichTextUtils.ApplyDynamicListFormatting | app/src/main/java/com/an/notesapp/composetexteditor/utils/RichTextUtils.kt:129-173 | the loop's result is `DynamicListFormatted`. |
| RichTextUtils.DynamicTextAtCursorLine | app/src/main/java/com/an/notesapp/composetexteditor/utils/RichTextUtils.kt:139-167 | the output is the new text with the cursor line's prefix inserted at that line's start. |
| RichTextUtils.DynamicTextWithoutListFormat | app/src/main/java/com/an/notesapp/composetexteditor/utils/RichTextUtils.kt:139-167 | with no list format active, the output text is the new text. |
| RichTextUtils.LaterLineRangeMisaligned | app/src/main/java/com/an/notesapp/composetexteditor/utils/RichTextUtils.kt:155-163 | take `"a\nb"` with a range over `"b"` and the cursor on line 0. The output is `"• a\nb"`, and the unshifted range now covers `"a"`. |
| Lines.SplitLinesHaveNoSeparator | app/src/main/java/com/an/notesapp/composetexteditor/utils/RichTextUtils.kt:73 | no line from `split("\n")` contains a `"\n"`. |
| Lines.JoinSplit | app/src/main/java/com/an/notesapp/composetexteditor/utils/RichTextUtils.kt:73 | joining the split lines with `"\n"` gives the text back. |
| Lines.LineInText | app/src/main/java/com/an/notesapp/composetexteditor/utils/RichTextUtils.kt:73-75 | line k stands in the text at `[LineStart(k), LineEnd(k))` and is followed by its `"\n"` unless it is the last line. |
| Lines.LineStartGrows | app/src/main/java/com/an/notesapp/composetexteditor/utils/RichTextUtils.kt:122 | each later line starts at least one past the end of an earlier one. |
| Lines.AtMostOneLine | app/src/main/java/com/an/notesapp/composetexteditor/utils/RichTextUtils.kt:75 | an offset lies in at most one inclusive line range. |
| Lines.SomeLineHolds | app/src/main/java/com/an/notesapp/composetexteditor/utils/RichTextUtils.kt:75 | every offset from 0 to the text length lies in some line. |
| Lines.NoLineOutside | app/src/main/java/com/an/notesapp/composetexteditor/utils/RichTextUtils.kt:75 | an offset outside the text lies in no line. |
| EditorToolbar.OtherActionToggles | app/src/main/java/com/an/notesapp/composetexteditor/toolbar/EditorToolbar.kt:166-173 | any action other than Heading and Subheading flips its own membership and no other. |
| EditorToolbar.OtherActionTwiceRestores | app/src/main/java/com/an/notesapp/composetexteditor/toolbar/EditorToolbar.kt:166-173 | clicking such an action twice restores the set. |
| EditorToolbar.HeadingClick | app/src/main/java/com/an/notesapp/composetexteditor/toolbar/EditorToolbar.kt:148-156 | Heading flips Heading. Selecting it removes Subheading; deselecting it leaves Subheading. Nothing else changes. |
| EditorToolbar.SubheadingClick | app/src/main/java/com/an/notesapp/composetexteditor/toolbar/EditorToolbar.kt:157-165 | the mirror image of `HeadingClick`. |
| EditorToolbar.ClickKeepsHeadingsExclusive | app/src/main/java/com/an/notesapp/composetexteditor/toolbar/EditorToolbar.kt:147-174 | no click makes Heading and Subheading active together. |
| EditorToolbar.HeadingButtonClick | app/src/main/java/com/an/notesapp/composetexteditor/toolbar/EditorToolbar.kt:38-47 | when Heading was active, the button deselects it. Otherwise it dispatches Subheading then Heading, which ends with Heading active and Subheading inactive. Other formats are untouched. |
| EditorToolbar.SubheadingButtonClick | app/src/main/java/com/an/notesapp/composetexteditor/toolbar/EditorToolbar.kt:56-65 | the mirror image of `HeadingButtonClick`. |
| ComposeTextEditor.RichTextEditor.constructor | app/src/main/java/com/an/notesapp/composetexteditor/editor/ComposeTextEditor.kt:27 | the remembered value starts as the editor state's field value. |
| ComposeTextEditor.RichTextEditor.OnValueChange | app/src/main/java/com/an/notesapp/composetexteditor/editor/ComposeTextEditor.kt:31-90 | the remembered value becomes `newValue`. The emitted state holds `newValue`, and its annotated string is that of the first branch whose condition holds. |
| ComposeTextEditor.ListOperationsIffListActive | app/src/main/java/com/an/notesapp/composetexteditor/editor/ComposeTextEditor.kt:36-48 | a list operation runs if and only if BulletList or NumberedList is active, whatever the edit and selection. The list pass runs exactly when a newline was added. |
| ComposeTextEditor.AddedTextIsStyled | app/src/main/java/com/an/notesapp/composetexteditor/editor/ComposeTextEditor.kt:50-53 | for an appending edit, the text becomes the new text and the old ranges are kept. One range covers exactly the added characters from the old length. |
| ComposeTextEditor.GrowthAppendsTail | app/src/main/java/com/an/notesapp/composetexteditor/editor/ComposeTextEditor.kt:50-53 | without a list format, any growth gives the old text followed by the new text past the old length. The result equals the new text if and only if the old text is a prefix of it. |
| ComposeTextEditor.InsertBeforeRepeatsTail | app/src/main/java/com/an/notesapp/composetexteditor/editor/ComposeTextEditor.kt:50-53 | typing "X" before "Hello" gives the annotated text "Helloo". |
| ComposeTextEditor.SelectionBeforeRemoval | app/src/main/java/com/an/notesapp/composetexteditor/editor/ComposeTextEditor.kt:55-61 | a shrinking edit with a selection styles the selection and does not clamp ranges. |
| ComposeTextEditor.RemovalClampsRanges | app/src/main/java/com/an/notesapp/composetexteditor/editor/ComposeTextEditor.kt:59-61 | a shrinking edit with a bare cursor gives the new text, with no more ranges than before and all of them inside it. |
| ComposeTextEditor.HeadingsAtCursor | app/src/main/java/com/an/notesapp/composetexteditor/editor/ComposeTextEditor.kt:63-80 | Heading wins over Subheading; either adds a zero-width range at the cursor, at 24sp or 20sp. With neither, the string is unchanged. |
| ComposeTextEditor.NewLineAtEndIsDropped | app/src/main/java/com/an/notesapp/composetexteditor/editor/ComposeTextEditor.kt:42-44 | with a list format active, a `"\n"` typed at the end of the text leaves the annotated text as it was. |
| ComposeTextEditor.DynamicListPrefixesCursorLine | app/src/main/java/com/an/notesapp/composetexteditor/editor/ComposeTextEditor.kt:46-48 | any other edit under a list format inserts the cursor line's non-empty prefix at that line's start. |
| AnnotatedStringConverter.FontStyleRoundTrip | app/src/main/java/com/an/notesapp/model/db/AnnotatedStringConverter.kt:49-59 | Normal and Italic survive their codec, and other styles read back as Normal. Only `"Italic"` reads as Italic. |
| AnnotatedStringConverter.DecorationRoundTrip | app/src/main/java/com/an/notesapp/model/db/AnnotatedStringConverter.kt:64-75 | Underline and LineThrough survive their codec. No decoration and the combined decoration read back as null, as do `"None"` and unknown strings. |
| AnnotatedStringConverter.FromAnnotatedString | app/src/main/java/com/an/notesapp/model/db/AnnotatedStringConverter.kt:13-26 | the text is kept, with one record per range in the same order and with the same start and end. |
| AnnotatedStringConverter.NullsStayNull | app/src/main/java/com/an/notesapp/model/db/AnnotatedStringConverter.kt:18-36 | a stored field is null exactly when the style's field is null. A null record, or one with all fields null, reads back as a style with all fields null. |
| AnnotatedStringConverter.Persisted | app/src/main/java/com/an/notesapp/model/db/AnnotatedStringConverter.kt:13-43 | storing keeps the weight and whether a font style is present. A decoration is kept only unchanged. Background and font size are dropped. |
| AnnotatedStringConverter.SpanRoundTrip | app/src/main/java/com/an/notesapp/model/db/AnnotatedStringConverter.kt:18-36 | a stored range's style reads back as its persisted style. |
| AnnotatedStringConverter.RangesRoundTrip | app/src/main/java/com/an/notesapp/model/db/AnnotatedStringConverter.kt:14-41 | the stored ranges read back, in order, with their persisted styles. |
| AnnotatedStringConverter.RoundTrip | app/src/main/java/com/an/notesapp/model/db/AnnotatedStringConverter.kt:13-43 | reading back what was stored never fails. It gives the same text and the same ranges, in order, with their persisted styles. |
| AnnotatedStringConverter.PersistedIffStorable | app/src/main/java/com/an/notesapp/model/db/AnnotatedStringConverter.kt:13-43 | a style survives storing if and only if all of these hold: it has no background and no font size; its font style is null, Normal or Italic; its decoration is null, Underline or LineThrough. |
| AnnotatedStringConverter.PersistedIdempotent | app/src/main/java/com/an/notesapp/model/db/AnnotatedStringConverter.kt:13-43 | storing twice loses nothing more than storing once. |
| AnnotatedStringConverter.StorableRoundTrip | app/src/main/java/com/an/notesapp/model/db/AnnotatedStringConverter.kt:13-43 | a string whose styles are all storable reads back exactly. |
| NoteDetailViewModel.NoteDetailViewModel.constructor | app/src/main/java/com/an/notesapp/view/ui/viewmodel/NoteDetailViewModel.kt:27-35 | the view model starts with the new-note model, action Idle and an empty log. |
| NoteDetailViewModel.NoteDetailViewModel.OnNoteLoaded | app/src/main/java/com/an/notesapp/view/ui/viewmodel/NoteDetailViewModel.kt:40-46 | each note the repository emits replaces the model with its UI model. |
| NoteDetailViewModel.NoteDetailViewModel.UpdateNoteTitle | app/src/main/java/com/an/notesapp/view/ui/viewmodel/NoteDetailViewModel.kt:48-50 | only the title changes. |
| NoteDetailViewModel.NoteDetailViewModel.UpdateNoteDesc | app/src/main/java/com/an/notesapp/view/ui/viewmodel/NoteDetailViewModel.kt:52-54 | only the description changes. |
| NoteDetailViewModel.NoteDetailViewModel.UpdateLock | app/src/main/java/com/an/notesapp/view/ui/viewmodel/NoteDetailViewModel.kt:113-120 | only the lock flag and the password change. |
| NoteDetailViewModel.NoteDetailViewModel.ValidatePassword | app/src/main/java/com/an/notesapp/view/ui/viewmodel/NoteDetailViewModel.kt:56-76 | the model and action become `PasswordValidated` of the old ones, and the log is unchanged. |
| NoteDetailViewModel.NoteDetailViewModel.AddOrUpdateNote | app/src/main/java/com/an/notesapp/view/ui/viewmodel/NoteDetailViewModel.kt:78-87 | `Saved` is appended to the log, and the model and action are unchanged. |
| NoteDetailViewModel.NewNoteIsBlank | app/src/main/java/com/an/notesapp/view/ui/viewmodel/NoteDetailViewModel.kt:122-128 | a new note has id 0, empty title and description, is unlocked, has no password, and was created at the given time. |
| NoteDetailViewModel.UnlockNeedsStoredPassword | app/src/main/java/com/an/notesapp/view/ui/viewmodel/NoteDetailViewModel.kt:58-64 | a locked note ends unlocked if and only if an unlock was asked with the stored password. It then keeps every other field, and the action is `NoteNotLocked(noteId)`. |
| NoteDetailViewModel.WrongPasswordRejected | app/src/main/java/com/an/notesapp/view/ui/viewmodel/NoteDetailViewModel.kt:65-68 | a wrong password leaves the model unchanged, with action `PasswordValidationError(error_password)`. |
| NoteDetailViewModel.LockTakesAnyPassword | app/src/main/java/com/an/notesapp/view/ui/viewmodel/NoteDetailViewModel.kt:71-74 | locking needs no check. It stores the password, leaves the rest unchanged, and reports `NoteLocked`. |
| NoteDetailViewModel.SameLockStateChangesNothing | app/src/main/java/com/an/notesapp/view/ui/viewmodel/NoteDetailViewModel.kt:57-75 | asking for the current lock state changes neither the model nor the action. |
| NoteDetailViewModel.ValidationKeepsContent | app/src/main/java/com/an/notesapp/view/ui/viewmodel/NoteDetailViewModel.kt:56-76 | no request changes the id, title, description or creation time. A locked result has the old or the given password. |
| NoteDetailViewModel.LockThenUnlock | app/src/main/java/com/an/notesapp/view/ui/viewmodel/NoteDetailViewModel.kt:56-76 | locking with a password and then unlocking with the same password gives back the unlocked note, now holding that password. |
| NoteDetailViewModel.SavedNoteReadsBack | app/src/main/java/com/an/notesapp/view/ui/viewmodel/NoteDetailViewModel.kt:78-100 | saving logs three entries. The first is the note, inserted when there is no id and updated otherwise, and it reads back as the model. The second is the add or update snackbar. The third is always ExitScreen. |
| ViewNoteUiModel.ToNoteKeepsFields | app/src/main/java/com/an/notesapp/view/ui/model/NoteUiModel.kt:15-25 | `toNote` copies id, title, description, lock (as `encrypt`), password and creation time, and takes `modifiedAt` from the clock. |
| ViewNoteUiModel.ModelRoundTrip | app/src/main/java/com/an/notesapp/view/ui/model/NoteUiModel.kt:15-36 | `toUiModel(toNote(m)) == m`. |
| ViewNoteUiModel.NoteRoundTrip | app/src/main/java/com/an/notesapp/view/ui/model/NoteUiModel.kt:15-36 | `toNote(toUiModel(n))` is `n` with `modifiedAt` from the clock. |
| UiNoteUiModel.ToNoteUnlocked | app/src/main/java/com/an/notesapp/ui/model/NoteUiModel.kt:13-23 | `toNote` always gives `encrypt = false` and `password = null`. |
| UiNoteUiModel.ModelRoundTrip | app/src/main/java/com/an/notesapp/ui/model/NoteUiModel.kt:13-32 | `toUiModel(toNote(m)) == m`. |
| UiNoteUiModel.NoteRoundTripIffUnlocked | app/src/main/java/com/an/notesapp/ui/model/NoteUiModel.kt:13-32 | `toNote(toUiModel(n))` is `n` apart from `modifiedAt` if and only if `n` is unencrypted and has no password. |
| StringExt.HexFold | app/src/main/java/com/an/notesapp/util/StringExt.kt:12 | the fold's string is `LowerHex(digest)`: each byte's two digits, in order. |
| StringExt.HashedString | app/src/main/java/com/an/notesapp/util/StringExt.kt:8-13 | null gives null. A string gives the lowercase hex of its digest. |
| StringExt.Unsigned | app/src/main/java/com/an/notesapp/util/StringExt.kt:12 | `%02x` formats a byte as its value modulo 256, in 0..255. |
| StringExt.LowerHexLength | app/src/main/java/com/an/notesapp/util/StringExt.kt:10-12 | the hex has two characters per byte. |
| StringExt.HashedLength | app/src/main/java/com/an/notesapp/util/StringExt.kt:10-12 | a 32-byte SHA-256 digest gives 64 characters. |
| StringExt.LowerHexAt | app/src/main/java/com/an/notesapp/util/StringExt.kt:12 | byte i is written at characters 2i (high nibble) and 2i+1 (low nibble). |
| StringExt.AllLowerHex | app/src/main/java/com/an/notesapp/util/StringExt.kt:12 | every character is one of `0-9a-f`. |
| StringExt.DecodeLowerHex | app/src/main/java/com/an/notesapp/util/StringExt.kt:12 | decoding the hex gives back the digest. |
| StringExt.LowerHexInjective | app/src/main/java/com/an/notesapp/util/StringExt.kt:12 | two digests have the same hex if and only if they are equal. |

## Left out

- JSON text. Gson's `toJson` and `fromJson` are taken to store the data
  records faithfully, so the converter is modelled up to those records.
  JSON text (RFC 8259) itself is not modelled.
- Coroutines and event delivery. Repository writes and events are appended
  to the log in program order. The IO dispatcher, the event channel and the
  100 ms delay before `ExitScreen` are not modelled, so neither is the
  order in which these complete.
- The clock. Each `OffsetDateTime.now()` reading is a parameter: the
  constructor's `now`, and `AddOrUpdateNote`'s `toNoteTime` and
  `updateTime`. The view model's new-note model is created at `now`.
- `getNote`. It parses the saved id with `toLong()` and collects a
  repository flow. `OnNoteLoaded` models one emitted note. An id that does
  not parse, and the flow itself, are not modelled.
- SHA-256 (FIPS 180-4) and `String.toByteArray`. They are the parameter
  `digestOf`: any function from strings to 32 signed bytes.
- Integer widths. Ids are Kotlin `Long` and offsets are `Int`; both are
  unbounded integers here. No arithmetic in the core comes near
  wrap-around.
- Compose's own checks. Compose's `AnnotatedString.Range` throws on a
  reversed range, and layout clamps ranges that run past the text. Neither
  is modelled: ranges are plain offset triples. `FontWeight`'s 1..1000
  check is modelled, as the `None` of `ToAnnotatedString`.
- Floating-point units and colours. They are discrete values: font sizes
  16, 20 and 24 sp, and Yellow or Transparent backgrounds. `FontStyle` is
  its integer value. `TextDecoration` is the four combinations of its two
  flags.
- UTF-16 offsets. Kotlin counts lengths, split offsets, the selection and
  range offsets in UTF-16 code units. A Dafny `string` is a sequence of
  Unicode scalar values. After a character outside the Basic Multilingual
  Plane (an emoji), every source offset is larger than the model's by the
  number of surrogate pairs before it. The model matches the source only
  for text without such characters.
- The screen wiring. The screen that owns the toolbar and calls
  `handleActionClick` is not part of this model. `EditorToolbar.Dispatched`
  takes each `onActionClick` to apply `handleActionClick` to the set the
  previous one left.
- `getDate`, `getTime` and the rest. They are single calls to
  `DateTimeFormatter` and are not modelled. Neither are the Compose UI,
  Room, dependency injection, `FormatSetTypeConverter` and the older
  `ui/viewmodel` classes.
