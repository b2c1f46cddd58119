/**
 * The older note model without lock or password (ui/model/NoteUiModel.kt)
 * and its two mappings. `OffsetDateTime.now()` in `toNote` is the parameter
 * `now`.
 */
module UiNoteUiModel {
  import opened Wrappers
  import opened NoteEntity

  datatype NoteUiModel = NoteUiModel(
    noteId: int,
    title: string,
    description: string,
    createdAt: OffsetDateTime)

  /** `NoteUiModel.toNote()`: never encrypted, no password, stamped modified at `now`. */
  function ToNote(m: NoteUiModel, now: OffsetDateTime): Note
  {
    Note(m.noteId, m.title, m.description, false, None, m.createdAt, now)
  }

  /** `Note.toUiModel()`: id, title, description and creation time only. */
  function ToUiModel(n: Note): NoteUiModel
  {
    NoteUiModel(n.id, n.title, n.description, n.createdAt)
  }

  /** Every note this model stores is unencrypted and has no password. */
  lemma ToNoteUnlocked(m: NoteUiModel, now: OffsetDateTime)
    ensures !ToNote(m, now).encrypt && ToNote(m, now).password.None?
  {
  }

  /** A model read back from the note stored for it is the model itself. */
  lemma ModelRoundTrip(m: NoteUiModel, now: OffsetDateTime)
    ensures ToUiModel(ToNote(m, now)) == m
  {
  }

  /**
   * A note stored back from its model is the note apart from the
   * modification time exactly when it was unencrypted and had no password:
   * a lock goes missing on the way.
   */
  lemma NoteRoundTripIffUnlocked(n: Note, now: OffsetDateTime)
    ensures ToNote(ToUiModel(n), now) == n.(modifiedAt := now) <==> !n.encrypt && n.password.None?
  {
  }
}
