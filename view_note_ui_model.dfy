/**
 * The detail screen's note model with lock and password
 * (view/ui/model/NoteUiModel.kt) and its two mappings to and from the
 * stored `Note`. `OffsetDateTime.now()` in `toNote` is the parameter `now`.
 */
module ViewNoteUiModel {
  import opened Wrappers
  import opened NoteEntity

  datatype NoteUiModel = NoteUiModel(
    noteId: int,
    title: string,
    description: string,
    noteLocked: bool,
    password: Option<string>,
    createdAt: OffsetDateTime)

  /** `NoteUiModel.toNote()`, stamped modified at `now`. */
  function ToNote(m: NoteUiModel, now: OffsetDateTime): Note
  {
    Note(m.noteId, m.title, m.description, m.noteLocked, m.password, m.createdAt, now)
  }

  /** `Note.toUiModel()` */
  function ToUiModel(n: Note): NoteUiModel
  {
    NoteUiModel(n.id, n.title, n.description, n.encrypt, n.password, n.createdAt)
  }

  /**
   * Storing a model copies every one of its fields into the note, the lock
   * flag as `encrypt`, and takes the modification time from the clock.
   */
  lemma ToNoteKeepsFields(m: NoteUiModel, now: OffsetDateTime)
    ensures var n := ToNote(m, now);
      && n.id == m.noteId && n.title == m.title && n.description == m.description
      && n.encrypt == m.noteLocked && n.password == m.password && n.createdAt == m.createdAt
      && n.modifiedAt == now
  {
  }

  /** A model read back from the note stored for it is the model itself. */
  lemma ModelRoundTrip(m: NoteUiModel, now: OffsetDateTime)
    ensures ToUiModel(ToNote(m, now)) == m
  {
  }

  /** A note stored back from its model is the note itself, apart from the modification time. */
  lemma NoteRoundTrip(n: Note, now: OffsetDateTime)
    ensures ToNote(ToUiModel(n), now) == n.(modifiedAt := now)
  {
  }
}
