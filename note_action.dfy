/** The detail screen's outcome of a lock request (view/ui/model/NoteAction.kt). */
module NoteActions {
  import opened Wrappers

  /** The string resources the detail view model refers to (`R.string.…`). */
  datatype StringRes = ErrorPassword | AddNoteSuccess | UpdateNoteSuccess

  datatype NoteAction =
    | Idle
    | NoteLocked
    | NoteNotLocked(noteId: int)
    | PasswordValidationSuccess(noteId: int)
    | PasswordValidationError(errorResId: Option<StringRes>)
}
