/**
 * The note detail screen's view model (view/ui/viewmodel/NoteDetailViewModel.kt):
 * the note being edited, the outcome of the last lock request, and the
 * repository writes and screen events it starts. Those writes and events
 * run in coroutines; here each is appended, in program order, to the log
 * `effects`. Clock readings are parameters.
 */
module NoteDetailViewModel {
  import opened Wrappers
  import opened NoteEntity
  import opened NoteActions
  import U = ViewNoteUiModel

  /** `BaseViewModel.Event` */
  datatype Event = ShowSnackbar(message: StringRes) | ExitScreen

  /** What the view model starts outside itself. */
  datatype Effect =
    | InsertNote(note: Note)     // `repository.insertNote`
    | UpdateNote(note: Note)     // `repository.updateNote`
    | Trigger(event: Event)      // `triggerEvent`, `triggerEventWithDelay`

  /** `createNewNoteUiModel()`, created at `now`. */
  function CreateNewNoteUiModel(now: OffsetDateTime): U.NoteUiModel
  {
    U.NoteUiModel(0, "", "", false, None, now)
  }

  /**
   * The note model and action after `validatePassword(newNoteLockedValue,
   * newPassword)`: unlocking needs the stored password, locking needs none,
   * and a request for the lock state the note already has does nothing.
   */
  function PasswordValidated(model: U.NoteUiModel, action: NoteAction, newNoteLockedValue: bool, newPassword: string)
    : (U.NoteUiModel, NoteAction)
  {
    if model.noteLocked && !newNoteLockedValue then
      if model.password == Some(newPassword) then
        (model.(noteLocked := false, password := Some(newPassword)), NoteNotLocked(model.noteId))
      else
        (model, PasswordValidationError(Some(ErrorPassword)))
    else if !model.noteLocked && newNoteLockedValue then
      (model.(noteLocked := true, password := Some(newPassword)), NoteLocked)
    else
      (model, action)
  }

  /**
   * The log `addOrUpdateNote` leaves: the note inserted (no id to load) or
   * updated (stamped again with `updateTime`), its snackbar, then the exit.
   */
  function Saved(noteId: Option<string>, model: U.NoteUiModel, toNoteTime: OffsetDateTime, updateTime: OffsetDateTime): seq<Effect>
  {
    if noteId.None? then
      [InsertNote(U.ToNote(model, toNoteTime)), Trigger(ShowSnackbar(AddNoteSuccess)), Trigger(ExitScreen)]
    else
      [UpdateNote(U.ToNote(model, toNoteTime).(modifiedAt := updateTime)), Trigger(ShowSnackbar(UpdateNoteSuccess)), Trigger(ExitScreen)]
  }

  class NoteDetailViewModel {
    /** `savedStateHandle["noteId"]`: null when a new note is being added. */
    const noteId: Option<string>
    /** `_noteUiModelState.value` */
    var noteUiModelState: U.NoteUiModel
    /** `_noteActionState.value` */
    var noteActionState: NoteAction
    /** The repository writes and events started so far, oldest first. */
    var effects: seq<Effect>

    /** The view model before its note is loaded: a blank note created at `now`, action Idle. */
    constructor (noteId: Option<string>, now: OffsetDateTime)
      ensures this.noteId == noteId
      ensures noteUiModelState == CreateNewNoteUiModel(now)
      ensures noteActionState == Idle && effects == []
    {
      this.noteId := noteId;
      noteUiModelState := CreateNewNoteUiModel(now);
      noteActionState := Idle;
      effects := [];
    }

    /** `getNote()`'s collector: every note the repository emits replaces the model. */
    method OnNoteLoaded(note: Note)
      modifies this
      ensures noteUiModelState == U.ToUiModel(note)
      ensures noteActionState == old(noteActionState) && effects == old(effects)
    {
      noteUiModelState := U.ToUiModel(note);
    }

    method UpdateNoteTitle(title: string)
      modifies this
      ensures noteUiModelState == old(noteUiModelState).(title := title)
      ensures noteActionState == old(noteActionState) && effects == old(effects)
    {
      noteUiModelState := noteUiModelState.(title := title);
    }

    method UpdateNoteDesc(desc: string)
      modifies this
      ensures noteUiModelState == old(noteUiModelState).(description := desc)
      ensures noteActionState == old(noteActionState) && effects == old(effects)
    {
      noteUiModelState := noteUiModelState.(description := desc);
    }

    /** `updateLock(lockNote, password)` */
    method UpdateLock(lockNote: bool, password: string)
      modifies this
      ensures noteUiModelState == old(noteUiModelState).(noteLocked := lockNote, password := Some(password))
      ensures noteActionState == old(noteActionState) && effects == old(effects)
    {
      noteUiModelState := noteUiModelState.(noteLocked := lockNote, password := Some(password));
    }

    method ValidatePassword(newNoteLockedValue: bool, newPassword: string)
      modifies this
      ensures (noteUiModelState, noteActionState)
        == PasswordValidated(old(noteUiModelState), old(noteActionState), newNoteLockedValue, newPassword)
      ensures effects == old(effects)
    {
      var oldNoteLockedValue := noteUiModelState.noteLocked;
      if oldNoteLockedValue && !newNoteLockedValue {
        if noteUiModelState.password == Some(newPassword) {
          UpdateLock(false, newPassword);
          noteActionState := NoteNotLocked(noteUiModelState.noteId);
        } else {
          noteActionState := PasswordValidationError(Some(ErrorPassword));
        }
      } else if !oldNoteLockedValue && newNoteLockedValue {
        UpdateLock(true, newPassword);
        noteActionState := NoteLocked;
      }
    }

    /**
     * `addOrUpdateNote()`: `toNoteTime` is the clock reading `toNote` takes,
     * `updateTime` the one `updateNote` stamps the note with.
     */
    method AddOrUpdateNote(toNoteTime: OffsetDateTime, updateTime: OffsetDateTime)
      modifies this
      ensures effects == old(effects) + Saved(noteId, noteUiModelState, toNoteTime, updateTime)
      ensures noteUiModelState == old(noteUiModelState) && noteActionState == old(noteActionState)
    {
      if noteId.None? {
        effects := effects + [InsertNote(U.ToNote(noteUiModelState, toNoteTime))];
        effects := effects + [Trigger(ShowSnackbar(AddNoteSuccess))];
      } else {
        var updatedNote := U.ToNote(noteUiModelState, toNoteTime).(modifiedAt := updateTime);
        effects := effects + [UpdateNote(updatedNote)];
        effects := effects + [Trigger(ShowSnackbar(UpdateNoteSuccess))];
      }
      effects := effects + [Trigger(ExitScreen)];
    }
  }

  // ---------------------------------------------------------------------
  // What the lock state machine and the save promise
  // ---------------------------------------------------------------------

  /** A new note is blank, unlocked, without password, with id 0. */
  lemma NewNoteIsBlank(now: OffsetDateTime)
    ensures var m := CreateNewNoteUiModel(now);
      m.noteId == 0 && m.title == "" && m.description == "" && !m.noteLocked && m.password.None? && m.createdAt == now
  {
  }

  /**
   * A locked note becomes unlocked only with the password it stores: the
   * note is unlocked, keeps that password and every other field, and the
   * action names its id.
   */
  lemma UnlockNeedsStoredPassword(model: U.NoteUiModel, action: NoteAction, newNoteLockedValue: bool, newPassword: string)
    requires model.noteLocked
    ensures var (m, a) := PasswordValidated(model, action, newNoteLockedValue, newPassword);
      && (!m.noteLocked <==> !newNoteLockedValue && model.password == Some(newPassword))
      && (!m.noteLocked ==> m == model.(noteLocked := false) && a == NoteNotLocked(model.noteId))
  {
  }

  /** A wrong password leaves the note as it was and reports the password error. */
  lemma WrongPasswordRejected(model: U.NoteUiModel, action: NoteAction, newPassword: string)
    requires model.noteLocked && model.password != Some(newPassword)
    ensures PasswordValidated(model, action, false, newPassword) == (model, PasswordValidationError(Some(ErrorPassword)))
  {
  }

  /** Locking an unlocked note takes any password, stores it, and reports NoteLocked. */
  lemma LockTakesAnyPassword(model: U.NoteUiModel, action: NoteAction, newPassword: string)
    requires !model.noteLocked
    ensures var (m, a) := PasswordValidated(model, action, true, newPassword);
      m.noteLocked && m.password == Some(newPassword) && m.(noteLocked := false, password := model.password) == model
      && a == NoteLocked
  {
  }

  /** A request for the lock state the note already has changes neither the note nor the action. */
  lemma SameLockStateChangesNothing(model: U.NoteUiModel, action: NoteAction, newPassword: string)
    ensures PasswordValidated(model, action, model.noteLocked, newPassword) == (model, action)
  {
  }

  /**
   * Whatever the request, title, description, id and creation time stay as
   * they were, and a note left locked has a password or kept the one it had.
   */
  lemma ValidationKeepsContent(model: U.NoteUiModel, action: NoteAction, newNoteLockedValue: bool, newPassword: string)
    ensures var (m, _) := PasswordValidated(model, action, newNoteLockedValue, newPassword);
      && m.noteId == model.noteId && m.title == model.title && m.description == model.description
      && m.createdAt == model.createdAt
      && (m.noteLocked ==> m.password == model.password || m.password == Some(newPassword))
  {
  }

  /** Locking with a password and then unlocking with the same password unlocks again. */
  lemma LockThenUnlock(model: U.NoteUiModel, action: NoteAction, password: string)
    requires !model.noteLocked
    ensures var (locked, a1) := PasswordValidated(model, action, true, password);
      PasswordValidated(locked, a1, false, password) == (model.(password := Some(password)), NoteNotLocked(model.noteId))
  {
  }

  /**
   * Saving writes one note that reads back as the model on screen, inserted
   * when no id was given and updated otherwise, with the matching snackbar,
   * and always ends with the exit event.
   */
  lemma SavedNoteReadsBack(noteId: Option<string>, model: U.NoteUiModel, toNoteTime: OffsetDateTime, updateTime: OffsetDateTime)
    ensures var log := Saved(noteId, model, toNoteTime, updateTime);
      && |log| == 3 && log[2] == Trigger(ExitScreen)
      && (noteId.None? <==> log[0].InsertNote?)
      && (log[0].InsertNote? || log[0].UpdateNote?)
      && U.ToUiModel(log[0].note) == model
      && log[1] == Trigger(ShowSnackbar(if noteId.None? then AddNoteSuccess else UpdateNoteSuccess))
  {
    U.ModelRoundTrip(model, toNoteTime);
  }
}
