/** The stored note (model/db/Note.kt) and the clock values it carries. */
module NoteEntity {
  import opened Wrappers

  /**
   * A `java.time.OffsetDateTime` reading. Nothing here computes with dates:
   * a reading is only copied and compared, so a plain integer stands for it.
   */
  datatype OffsetDateTime = OffsetDateTime(reading: int)

  /** The Room entity `Note`; `password` is nullable. */
  datatype Note = Note(
    id: int,
    title: string,
    description: string,
    encrypt: bool,
    password: Option<string>,
    createdAt: OffsetDateTime,
    modifiedAt: OffsetDateTime)
}
