/** The formats the editor toolbar can switch on (composetexteditor/editor/FormattingActions.kt). */
module FormattingActions {
  datatype FormattingAction =
    | Bold
    | Italic
    | Underline
    | Strikethrough
    | Highlight
    | Heading
    | Subheading
    | Body
    | BulletList
    | DashedList
    | NumberedList
}
