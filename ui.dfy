/** Values the screens hand back to the platform instead of calling it:
    alert dialogs and navigation requests. */
module Ui {

  datatype Option<T> = None | Some(value: T)

  /** A dialog shown with `Alert.alert(title, message)`. */
  datatype Alert = Alert(title: string, message: string)

  /** What a form's submit handler does: show an error and stay on the
      screen, or go to `route`, possibly after showing a notice. */
  datatype Decision =
    | Stay(error: Alert)
    | Navigate(notice: Option<Alert>, route: string)

  /** JavaScript truthiness of a string: only the empty string is falsy. */
  predicate Truthy(s: string)
  {
    s != ""
  }

  /** JavaScript truthiness of a value that may be `null` and is otherwise a
      string. */
  predicate TruthyOption(s: Option<string>)
  {
    s.Some? && Truthy(s.value)
  }
}
