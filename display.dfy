/** The message line `display_commit` prints for a commit. */
module Display {
  import opened Wrappers

  /** Shown when git2 gives no message, which it does when the message bytes are not valid UTF-8. */
  const Placeholder: string := "No commit message"

  /**
   * The message as shown: the commit's own message when there is one, the
   * placeholder otherwise. The placeholder is therefore shown exactly when
   * the message is absent or is the placeholder text itself.
   */
  function ShownMessage(message: Option<string>): (r: string)
    ensures message.Some? ==> r == message.value
    ensures r == Placeholder <==> message.None? || message == Some(Placeholder)
  {
    message.GetOr(Placeholder)
  }
}
