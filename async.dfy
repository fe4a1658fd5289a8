/**
 * What every async operation of a store slice does to the slice's status:
 * the pending case sets `loading` and clears `error`; the rejected case
 * clears `loading` and records `action.error.message || <fallback text>`.
 */
module Async {
  import opened Wrappers

  /**
   * `message || fallback`: the message when it is present and non-empty
   * (an empty string is falsy), otherwise the fallback.
   */
  function ErrorText(message: Option<string>, fallback: string): (text: string)
    ensures text == fallback || message == Some(text)
    ensures text == fallback <== message.None? || message == Some("")
    ensures message.Some? && message.value != "" ==> text == message.value
    ensures fallback != "" ==> text != ""
  {
    if message.Some? && message.value != "" then message.value else fallback
  }
}
