/** What the auth forms share: the submit button's state machine. */
module Forms {
  /** `'idle' | 'sending' | 'success' | 'error'`. */
  datatype ButtonState = Idle | Sending | Success | Error

  /** Typing into a form takes the button out of its error state and leaves every other state alone. */
  function AfterTyping(b: ButtonState): (r: ButtonState)
    ensures r != Error
    ensures b == Error ==> r == Idle
    ensures b != Error ==> r == b
  {
    if b == Error then Idle else b
  }
}
