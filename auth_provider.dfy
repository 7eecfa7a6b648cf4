/**
 * What the sign-up, login and password-reset forms share: the identity
 * provider's outcome, the provider error codes they switch on, the routes they
 * move to, and the Enter-key handler each form attaches to its text fields.
 */
module AuthProvider {

  /** How a provider call settles: resolved, or rejected with an error code. */
  datatype AuthResult = Ok | Err(code: string)

  const NetworkRequestFailed: string := "auth/network-request-failed"
  const WeakPassword: string := "auth/weak-password"
  const InvalidEmail: string := "auth/invalid-email"
  const WrongPassword: string := "auth/wrong-password"
  const EmailAlreadyInUse: string := "auth/email-already-in-use"
  const RequiresRecentLogin: string := "auth/requires-recent-login"
  const UserDisabled: string := "auth/user-disabled"

  const DashboardPath: string := "/dashboard"
  const LoginPath: string := "/login"

  /** The two key fields the handlers read. */
  datatype KeyEvent = KeyEvent(keyCode: int, which: int)

  const EnterKeyCode: int := 13

  predicate IsEnter(e: KeyEvent) {
    e.keyCode == EnterKeyCode || e.which == EnterKeyCode
  }

  /** What a key press on a form field leads to. */
  datatype KeyPressOutcome =
    | Ignored        // not Enter, or the button is disabled
    | HandlerThrows  // the submit handler fails on its first statement; nothing changes
    | HandlerRuns    // the submit handler runs

  /**
   * handleKeyPress as written: on Enter with the button enabled it calls the
   * submit handler with no argument, whose first statement
   * event.preventDefault() then reads a property of undefined, so the
   * handler's promise rejects before any state is touched.
   */
  function KeyPressAsWritten(buttonDisabled: bool, e: KeyEvent): (o: KeyPressOutcome)
    ensures o != HandlerRuns
    ensures o == HandlerThrows <==> IsEnter(e) && !buttonDisabled
  {
    if IsEnter(e) && !buttonDisabled then HandlerThrows else Ignored
  }

  /** handleKeyPress as intended: Enter submits exactly when the button is enabled. */
  function KeyPress(buttonDisabled: bool, e: KeyEvent): (o: KeyPressOutcome)
    ensures o != HandlerThrows
    ensures o == HandlerRuns <==> IsEnter(e) && !buttonDisabled
  {
    if IsEnter(e) && !buttonDisabled then HandlerRuns else Ignored
  }

  /** As written, Enter on an enabled form never submits; the intended handler would. */
  lemma EnterNeverSubmitsAsWritten()
    ensures KeyPressAsWritten(false, KeyEvent(EnterKeyCode, EnterKeyCode)) == HandlerThrows
    ensures KeyPress(false, KeyEvent(EnterKeyCode, EnterKeyCode)) == HandlerRuns
    ensures forall disabled: bool, e: KeyEvent :: KeyPressAsWritten(disabled, e) != KeyPress(disabled, e) <==> KeyPress(disabled, e) == HandlerRuns
  {
  }
}
