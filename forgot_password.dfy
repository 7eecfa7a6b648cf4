/**
 * The password-reset form: its reducer, the rule that enables its button, the
 * submit handler's sequence of state changes, and the provider error codes it
 * turns into messages.
 */
module ForgotPassword {
  import opened Optional
  import opened Text
  import opened AuthProvider

  datatype State = State(
    email: string,
    isButtonDisabled: bool,
    helperText: string,
    isError: bool)

  const InitialState: State := State("", true, "", false)

  /** The reducer's actions; Unrecognized stands for any other action type. */
  datatype Action =
    | SetEmail(email: string)
    | SetIsButtonDisabled(disabled: bool)
    | ForgotpasswordSuccess(text: string)
    | ForgotpasswordFailed(text: string)
    | SetIsError(isError: bool)
    | Unrecognized(kind: string)

  datatype Field = EmailField | ButtonDisabledField | HelperTextField | IsErrorField

  /** The fields an action is meant to write. */
  function Written(a: Action): set<Field> {
    match a
    case SetEmail(_) => {EmailField}
    case SetIsButtonDisabled(_) => {ButtonDisabledField}
    case ForgotpasswordSuccess(_) => {HelperTextField, IsErrorField}
    case ForgotpasswordFailed(_) => {HelperTextField, IsErrorField}
    case SetIsError(_) => {IsErrorField}
    case Unrecognized(_) => {}
  }

  predicate Agree(s: State, t: State, f: Field) {
    match f
    case EmailField => s.email == t.email
    case ButtonDisabledField => s.isButtonDisabled == t.isButtonDisabled
    case HelperTextField => s.helperText == t.helperText
    case IsErrorField => s.isError == t.isError
  }

  /** Every action writes its own fields and leaves all others as they were. */
  function Reduce(s: State, a: Action): (r: State)
    ensures forall f :: f !in Written(a) ==> Agree(r, s, f)
    ensures a.SetEmail? ==> r.email == a.email
    ensures a.SetIsButtonDisabled? ==> r.isButtonDisabled == a.disabled
    ensures a.ForgotpasswordSuccess? ==> r.helperText == a.text && !r.isError
    ensures a.ForgotpasswordFailed? ==> r.helperText == a.text && r.isError
    ensures a.SetIsError? ==> r.isError == a.isError
    ensures a.Unrecognized? ==> r == s
  {
    match a
    case SetEmail(v) => s.(email := v)
    case SetIsButtonDisabled(b) => s.(isButtonDisabled := b)
    case ForgotpasswordSuccess(t) => s.(helperText := t, isError := false)
    case ForgotpasswordFailed(t) => s.(helperText := t, isError := true)
    case SetIsError(b) => s.(isError := b)
    case Unrecognized(_) => s
  }

  /**
   * The value the enable effect dispatches: the button is enabled exactly
   * when the e-mail has a character other than white space.
   */
  function ButtonDisabledFor(s: State): (disabled: bool)
    ensures !disabled <==> HasVisible(s.email)
  {
    TrimEmptyIff(s.email);
    Trim(s.email) == ""
  }

  /** The provider errors the form tells apart; Unexpected is the default branch. */
  datatype ResetError = NetworkFailure | BadCredentials | AccountDisabled | Unexpected

  /** The provider codes that select an error. */
  function CodesOf(e: ResetError): set<string> {
    match e
    case NetworkFailure => {NetworkRequestFailed}
    case BadCredentials => {InvalidEmail, WrongPassword}
    case AccountDisabled => {UserDisabled}
    case Unexpected => {}
  }

  const KnownCodes: set<string> := {NetworkRequestFailed, InvalidEmail, WrongPassword, UserDisabled}

  /** The branch of the handler's switch a provider code falls into. */
  function ErrorFor(code: string): (e: ResetError)
    ensures e.Unexpected? <==> code !in KnownCodes
    ensures !e.Unexpected? ==> code in CodesOf(e)
  {
    if code == NetworkRequestFailed then NetworkFailure
    else if code == InvalidEmail || code == WrongPassword then BadCredentials
    else if code == UserDisabled then AccountDisabled
    else Unexpected
  }

  lemma ErrorForCodesOf(e: ResetError, code: string)
    requires code in CodesOf(e)
    ensures ErrorFor(code) == e
  {
  }

  /** The text setError receives for each branch. */
  function Message(e: ResetError): string {
    match e
    case NetworkFailure => "通信がエラーになったのか、またはタイムアウトになりました。通信環境がいい所で再度やり直してください。"
    case BadCredentials => "メールアドレスまたはパスワードが正しくありません"
    case AccountDisabled => "入力されたメールアドレスは無効（BAN）になっています。"
    case Unexpected => "処理に失敗しました。通信環境がいい所で再度やり直してください。"
  }

  /** Unlike the other forms, this one has no message of its own for a weak password. */
  lemma WeakPasswordIsUnexpected()
    ensures ErrorFor(WeakPassword) == Unexpected
  {
  }

  const SuccessHelperText: string := "ForgotPassword Successfully"
  const SuccessMessage: string := "パスワードを初期化しました。"

  class ForgotPasswordForm {
    var state: State
    var error: string
    var successMessage: string

    /** The button's disabled flag is the one the enable rule computes. */
    predicate Consistent()
      reads this
    {
      state.isButtonDisabled == ButtonDisabledFor(state)
    }

    constructor ()
      ensures state == InitialState && error == "" && successMessage == ""
      ensures Consistent()
    {
      state := InitialState;
      error := "";
      successMessage := "";
    }

    method Dispatch(a: Action)
      modifies this`state
      ensures state == Reduce(old(state), a)
    {
      state := Reduce(state, a);
    }

    /** The effect that runs after the e-mail changes. */
    method ApplyEnableRule()
      modifies this`state
      ensures state == old(state).(isButtonDisabled := ButtonDisabledFor(old(state)))
      ensures Consistent()
    {
      if Trim(state.email) != "" {
        Dispatch(SetIsButtonDisabled(false));
      } else {
        Dispatch(SetIsButtonDisabled(true));
      }
    }

    method ChangeEmail(v: string)
      modifies this`state
      ensures state == old(state).(email := v, isButtonDisabled := ButtonDisabledFor(old(state).(email := v)))
      ensures Consistent()
    {
      Dispatch(SetEmail(v));
      ApplyEnableRule();
    }

    /**
     * handleForgotPassword, with the provider's answer as a parameter. It asks
     * for a reset mail to the e-mail in the form and on either outcome ends
     * with the button enabled; it never redirects.
     */
    method HandleForgotPassword(outcome: AuthResult) returns (sent: string)
      modifies this
      ensures sent == old(state).email
      ensures outcome.Ok? ==>
        state == old(state).(isButtonDisabled := false, helperText := SuccessHelperText, isError := false) &&
        error == "" && successMessage == SuccessMessage
      ensures outcome.Err? ==>
        state == old(state).(isButtonDisabled := false) &&
        error == Message(ErrorFor(outcome.code)) && successMessage == ""
      ensures old(Consistent()) && !old(state.isButtonDisabled) ==> Consistent()
    {
      error := "";
      successMessage := "";
      Dispatch(SetIsButtonDisabled(true));
      sent := state.email;
      match outcome {
        case Ok =>
          Dispatch(ForgotpasswordSuccess(SuccessHelperText));
          Dispatch(SetIsButtonDisabled(false));
          successMessage := SuccessMessage;
        case Err(code) =>
          error := Message(ErrorFor(code));
          Dispatch(SetIsButtonDisabled(false));
      }
    }

    /**
     * Enter in the field, with the handler called as intended: it submits
     * exactly when KeyPress says so and otherwise changes nothing.
     */
    method HandleKeyPress(e: KeyEvent, outcome: AuthResult) returns (sent: Option<string>)
      modifies this
      ensures sent.Some? <==> KeyPress(old(state.isButtonDisabled), e) == HandlerRuns
      ensures sent.Some? ==> sent.value == old(state).email
      ensures sent.Some? && outcome.Ok? ==>
        state == old(state).(isButtonDisabled := false, helperText := SuccessHelperText, isError := false) &&
        error == "" && successMessage == SuccessMessage
      ensures sent.Some? && outcome.Err? ==>
        state == old(state).(isButtonDisabled := false) &&
        error == Message(ErrorFor(outcome.code)) && successMessage == ""
      ensures sent.None? ==> state == old(state) && error == old(error) && successMessage == old(successMessage)
    {
      if KeyPress(state.isButtonDisabled, e) == HandlerRuns {
        var c := HandleForgotPassword(outcome);
        sent := Some(c);
      } else {
        sent := None;
      }
    }
  }
}
