/**
 * The sign-up form: its reducer, the rule that enables its button, the
 * submit handler's sequence of state changes, and the provider error codes it
 * turns into messages.
 */
module Signup {
  import opened Optional
  import opened Text
  import opened AuthProvider

  datatype State = State(
    email: string,
    password: string,
    passwordconfirm: string,
    isButtonDisabled: bool,
    helperText: string,
    isError: bool)

  const InitialState: State := State("", "", "", true, "", false)

  /** The reducer's actions; Unrecognized stands for any other action type. */
  datatype Action =
    | SetEmail(email: string)
    | SetPassword(password: string)
    | SetPasswordConfirm(passwordconfirm: string)
    | SetIsButtonDisabled(disabled: bool)
    | SignupSuccess(text: string)
    | SignupFailed(text: string)
    | SetIsError(isError: bool)
    | Unrecognized(kind: string)

  datatype Field = EmailField | PasswordField | PasswordConfirmField | ButtonDisabledField | HelperTextField | IsErrorField

  /** The fields an action is meant to write. */
  function Written(a: Action): set<Field> {
    match a
    case SetEmail(_) => {EmailField}
    case SetPassword(_) => {PasswordField}
    case SetPasswordConfirm(_) => {PasswordConfirmField}
    case SetIsButtonDisabled(_) => {ButtonDisabledField}
    case SignupSuccess(_) => {HelperTextField, IsErrorField}
    case SignupFailed(_) => {HelperTextField, IsErrorField}
    case SetIsError(_) => {IsErrorField}
    case Unrecognized(_) => {}
  }

  predicate Agree(s: State, t: State, f: Field) {
    match f
    case EmailField => s.email == t.email
    case PasswordField => s.password == t.password
    case PasswordConfirmField => s.passwordconfirm == t.passwordconfirm
    case ButtonDisabledField => s.isButtonDisabled == t.isButtonDisabled
    case HelperTextField => s.helperText == t.helperText
    case IsErrorField => s.isError == t.isError
  }

  /** Every action writes its own fields and leaves all others as they were. */
  function Reduce(s: State, a: Action): (r: State)
    ensures forall f :: f !in Written(a) ==> Agree(r, s, f)
    ensures a.SetEmail? ==> r.email == a.email
    ensures a.SetPassword? ==> r.password == a.password
    ensures a.SetPasswordConfirm? ==> r.passwordconfirm == a.passwordconfirm
    ensures a.SetIsButtonDisabled? ==> r.isButtonDisabled == a.disabled
    ensures a.SignupSuccess? ==> r.helperText == a.text && !r.isError
    ensures a.SignupFailed? ==> r.helperText == a.text && r.isError
    ensures a.SetIsError? ==> r.isError == a.isError
    ensures a.Unrecognized? ==> r == s
  {
    match a
    case SetEmail(v) => s.(email := v)
    case SetPassword(v) => s.(password := v)
    case SetPasswordConfirm(v) => s.(passwordconfirm := v)
    case SetIsButtonDisabled(b) => s.(isButtonDisabled := b)
    case SignupSuccess(t) => s.(helperText := t, isError := false)
    case SignupFailed(t) => s.(helperText := t, isError := true)
    case SetIsError(b) => s.(isError := b)
    case Unrecognized(_) => s
  }

  /**
   * The value the enable effect dispatches: the button is enabled exactly
   * when all three fields have a character other than white space.
   */
  function ButtonDisabledFor(s: State): (disabled: bool)
    ensures !disabled <==> HasVisible(s.email) && HasVisible(s.password) && HasVisible(s.passwordconfirm)
  {
    TrimEmptyIff(s.email);
    TrimEmptyIff(s.password);
    TrimEmptyIff(s.passwordconfirm);
    !(Trim(s.email) != "" && Trim(s.password) != "" && Trim(s.passwordconfirm) != "")
  }

  /** The rule never compares the password with its confirmation. */
  lemma MismatchedPasswordsEnable(pw: string, conf: string)
    requires pw != conf && HasVisible(pw) && HasVisible(conf)
    ensures !ButtonDisabledFor(InitialState.(email := "a", password := pw, passwordconfirm := conf))
  {
    assert !IsWhitespace('a');
    assert "a"[0] == 'a';
  }

  /** The provider errors the form tells apart; Unexpected is the default branch. */
  datatype SignupError = NetworkFailure | PasswordTooShort | MalformedEmail | EmailInUse | AccountDisabled | Unexpected

  /** The provider code that selects an error, if it has one. */
  function CodeOf(e: SignupError): Option<string> {
    match e
    case NetworkFailure => Some(NetworkRequestFailed)
    case PasswordTooShort => Some(WeakPassword)
    case MalformedEmail => Some(InvalidEmail)
    case EmailInUse => Some(EmailAlreadyInUse)
    case AccountDisabled => Some(UserDisabled)
    case Unexpected => None
  }

  const KnownCodes: set<string> := {NetworkRequestFailed, WeakPassword, InvalidEmail, EmailAlreadyInUse, UserDisabled}

  /** The branch of the handler's switch a provider code falls into. */
  function ErrorFor(code: string): (e: SignupError)
    ensures e.Unexpected? <==> code !in KnownCodes
    ensures !e.Unexpected? ==> CodeOf(e) == Some(code)
  {
    if code == NetworkRequestFailed then NetworkFailure
    else if code == WeakPassword then PasswordTooShort
    else if code == InvalidEmail then MalformedEmail
    else if code == EmailAlreadyInUse then EmailInUse
    else if code == UserDisabled then AccountDisabled
    else Unexpected
  }

  lemma ErrorForCodeOf(e: SignupError)
    requires !e.Unexpected?
    ensures CodeOf(e).Some? && ErrorFor(CodeOf(e).value) == e
  {
  }

  /** The text setError receives for each branch. */
  function Message(e: SignupError): string {
    match e
    case NetworkFailure => "通信がエラーになったのか、またはタイムアウトになりました。通信環境がいい所で再度やり直してください。"
    case PasswordTooShort => "パスワードが短すぎます。6文字以上を入力してください。"
    case MalformedEmail => "メールアドレスが正しくありません"
    case EmailInUse => "メールアドレスがすでに使用されています。ログインするか別のメールアドレスで作成してください"
    case AccountDisabled => "入力されたメールアドレスは無効（BAN）になっています。"
    case Unexpected => "アカウントの作成に失敗しました。通信環境がいい所で再度やり直してください。"
  }

  const SuccessHelperText: string := "Signup Successfully"
  const SuccessMessage: string := "アカウントの作成に成功しました"

  /** What the handler passes to the provider's sign-up call. */
  datatype Credentials = Credentials(email: string, password: string)

  class SignupForm {
    var state: State
    var error: string
    var successMessage: string

    /** The button's disabled flag is the one the enable rule computes. */
    predicate Consistent()
      reads this
    {
      state.isButtonDisabled == ButtonDisabledFor(state)
    }

    constructor ()
      ensures state == InitialState && error == "" && successMessage == ""
      ensures Consistent()
    {
      state := InitialState;
      error := "";
      successMessage := "";
    }

    method Dispatch(a: Action)
      modifies this`state
      ensures state == Reduce(old(state), a)
    {
      state := Reduce(state, a);
    }

    /** The effect that runs after any of the three fields changes. */
    method ApplyEnableRule()
      modifies this`state
      ensures state == old(state).(isButtonDisabled := ButtonDisabledFor(old(state)))
      ensures Consistent()
    {
      if Trim(state.email) != "" && Trim(state.password) != "" && Trim(state.passwordconfirm) != "" {
        Dispatch(SetIsButtonDisabled(false));
      } else {
        Dispatch(SetIsButtonDisabled(true));
      }
    }

    method ChangeEmail(v: string)
      modifies this`state
      ensures state == old(state).(email := v, isButtonDisabled := ButtonDisabledFor(old(state).(email := v)))
      ensures Consistent()
    {
      Dispatch(SetEmail(v));
      ApplyEnableRule();
    }

    method ChangePassword(v: string)
      modifies this`state
      ensures state == old(state).(password := v, isButtonDisabled := ButtonDisabledFor(old(state).(password := v)))
      ensures Consistent()
    {
      Dispatch(SetPassword(v));
      ApplyEnableRule();
    }

    method ChangePasswordConfirm(v: string)
      modifies this`state
      ensures state == old(state).(passwordconfirm := v, isButtonDisabled := ButtonDisabledFor(old(state).(passwordconfirm := v)))
      ensures Consistent()
    {
      Dispatch(SetPasswordConfirm(v));
      ApplyEnableRule();
    }

    /**
     * handleSignup, with the provider's answer as a parameter. It signs up
     * with the e-mail and the confirmation field, and on either outcome ends
     * with the button enabled; redirect is the route the delayed push goes to.
     */
    method HandleSignup(outcome: AuthResult) returns (sent: Credentials, redirect: Option<string>)
      modifies this
      ensures sent == Credentials(old(state).email, old(state).passwordconfirm)
      ensures outcome.Ok? ==>
        state == old(state).(isButtonDisabled := false, helperText := SuccessHelperText, isError := false) &&
        error == "" && successMessage == SuccessMessage && redirect == Some(DashboardPath)
      ensures outcome.Err? ==>
        state == old(state).(isButtonDisabled := false) &&
        error == Message(ErrorFor(outcome.code)) && successMessage == "" && redirect == None
      ensures old(Consistent()) && !old(state.isButtonDisabled) ==> Consistent()
    {
      error := "";
      successMessage := "";
      Dispatch(SetIsButtonDisabled(true));
      sent := Credentials(state.email, state.passwordconfirm);
      match outcome {
        case Ok =>
          Dispatch(SignupSuccess(SuccessHelperText));
          Dispatch(SetIsButtonDisabled(false));
          successMessage := SuccessMessage;
          redirect := Some(DashboardPath);
        case Err(code) =>
          error := Message(ErrorFor(code));
          Dispatch(SetIsButtonDisabled(false));
          redirect := None;
      }
    }

    /**
     * Enter in a field, with the handler called as intended: it submits
     * exactly when KeyPress says so and otherwise changes nothing.
     */
    method HandleKeyPress(e: KeyEvent, outcome: AuthResult) returns (sent: Option<Credentials>, redirect: Option<string>)
      modifies this
      ensures sent.Some? <==> KeyPress(old(state.isButtonDisabled), e) == HandlerRuns
      ensures sent.Some? ==> sent.value == Credentials(old(state).email, old(state).passwordconfirm)
      ensures sent.Some? && outcome.Ok? ==>
        state == old(state).(isButtonDisabled := false, helperText := SuccessHelperText, isError := false) &&
        error == "" && successMessage == SuccessMessage && redirect == Some(DashboardPath)
      ensures sent.Some? && outcome.Err? ==>
        state == old(state).(isButtonDisabled := false) &&
        error == Message(ErrorFor(outcome.code)) && successMessage == "" && redirect == None
      ensures sent.None? ==> state == old(state) && error == old(error) && successMessage == old(successMessage) && redirect == None
    {
      if KeyPress(state.isButtonDisabled, e) == HandlerRuns {
        var c;
        c, redirect := HandleSignup(outcome);
        sent := Some(c);
      } else {
        sent := None;
        redirect := None;
      }
    }
  }
}
