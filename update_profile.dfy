/**
 * The profile form: its reducer, the effect that enables its button and
 * reports a conflicting change, the choice of updates the submit handler
 * requests, and the handling of their combined outcome.
 */
module UpdateProfile {
  import opened Optional
  import opened Text
  import opened AuthProvider

  datatype State = State(
    email: string,
    password: string,
    passwordconfirm: string,
    displayName: string,
    isButtonDisabled: bool,
    helperText: string,
    isError: bool)

  /** The signed-in user as the form reads it; a display name may be absent. */
  datatype CurrentUser = CurrentUser(email: string, displayName: Option<string>)

  /** The reducer's actions; Unrecognized stands for any other action type. */
  datatype Action =
    | SetEmail(email: string)
    | SetPassword(password: string)
    | SetPasswordConfirm(passwordconfirm: string)
    | SetDisplayName(displayName: string)
    | SetIsButtonDisabled(disabled: bool)
    | SignupSuccess(text: string)
    | SignupFailed(text: string)
    | SetIsError(isError: bool)
    | Unrecognized(kind: string)

  datatype Field = EmailField | PasswordField | PasswordConfirmField | DisplayNameField | ButtonDisabledField | HelperTextField | IsErrorField

  /** The fields an action is meant to write. */
  function Written(a: Action): set<Field> {
    match a
    case SetEmail(_) => {EmailField}
    case SetPassword(_) => {PasswordField}
    case SetPasswordConfirm(_) => {PasswordConfirmField}
    case SetDisplayName(_) => {DisplayNameField}
    case SetIsButtonDisabled(_) => {ButtonDisabledField}
    case SignupSuccess(_) => {HelperTextField, IsErrorField}
    case SignupFailed(_) => {HelperTextField, IsErrorField}
    case SetIsError(_) => {IsErrorField}
    case Unrecognized(_) => {}
  }

  predicate Agree(s: State, t: State, f: Field) {
    match f
    case EmailField => s.email == t.email
    case PasswordField => s.password == t.password
    case PasswordConfirmField => s.passwordconfirm == t.passwordconfirm
    case DisplayNameField => s.displayName == t.displayName
    case ButtonDisabledField => s.isButtonDisabled == t.isButtonDisabled
    case HelperTextField => s.helperText == t.helperText
    case IsErrorField => s.isError == t.isError
  }

  /** Every action writes its own fields and leaves all others as they were. */
  function Reduce(s: State, a: Action): (r: State)
    ensures forall f :: f !in Written(a) ==> Agree(r, s, f)
    ensures a.SetEmail? ==> r.email == a.email
    ensures a.SetPassword? ==> r.password == a.password
    ensures a.SetPasswordConfirm? ==> r.passwordconfirm == a.passwordconfirm
    ensures a.SetDisplayName? ==> r.displayName == a.displayName
    ensures a.SetIsButtonDisabled? ==> r.isButtonDisabled == a.disabled
    ensures a.SignupSuccess? ==> r.helperText == a.text && !r.isError
    ensures a.SignupFailed? ==> r.helperText == a.text && r.isError
    ensures a.SetIsError? ==> r.isError == a.isError
    ensures a.Unrecognized? ==> r == s
  {
    match a
    case SetEmail(v) => s.(email := v)
    case SetPassword(v) => s.(password := v)
    case SetPasswordConfirm(v) => s.(passwordconfirm := v)
    case SetDisplayName(v) => s.(displayName := v)
    case SetIsButtonDisabled(b) => s.(isButtonDisabled := b)
    case SignupSuccess(t) => s.(helperText := t, isError := false)
    case SignupFailed(t) => s.(helperText := t, isError := true)
    case SetIsError(b) => s.(isError := b)
    case Unrecognized(_) => s
  }

  /**
   * The state the form starts from: the user's e-mail, the user's display
   * name when it is present and non-empty (else ""), and everything else blank
   * with the button disabled.
   */
  function InitialState(user: CurrentUser): (s: State)
    ensures s.email == user.email
    ensures user.displayName.Some? && user.displayName.value != "" ==> s.displayName == user.displayName.value
    ensures user.displayName.None? || user.displayName.value == "" ==> s.displayName == ""
    ensures s.password == "" && s.passwordconfirm == "" && s.helperText == ""
    ensures s.isButtonDisabled && !s.isError
  {
    State(user.email, "", "", if user.displayName.Some? && user.displayName.value != "" then user.displayName.value else "", true, "", false)
  }

  /** Changing the e-mail and setting a new password in one submission. */
  predicate ConflictingChange(s: State, user: CurrentUser) {
    s.email != user.email && s.password != ""
  }

  const ConflictMessage: string := "メールアドレスとパスワードを同時に変更する事はできません"

  /**
   * The disabled flag the effect leaves behind: disabled when the trimmed
   * password and confirmation differ, when the e-mail is only white space, or
   * when the change conflicts.
   */
  function ButtonDisabledFor(s: State, user: CurrentUser): (disabled: bool)
    ensures disabled <==>
      Trim(s.password) != Trim(s.passwordconfirm) || !HasVisible(s.email) || ConflictingChange(s, user)
  {
    TrimEmptyIff(s.email);
    var checked := if Trim(s.password) != Trim(s.passwordconfirm) then true else Trim(s.email) == "";
    checked || ConflictingChange(s, user)
  }

  /** The display name plays no part in enabling the button. */
  lemma DisplayNameIgnored(s: State, user: CurrentUser, name: string)
    ensures ButtonDisabledFor(s.(displayName := name), user) == ButtonDisabledFor(s, user)
  {
  }

  /** The comparison trims, so a confirmation of blanks passes against an empty password. */
  lemma BlankConfirmationAccepted(user: CurrentUser)
    requires HasVisible(user.email)
    ensures !ButtonDisabledFor(InitialState(user).(password := "", passwordconfirm := " "), user)
  {
    assert IsWhitespace(' ');
    assert Trimmed("") && TrimStart(" ") == "";
    TrimOfTrimmed("");
  }

  /** One update call of the provider. */
  datatype UpdateRequest =
    | UpdatePassword(password: string)
    | UpdateEmail(email: string)
    | UpdateProfile(displayName: string)

  /** The position of each kind of update in the handler's list. */
  function Rank(q: UpdateRequest): nat {
    match q
    case UpdatePassword(_) => 0
    case UpdateEmail(_) => 1
    case UpdateProfile(_) => 2
  }

  /**
   * The updates the handler requests: a new password when one is typed, a new
   * e-mail when it differs from the user's, and a new display name when it
   * differs from the user's (an absent name differs from every text), each at
   * most once and in that order.
   */
  function RequestedUpdates(s: State, user: CurrentUser): (r: seq<UpdateRequest>)
    ensures UpdatePassword(s.password) in r <==> s.password != ""
    ensures UpdateEmail(s.email) in r <==> s.email != user.email
    ensures UpdateProfile(s.displayName) in r <==> user.displayName != Some(s.displayName)
    ensures forall q :: q in r ==> q in {UpdatePassword(s.password), UpdateEmail(s.email), UpdateProfile(s.displayName)}
    ensures forall i, j :: 0 <= i < j < |r| ==> Rank(r[i]) < Rank(r[j])
  {
    (if s.password != "" then [UpdatePassword(s.password)] else [])
    + (if s.email != user.email then [UpdateEmail(s.email)] else [])
    + (if user.displayName != Some(s.displayName) then [UpdateProfile(s.displayName)] else [])
  }

  /** With the button enabled, a submission never changes the password and the e-mail together. */
  lemma EnabledNeverUpdatesBoth(s: State, user: CurrentUser)
    requires !ButtonDisabledFor(s, user)
    ensures !(UpdatePassword(s.password) in RequestedUpdates(s, user) && UpdateEmail(s.email) in RequestedUpdates(s, user))
  {
  }

  /**
   * The form as it starts, for a user with a visible e-mail and a display
   * name, is enabled and requests nothing.
   */
  lemma UntouchedFormRequestsNothing(user: CurrentUser)
    requires HasVisible(user.email) && user.displayName.Some? && user.displayName.value != ""
    ensures !ButtonDisabledFor(InitialState(user), user)
    ensures RequestedUpdates(InitialState(user), user) == []
  {
  }

  /** For a user without a display name, the untouched form still requests a profile update to "". */
  lemma AbsentNameRequestsProfileUpdate(user: CurrentUser)
    requires user.displayName.None?
    ensures RequestedUpdates(InitialState(user), user) == [UpdateProfile("")]
  {
  }

  /**
   * How Promise.all over the requests settles, given their outcomes in the
   * order they settle: the first rejection, or None when every one resolves
   * (and so when there are none).
   */
  function FirstRejection(outcomes: seq<AuthResult>): (r: Option<string>)
    ensures r.None? <==> forall k :: 0 <= k < |outcomes| ==> outcomes[k].Ok?
    ensures r.Some? ==>
      exists k :: 0 <= k < |outcomes| && outcomes[k] == Err(r.value) && (forall j :: 0 <= j < k ==> outcomes[j].Ok?)
  {
    if outcomes == [] then None
    else if outcomes[0].Err? then Some(outcomes[0].code)
    else
      var rest := FirstRejection(outcomes[1..]);
      if rest.Some? then
        var k :| 1 <= k < |outcomes| && outcomes[k] == Err(rest.value) && forall j :: 1 <= j < k ==> outcomes[j].Ok?;
        rest
      else rest
  }

  /** The provider errors the form tells apart; Unexpected is the default branch. */
  datatype UpdateError = NetworkFailure | PasswordRejected | MalformedEmail | EmailInUse | SessionExpired | AccountDisabled | Unexpected

  /** The provider code that selects an error, if it has one. */
  function CodeOf(e: UpdateError): Option<string> {
    match e
    case NetworkFailure => Some(NetworkRequestFailed)
    case PasswordRejected => Some(WeakPassword)
    case MalformedEmail => Some(InvalidEmail)
    case EmailInUse => Some(EmailAlreadyInUse)
    case SessionExpired => Some(RequiresRecentLogin)
    case AccountDisabled => Some(UserDisabled)
    case Unexpected => None
  }

  const KnownCodes: set<string> := {NetworkRequestFailed, WeakPassword, InvalidEmail, EmailAlreadyInUse, RequiresRecentLogin, UserDisabled}

  /** The branch of the rejection handler's switch a provider code falls into. */
  function ErrorFor(code: string): (e: UpdateError)
    ensures e.Unexpected? <==> code !in KnownCodes
    ensures !e.Unexpected? ==> CodeOf(e) == Some(code)
  {
    if code == NetworkRequestFailed then NetworkFailure
    else if code == WeakPassword then PasswordRejected
    else if code == InvalidEmail then MalformedEmail
    else if code == EmailAlreadyInUse then EmailInUse
    else if code == RequiresRecentLogin then SessionExpired
    else if code == UserDisabled then AccountDisabled
    else Unexpected
  }

  lemma ErrorForCodeOf(e: UpdateError)
    requires !e.Unexpected?
    ensures CodeOf(e).Some? && ErrorFor(CodeOf(e).value) == e
  {
  }

  /** The text setError receives for each branch. */
  function Message(e: UpdateError): string {
    match e
    case NetworkFailure => "通信がエラーになったのか、またはタイムアウトになりました。通信環境がいい所で再度やり直してください。"
    case PasswordRejected => "パスワードが正しくないです。"
    case MalformedEmail => "メールアドレスが正しくないです。"
    case EmailInUse => "メールアドレスがすでに使用されています。別のメールアドレスで作成してください"
    case SessionExpired => "別の端末でログインしているか、セッションが切れたので再度、ログインしてください。(ログインページにリダイレクトします）"
    case AccountDisabled => "入力されたメールアドレスは無効（BAN）になっています。"
    case Unexpected => "失敗しました。通信環境がいい所で再度やり直してください。"
  }

  /** A rejection sends the user to the login page only when the session is too old. */
  function RedirectFor(code: string): (r: Option<string>)
    ensures r.Some? <==> code == RequiresRecentLogin
    ensures r.Some? ==> r.value == LoginPath
  {
    if ErrorFor(code).SessionExpired? then Some(LoginPath) else None
  }

  const SuccessMessage: string := "プロフィールを更新しました。ダッシュボードにリダレクトします"

  class ProfileForm {
    const user: CurrentUser
    var state: State
    var error: string
    var successMessage: string

    /** The button's disabled flag is the one the effect computes. */
    predicate Consistent()
      reads this
    {
      state.isButtonDisabled == ButtonDisabledFor(state, user)
    }

    /** The form as mounted: the initial state, then one run of the effect. */
    constructor (u: CurrentUser)
      ensures user == u && successMessage == ""
      ensures state == InitialState(u).(isButtonDisabled := ButtonDisabledFor(InitialState(u), u))
      ensures error == (if ConflictingChange(InitialState(u), u) then ConflictMessage else "")
      ensures Consistent()
    {
      user := u;
      var s0 := InitialState(u);
      state := s0;
      error := "";
      successMessage := "";
      new;
      assert !ConflictingChange(s0, u);
      ApplyEnableRule();
    }

    method Dispatch(a: Action)
      modifies this`state
      ensures state == Reduce(old(state), a)
    {
      state := Reduce(state, a);
    }

    /** Dispatching setIsButtonDisabled, which changes only the flag. */
    method DispatchButtonDisabled(b: bool)
      modifies this`state
      ensures state == old(state).(isButtonDisabled := b)
    {
      Dispatch(SetIsButtonDisabled(b));
    }

    /**
     * The effect that runs after the e-mail, the password or the confirmation
     * changes: it clears the error and sets the flag by the first three
     * checks, then overrides both when the change conflicts.
     */
    method ApplyEnableRule()
      modifies this`state, this`error
      ensures state == old(state).(isButtonDisabled := ButtonDisabledFor(old(state), user))
      ensures error == (if ConflictingChange(old(state), user) then ConflictMessage else "")
      ensures Consistent()
    {
      ghost var s0 := state;
      var checked := Trim(state.password) != Trim(state.passwordconfirm) || Trim(state.email) == "";
      if Trim(state.password) != Trim(state.passwordconfirm) {
        error := "";
        DispatchButtonDisabled(true);
      } else if Trim(state.email) != "" {
        error := "";
        DispatchButtonDisabled(false);
      } else {
        error := "";
        DispatchButtonDisabled(true);
      }
      assert state == s0.(isButtonDisabled := checked);
      if state.email != user.email && state.password != "" {
        error := ConflictMessage;
        DispatchButtonDisabled(true);
      }
      assert state.isButtonDisabled == ButtonDisabledFor(s0, user);
    }

    method ChangeEmail(v: string)
      modifies this`state, this`error
      ensures state == old(state).(email := v, isButtonDisabled := ButtonDisabledFor(old(state).(email := v), user))
      ensures error == (if ConflictingChange(old(state).(email := v), user) then ConflictMessage else "")
      ensures Consistent()
    {
      Dispatch(SetEmail(v));
      ApplyEnableRule();
    }

    method ChangePassword(v: string)
      modifies this`state, this`error
      ensures state == old(state).(password := v, isButtonDisabled := ButtonDisabledFor(old(state).(password := v), user))
      ensures error == (if ConflictingChange(old(state).(password := v), user) then ConflictMessage else "")
      ensures Consistent()
    {
      Dispatch(SetPassword(v));
      ApplyEnableRule();
    }

    method ChangePasswordConfirm(v: string)
      modifies this`state, this`error
      ensures state == old(state).(passwordconfirm := v, isButtonDisabled := ButtonDisabledFor(old(state).(passwordconfirm := v), user))
      ensures error == (if ConflictingChange(old(state).(passwordconfirm := v), user) then ConflictMessage else "")
      ensures Consistent()
    {
      Dispatch(SetPasswordConfirm(v));
      ApplyEnableRule();
    }

    /** The display name is not among the effect's dependencies: only the field changes. */
    method ChangeDisplayName(v: string)
      modifies this`state
      ensures state == old(state).(displayName := v)
      ensures old(Consistent()) ==> Consistent()
    {
      Dispatch(SetDisplayName(v));
      DisplayNameIgnored(old(state), user, v);
    }

    /** The handler's pushes onto its list of update calls. */
    method CollectRequests() returns (requests: seq<UpdateRequest>)
      ensures requests == RequestedUpdates(state, user)
    {
      requests := [];
      if state.password != "" {
        requests := requests + [UpdatePassword(state.password)];
      }
      if state.email != user.email {
        requests := requests + [UpdateEmail(state.email)];
      }
      if state.displayName != user.displayName.GetOr("") || user.displayName.None? {
        requests := requests + [UpdateProfile(state.displayName)];
      }
    }

    /**
     * handleUpdateProfile, with the outcomes of the requested updates (in the
     * order they settle) as a parameter. It requests exactly
     * RequestedUpdates; when all resolve it reports success and redirects to
     * the dashboard, otherwise it reports the first rejection and redirects to
     * the login page only for an expired session; either way the button ends
     * enabled.
     */
    method HandleUpdateProfile(outcomes: seq<AuthResult>) returns (requests: seq<UpdateRequest>, redirect: Option<string>)
      requires |outcomes| == |RequestedUpdates(state, user)|
      modifies this`state, this`error, this`successMessage
      ensures requests == RequestedUpdates(old(state), user)
      ensures state == old(state).(isButtonDisabled := false)
      ensures FirstRejection(outcomes).None? ==>
        error == "" && successMessage == SuccessMessage && redirect == Some(DashboardPath)
      ensures FirstRejection(outcomes).Some? ==>
        error == Message(ErrorFor(FirstRejection(outcomes).value)) && successMessage == "" &&
        redirect == RedirectFor(FirstRejection(outcomes).value)
      ensures old(Consistent()) && !old(state.isButtonDisabled) ==> Consistent()
    {
      error := "";
      successMessage := "";
      DispatchButtonDisabled(true);
      requests := CollectRequests();
      var settled := FirstRejection(outcomes);
      match settled {
        case None =>
          successMessage := SuccessMessage;
          DispatchButtonDisabled(false);
          redirect := Some(DashboardPath);
        case Some(code) =>
          error := Message(ErrorFor(code));
          redirect := RedirectFor(code);
          DispatchButtonDisabled(false);
      }
      DispatchButtonDisabled(false);
    }
  }
}
