/** The registration form (`JoinItem`): live password checking and the signup
    submission. */
module Join {
  import opened Requests
  import opened PasswordPolicy

  /** What the `error` state holds: nothing, the advisory "this password can be
      used", or "ID and password are required". */
  datatype FormMessage = NoMessage | UsablePassword | FieldsRequired

  /** The body of `POST /api/user/signup`. */
  datatype SignupRequest = SignupRequest(userId: string, password: string, email: string)

  /** The alert shown once the request has settled. */
  datatype JoinNotice =
    | SignupSucceeded
    | DuplicateId(status: int)      // "this ID already exists (statuscode: …)"
    | UnknownError(status: int)     // "unknown error, contact the operator (statuscode: …)"
    | NetworkProblem                // "check your network connection"
  {
    /** The status code the alert text carries, if any. */
    function StatusShown(): (code: Option<int>)
      ensures code.Some? <==> DuplicateId? || UnknownError?
      ensures code.Some? ==> code.value == status
    {
      match this
      case DuplicateId(status) => Some(status)
      case UnknownError(status) => Some(status)
      case _ => None
    }
  }

  /** The alert of the `catch` block, chosen from the rejection. */
  function FailureNotice(err: RequestError): (n: JoinNotice)
    ensures n != SignupSucceeded
    ensures n.DuplicateId? <==> err == HttpError(Unauthorized)
    ensures n.UnknownError? <==> err.HttpError? && err.status != Unauthorized
    ensures n == NetworkProblem <==> err == NoResponse
    ensures n.StatusShown() == err.Status()
  {
    match err
    case HttpError(status) =>
      if status == Unauthorized then DuplicateId(status) else UnknownError(status)
    case NoResponse => NetworkProblem
  }

  class JoinForm {
    var id: string
    var password: string
    var email: string
    var error: FormMessage
    var isPasswordFocused: bool
    var criteria: Criteria

    /** The criteria describe the password whenever the password box is not
        empty, and the advisory message is shown only for a password that
        meets all four. After a submission the password is empty while the
        criteria keep describing the previous one. */
    ghost predicate Valid()
      reads this
    {
      && (password != "" ==> criteria == Evaluate(password))
      && (error == UsablePassword ==> criteria.AllMet())
    }

    /** The criteria panel is rendered when the password box has the focus and
        not every criterion is met. */
    function PanelShown(): (shown: bool)
      reads this
      ensures shown ==> isPasswordFocused
      ensures Valid() && password != "" ==>
                (shown <==> isPasswordFocused && !Evaluate(password).AllMet())
    {
      isPasswordFocused && !criteria.AllMet()
    }

    constructor ()
      ensures Valid()
      ensures id == "" && password == "" && email == "" && error == NoMessage
      ensures !isPasswordFocused && criteria == NoneMet
      ensures criteria == Evaluate(password)
    {
      id, password, email, error := "", "", "", NoMessage;
      isPasswordFocused := false;
      criteria := NoneMet;
    }

    /** The ID box's change handler. */
    method OnIdChange(value: string)
      requires Valid()
      modifies this`id
      ensures Valid() && id == value
    {
      id := value;
    }

    /** The email box's change handler; the address is never checked. */
    method OnEmailChange(value: string)
      requires Valid()
      modifies this`email
      ensures Valid() && email == value
    {
      email := value;
    }

    /** The password box's focus and blur handlers. */
    method SetPasswordFocus(focused: bool)
      requires Valid()
      modifies this`isPasswordFocused
      ensures Valid() && isPasswordFocused == focused
    {
      isPasswordFocused := focused;
    }

    /** `validatePassword`: recompute the criteria and the advisory message. */
    method ValidatePassword(value: string)
      requires password == value
      modifies this`criteria, this`error
      ensures Valid()
      ensures criteria == Evaluate(value)
      ensures error == if criteria.AllMet() then UsablePassword else NoMessage
    {
      var hasUppercase := Test(Uppercase, value);
      var hasNumber := Test(Digit, value);
      var hasSpecialChar := Test(Special, value);
      var isLongEnough := Utf16Length(value) >= MinLength;
      criteria := Criteria(hasUppercase, hasNumber, hasSpecialChar, isLongEnough);
      if !hasUppercase || !hasNumber || !hasSpecialChar || !isLongEnough {
        error := NoMessage;
      } else {
        error := UsablePassword;
      }
    }

    /** `handlePasswordChange`: store the new password, then validate it. */
    method OnPasswordChange(value: string)
      requires Valid()
      modifies this`password, this`criteria, this`error
      ensures Valid()
      ensures password == value && criteria == Evaluate(value)
      ensures error == if criteria.AllMet() then UsablePassword else NoMessage
    {
      password := value;
      ValidatePassword(value);
    }

    /** `handleSubmit`. An empty ID or password is refused locally; otherwise
        the request is issued, its outcome picks the alert, and the ID,
        password, email and message are cleared on every outcome. The criteria
        are never reset, and the focus is not touched. */
    method Submit(outcome: Outcome) returns (request: Option<SignupRequest>, notice: Option<JoinNotice>)
      requires Valid()
      modifies this`id, this`password, this`email, this`error
      ensures Valid()
      ensures request.None? <==> old(id) == "" || old(password) == ""
      ensures request.None? ==>
                && notice.None? && error == FieldsRequired
                && id == old(id) && password == old(password) && email == old(email)
      ensures request.Some? ==>
                && request.value == SignupRequest(old(id), old(password), old(email))
                && notice == Some(if outcome.Success? then SignupSucceeded else FailureNotice(outcome.error))
                && id == "" && password == "" && email == "" && error == NoMessage
      ensures criteria == old(criteria)
    {
      if id == "" || password == "" {
        error := FieldsRequired;
        return None, None;
      }
      request := Some(SignupRequest(id, password, email));
      match outcome {
        case Success(_) =>
          notice := Some(SignupSucceeded);
          id, password, email, error := "", "", "", NoMessage;
        case Failed(err) =>
          notice := Some(FailureNotice(err));
          id, password, email, error := "", "", "", NoMessage;
      }
    }
  }

  /** In any reachable state with a non-empty password, the panel is shown iff
      the box has the focus and the password misses some criterion. */
  lemma PanelReflectsPassword(f: JoinForm)
    requires f.Valid() && f.password != ""
    ensures f.PanelShown() <==>
              && f.isPasswordFocused
              && !(&& (exists i :: 0 <= i < |f.password| && 'A' <= f.password[i] <= 'Z')
                   && (exists i :: 0 <= i < |f.password| && '0' <= f.password[i] <= '9')
                   && (exists i :: 0 <= i < |f.password| && f.password[i] in "!@#$%^&*")
                   && Utf16Length(f.password) >= MinLength)
  {
  }

  /** The advisory message and the panel never show together. */
  lemma AdvisoryHidesPanel(f: JoinForm)
    requires f.Valid()
    ensures f.error == UsablePassword ==> !f.PanelShown()
  {
  }

  /** One user session on a fresh form: type an ID, a password and an email,
      focus the password box, submit, and receive `outcome`. */
  method RegisterOnce(userId: string, pw: string, mail: string, outcome: Outcome)
    returns (request: Option<SignupRequest>, notice: Option<JoinNotice>,
             message: FormMessage, idAfter: string, passwordAfter: string, emailAfter: string,
             panelAfter: bool)
    ensures request.None? <==> userId == "" || pw == ""
    ensures request.None? ==>
              && notice.None? && message == FieldsRequired
              && idAfter == userId && passwordAfter == pw && emailAfter == mail
    ensures request.Some? ==>
              && request.value == SignupRequest(userId, pw, mail)
              && message == NoMessage && idAfter == "" && passwordAfter == "" && emailAfter == ""
    ensures outcome == Failed(HttpError(401)) && request.Some? ==>
              notice == Some(DuplicateId(401)) && notice.value.StatusShown() == Some(401)
    ensures outcome == Failed(HttpError(500)) && request.Some? ==>
              notice == Some(UnknownError(500)) && notice.value.StatusShown() == Some(500)
    ensures outcome == Failed(NoResponse) && request.Some? ==>
              notice == Some(NetworkProblem) && notice.value.StatusShown().None?
    // the panel still answers for the submitted password, not for the empty box
    ensures panelAfter <==> !Evaluate(pw).AllMet()
  {
    var f := new JoinForm();
    f.OnIdChange(userId);
    f.OnPasswordChange(pw);
    f.OnEmailChange(mail);
    f.SetPasswordFocus(true);
    request, notice := f.Submit(outcome);
    message, idAfter, passwordAfter, emailAfter := f.error, f.id, f.password, f.email;
    panelAfter := f.PanelShown();
  }

  const SamplePassword: string := "Secret1!"

  lemma SampleIsStrong()
    ensures Evaluate(SamplePassword).AllMet()
  {
  }

  /** A strong password is submitted; with the box emptied and focused again,
      the panel stays hidden although the empty password meets no criterion. */
  method StalePanelAfterSignup(outcome: Outcome) returns (passwordAfter: string, panelAfter: bool)
    ensures passwordAfter == "" && !Evaluate(passwordAfter).AllMet()
    ensures !panelAfter
  {
    var f := new JoinForm();
    f.OnIdChange("alice");
    SampleIsStrong();
    f.OnPasswordChange(SamplePassword);
    var _, _ := f.Submit(outcome);
    f.SetPasswordFocus(true);
    passwordAfter, panelAfter := f.password, f.PanelShown();
  }
}
