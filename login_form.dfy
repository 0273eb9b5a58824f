/** The login form (`LoginItem`): the login submission and its failure
    classification. */
module Login {
  import opened Requests

  /** The body of `POST /api/user/login`. */
  datatype LoginRequest = LoginRequest(userId: string, password: string)

  /** The failure messages: wrong ID or password, the generic "unknown error,
      contact the operator" (the initial value), and the network error. */
  datatype LoginMessage = WrongCredentials | UnknownFailure | NetworkFailure

  /** The alert text: the response data on success; on failure the message
      followed by the status code, which renders as `null` when absent. */
  datatype LoginNotice =
    | LoginSucceeded(data: string)
    | LoginFailed(message: LoginMessage, statusCode: Option<int>)

  /** What evaluating an undeclared identifier throws. */
  datatype ThrownError = ReferenceError(identifier: string)

  /** How one run of the submit handler ends: with an alert, or by throwing out
      of the `catch` block, which rejects the handler's promise. */
  datatype HandlerEnd = Alerted(notice: LoginNotice) | Threw(thrown: ThrownError)

  /** The bare identifier that stands alone as a statement in the `catch` block
      (U+3161, HANGUL LETTER EU); nothing declares it. */
  const StrayIdentifier: string := "\U{3161}"

  /** The `catch` block's classification of a rejection. The status code is
      `error.response.status` for every HTTP failure, not only for 401. */
  method ClassifyFailure(err: RequestError) returns (message: LoginMessage, statusCode: Option<int>)
    ensures statusCode == err.Status()
    ensures message == WrongCredentials <==> err == HttpError(Unauthorized)
    ensures message == UnknownFailure <==> err.HttpError? && err.status != Unauthorized
    ensures message == NetworkFailure <==> err == NoResponse
  {
    message := UnknownFailure;
    statusCode := None;
    if err.HttpError? {
      statusCode := Some(err.status);
      if err.status == Unauthorized {
        message := WrongCredentials;
      }
    } else {
      message := NetworkFailure;
    }
  }

  class LoginForm {
    var id: string
    var password: string

    constructor ()
      ensures id == "" && password == ""
    {
      id, password := "", "";
    }

    /** The ID box's change handler. */
    method OnIdChange(value: string)
      modifies this`id
      ensures id == value
    {
      id := value;
    }

    /** The password box's change handler. */
    method OnPasswordChange(value: string)
      modifies this`password
      ensures password == value
    {
      password := value;
    }

    /** `handleSubmit` as written. The request is always issued, empty fields
        included. On success the alert carries the response data and both
        fields are cleared. On failure the message and status code are
        computed, then the stray identifier throws: no alert is shown and
        both fields keep what the user typed. */
    method Submit(outcome: Outcome) returns (request: LoginRequest, end: HandlerEnd)
      modifies this`id, this`password
      ensures request == LoginRequest(old(id), old(password))
      ensures outcome.Success? ==>
                end == Alerted(LoginSucceeded(outcome.data)) && id == "" && password == ""
      ensures outcome.Failed? ==>
                end == Threw(ReferenceError(StrayIdentifier)) && id == old(id) && password == old(password)
    {
      request := LoginRequest(id, password);
      match outcome {
        case Success(data) =>
          end := Alerted(LoginSucceeded(data));
          id, password := "", "";
        case Failed(err) =>
          var message, statusCode := ClassifyFailure(err);
          end := Threw(ReferenceError(StrayIdentifier));
      }
    }

    /** `handleSubmit` without the stray statement: every failure shows its
        classified message and status code, and both fields are cleared on
        every outcome. */
    method SubmitCorrected(outcome: Outcome) returns (request: LoginRequest, end: HandlerEnd)
      modifies this`id, this`password
      ensures request == LoginRequest(old(id), old(password))
      ensures end.Alerted? && id == "" && password == ""
      ensures outcome.Success? ==> end.notice == LoginSucceeded(outcome.data)
      ensures outcome.Failed? ==>
                && end.notice.LoginFailed?
                && end.notice.statusCode == outcome.error.Status()
                && (end.notice.message == WrongCredentials <==> outcome.error == HttpError(Unauthorized))
                && (end.notice.message == NetworkFailure <==> outcome.error == NoResponse)
    {
      request := LoginRequest(id, password);
      match outcome {
        case Success(data) =>
          end := Alerted(LoginSucceeded(data));
          id, password := "", "";
        case Failed(err) =>
          var message, statusCode := ClassifyFailure(err);
          end := Alerted(LoginFailed(message, statusCode));
          id, password := "", "";
      }
    }
  }

  /** A failed login on the form as written: the user's input survives and no
      alert appears, for every kind of failure. */
  method FailedLoginAsWritten(userId: string, pw: string, err: RequestError)
    returns (request: LoginRequest, end: HandlerEnd, idAfter: string, passwordAfter: string)
    ensures request == LoginRequest(userId, pw)
    ensures end == Threw(ReferenceError(StrayIdentifier))
    ensures idAfter == userId && passwordAfter == pw
  {
    var f := new LoginForm();
    f.OnIdChange(userId);
    f.OnPasswordChange(pw);
    request, end := f.Submit(Failed(err));
    idAfter, passwordAfter := f.id, f.password;
  }

  /** The same failed login with the stray statement removed: the alert names
      the failure and the fields are cleared. */
  method FailedLoginCorrected(userId: string, pw: string, err: RequestError)
    returns (request: LoginRequest, end: HandlerEnd, idAfter: string, passwordAfter: string)
    ensures request == LoginRequest(userId, pw)
    ensures end.Alerted? && end.notice.LoginFailed? && end.notice.statusCode == err.Status()
    ensures err == HttpError(401) ==> end.notice.message == WrongCredentials
    ensures err == HttpError(500) ==> end.notice == LoginFailed(UnknownFailure, Some(500))
    ensures err == NoResponse ==> end.notice == LoginFailed(NetworkFailure, None)
    ensures idAfter == "" && passwordAfter == ""
  {
    var f := new LoginForm();
    f.OnIdChange(userId);
    f.OnPasswordChange(pw);
    request, end := f.SubmitCorrected(Failed(err));
    idAfter, passwordAfter := f.id, f.password;
  }

  /** A successful login: the alert carries the response data, both fields are
      cleared, and the same request is sent whichever handler runs. */
  method SuccessfulLogin(userId: string, pw: string, data: string)
    returns (request: LoginRequest, end: HandlerEnd, idAfter: string, passwordAfter: string)
    ensures request == LoginRequest(userId, pw)
    ensures end == Alerted(LoginSucceeded(data))
    ensures idAfter == "" && passwordAfter == ""
  {
    var f := new LoginForm();
    f.OnIdChange(userId);
    f.OnPasswordChange(pw);
    request, end := f.Submit(Success(data));
    idAfter, passwordAfter := f.id, f.password;
  }

  /** Two submissions of the same typed credentials, each settled before the
      next, issue two identical requests. */
  method LoginTwice(userId: string, pw: string, first: Outcome, second: Outcome)
    returns (requests: seq<LoginRequest>)
    ensures requests == [LoginRequest(userId, pw), LoginRequest(userId, pw)]
  {
    var f := new LoginForm();
    f.OnIdChange(userId);
    f.OnPasswordChange(pw);
    var r1, _ := f.Submit(first);
    f.OnIdChange(userId);
    f.OnPasswordChange(pw);
    var r2, _ := f.Submit(second);
    requests := [r1, r2];
  }

  /** On the form as written, submitting again right after a failed login,
      without typing anything, sends the kept credentials a second time. */
  method RetryAfterFailedLogin(userId: string, pw: string, err: RequestError, second: Outcome)
    returns (first: LoginRequest, retry: LoginRequest)
    ensures first == LoginRequest(userId, pw) && retry == first
  {
    var f := new LoginForm();
    f.OnIdChange(userId);
    f.OnPasswordChange(pw);
    var end1, end2;
    first, end1 := f.Submit(Failed(err));
    retry, end2 := f.Submit(second);
  }

  /** With the correction, the same retry sends empty credentials, because the
      failure cleared both fields. */
  method RetryAfterFailedLoginCorrected(userId: string, pw: string, err: RequestError, second: Outcome)
    returns (first: LoginRequest, retry: LoginRequest)
    ensures first == LoginRequest(userId, pw) && retry == LoginRequest("", "")
  {
    var f := new LoginForm();
    f.OnIdChange(userId);
    f.OnPasswordChange(pw);
    var end1, end2;
    first, end1 := f.SubmitCorrected(Failed(err));
    retry, end2 := f.SubmitCorrected(second);
  }
}
