# Registration and login forms, modelled in Dafny

The repository is a small browser client with two form components. `JoinItem`
registers an account and `LoginItem` logs in. Each sends at most one POST to a
remote API. The registration form sends nothing when the ID or password is
empty, and alerts every settled outcome. The login form, as written, alerts
only a success (see Findings). This project models both forms'
handlers as small state machines:

- `requests.dfy`, module `Requests`: what a submission can come back with.
  The result is a value given to the handler: `Success(data)`, or
  `Failed(HttpError(status))` / `Failed(NoResponse)`. `RequestError.Status`
  is `error.response.status`.
- `password_policy.dfy`, module `PasswordPolicy`: the four password criteria
  of `validatePassword`. They are an ASCII uppercase letter, an ASCII digit,
  one of `!@#$%^&*`, and a length of at least 6. Each is characterised
  exactly. JavaScript's `length` counts UTF-16 code units, while a Dafny
  `char` is a Unicode scalar value. So the length criterion is stated over
  `Utf16Length`, which counts a character outside the Basic Multilingual Plane
  twice. A lemma shows that this is "at least six characters" whenever no such
  character is present.
- `join_form.dfy`, module `Join`: class `JoinForm`. Its fields are `id`,
  `password`, `email`, `error`, `isPasswordFocused` and `criteria`, with one
  method per handler. `FailureNotice` is the `catch` block's choice of alert.
  The object invariant `Valid` says two things. The criteria describe the
  password whenever the password box is not empty. The "usable password"
  advisory appears only when all four criteria hold.
- `login_form.dfy`, module `Login`: class `LoginForm` with `id` and
  `password`. `ClassifyFailure` is the `catch` block's imperative
  classification into a message and a status code. `Submit` models the
  handler as written: the stray statement on line 39 throws. `SubmitCorrected`
  models the handler without that statement.

Alerts are returned as notice tokens instead of the Korean strings. The
network call is replaced by its outcome, given as a parameter. A request is
returned as the body that would have been posted. Client methods such as
`RegisterOnce`, `FailedLoginAsWritten` and `LoginTwice` run whole user
sessions on fresh forms.

Three behaviours of the code are easy to miss:

- On a login with an HTTP failure, the status code is the response's real
  status for every status, not only for 401 (`LoginItem.jsx:31`).
- On a failed login the fields are not cleared and no alert appears, because
  line 39 throws first (see Findings).
- The registration form's reset clears `id`, `password`, `email` and `error`,
  but not `passwordCriteria`. The criteria therefore go stale after a
  submission. After a strong password, `StalePanelAfterSignup` shows that the
  panel stays hidden over the empty password box. After a weak password, the
  panel is shown over the empty box with the old password's marks.
  `RegisterOnce` states both cases: afterwards the panel answers for the
  submitted password.

## Model

| member | source | states |
|---|---|---|
| Requests.RequestError.Status | apisession_hard/src/Components/JoinItem.jsx:71-72 | The status is present exactly when the rejection carries an HTTP response, and it is that response's status. |
| PasswordPolicy.Test | apisession_hard/src/Components/JoinItem.jsx:22-24 | A single-class regular expression test succeeds iff some character of the string is in the class. |
| PasswordPolicy.Evaluate | apisession_hard/src/Components/JoinItem.jsx:21-25 | `hasUppercase` iff some character is in 'A'..'Z'. `hasNumber` iff some character is in '0'..'9'. `hasSpecialChar` iff some character is one of `!@#$%^&*`. `isLongEnough` iff the UTF-16 length is at least 6. |
| PasswordPolicy.CharClass.Matches | apisession_hard/src/Components/JoinItem.jsx:22-24 | Only ASCII characters are in any of the three regular-expression classes. |
| PasswordPolicy.CodeUnits | apisession_hard/src/Components/JoinItem.jsx:25 | Each character adds one or two UTF-16 code units to `value.length`. |
| PasswordPolicy.Utf16Length | apisession_hard/src/Components/JoinItem.jsx:25 | JavaScript's `value.length` lies between the number of characters and twice that. |
| PasswordPolicy.Utf16LengthOfBmp | apisession_hard/src/Components/JoinItem.jsx:25 | Without characters outside the Basic Multilingual Plane, the JavaScript length is the number of characters. |
| PasswordPolicy.Utf16LengthAppend | apisession_hard/src/Components/JoinItem.jsx:25 | The JavaScript length of a concatenation is the sum of the lengths. |
| PasswordPolicy.LongEnoughByCharacters | apisession_hard/src/Components/JoinItem.jsx:25 | Six characters always meet the length criterion. For a BMP-only password the criterion holds iff there are at least six characters. |
| PasswordPolicy.AppendKeepsCriteria | apisession_hard/src/Components/JoinItem.jsx:21-25 | Appending characters never turns a met criterion, or all four together, into an unmet one. |
| Join.FailureNotice | apisession_hard/src/Components/JoinItem.jsx:70-87 | 401 gives the duplicate-ID notice carrying 401. Any other status gives the unknown-error notice carrying that status. No response gives the network notice with no status. It is never the success notice. |
| Join.JoinNotice.StatusShown | apisession_hard/src/Components/JoinItem.jsx:73-81 | Only the duplicate-ID and unknown-error alerts carry a status code in their text, and the code is the response status. |
| Join.JoinForm.PanelShown | apisession_hard/src/Components/JoinItem.jsx:118-124 | The panel is shown only when the password box has the focus. In a reachable state with a non-empty password, it is shown iff the box is focused and not `Evaluate(password).AllMet()`, where `Criteria.AllMet` is the conjunction at lines 119-123. |
| Join.JoinForm.constructor | apisession_hard/src/Components/JoinItem.jsx:9-19 | All text fields are empty, there is no message, the box is not focused, and no criterion is met, which agrees with the empty password. |
| Join.JoinForm.OnIdChange | apisession_hard/src/Components/JoinItem.jsx:104 | Sets `id` and nothing else. |
| Join.JoinForm.OnEmailChange | apisession_hard/src/Components/JoinItem.jsx:148 | Sets `email` and nothing else. The address is not checked. |
| Join.JoinForm.SetPasswordFocus | apisession_hard/src/Components/JoinItem.jsx:112-113 | Sets the focus flag and nothing else. |
| Join.JoinForm.ValidatePassword | apisession_hard/src/Components/JoinItem.jsx:21-39 | Called with the stored password, it makes the criteria `Evaluate(value)` and keeps the invariant. The message is the "usable password" advisory iff `criteria.AllMet()`, otherwise empty; line 34 tests the negation of that conjunction. Nothing else changes. |
| Join.JoinForm.OnPasswordChange | apisession_hard/src/Components/JoinItem.jsx:41-45 | The password becomes the new value, and the criteria and advisory follow it as in `ValidatePassword`. The invariant is kept. |
| Join.JoinForm.Submit | apisession_hard/src/Components/JoinItem.jsx:47-95 | No request iff `id` or `password` is empty. Then the message is "fields required", there is no alert, and the fields are unchanged. Otherwise the request carries the three fields. The success notice or `FailureNotice` is shown, and `id`, `password`, `email` and `error` are cleared. On both paths the criteria keep their old value. |
| Join.PanelReflectsPassword | apisession_hard/src/Components/JoinItem.jsx:118-124 | With a non-empty password, the panel is shown iff the box is focused and the password misses some criterion, each criterion spelled out over its characters. |
| Join.AdvisoryHidesPanel | apisession_hard/src/Components/JoinItem.jsx:116-124 | The "usable password" advisory and the criteria panel are never shown together. |
| Join.SampleIsStrong | apisession_hard/src/Components/JoinItem.jsx:21-25 | "Secret1!" meets all four criteria. |
| Join.RegisterOnce | apisession_hard/src/Components/JoinItem.jsx:47-124 | For a whole session on a fresh form: an empty ID or password gives no request and the required-fields message. Otherwise the request carries the input, and the ID, password, email and message are cleared. 401, 500 and no response give the notices with 401, 500 and no status. Afterwards the panel still answers for the submitted password. |
| Join.StalePanelAfterSignup | apisession_hard/src/Components/JoinItem.jsx:66-69 | After submitting a strong password, the box is empty and meets no criterion, yet the panel stays hidden when the box is focused. |
| Login.ClassifyFailure | apisession_hard/src/Components/LoginItem.jsx:26-38 | The status code is the response status for every HTTP failure and absent without a response. The message is wrong-credentials iff the status is 401, generic iff another status, and network iff no response, so exactly one applies. |
| Login.LoginForm.constructor | apisession_hard/src/Components/LoginItem.jsx:7-8 | Both fields start empty. |
| Login.LoginForm.OnIdChange | apisession_hard/src/Components/LoginItem.jsx:57 | Sets `id` and nothing else. |
| Login.LoginForm.OnPasswordChange | apisession_hard/src/Components/LoginItem.jsx:64 | Sets `password` and nothing else. |
| Login.LoginForm.Submit | apisession_hard/src/Components/LoginItem.jsx:10-48 | As written: the request always carries both fields, even empty ones. On success the alert carries the response data and both fields are cleared. On any failure the handler throws a ReferenceError, with no alert and both fields unchanged. |
| Login.LoginForm.SubmitCorrected | apisession_hard/src/Components/LoginItem.jsx:10-48 | Without line 39: every outcome shows an alert and clears both fields. A failure shows the classified message with the response status, or no status. |
| Login.FailedLoginAsWritten | apisession_hard/src/Components/LoginItem.jsx:25-46 | For every failure kind, a failed login keeps the typed ID and password and ends by throwing. |
| Login.FailedLoginCorrected | apisession_hard/src/Components/LoginItem.jsx:25-46 | With the correction, a failed login clears both fields. It alerts wrong-credentials for 401, generic with 500 for 500, and network with no status for no response. |
| Login.SuccessfulLogin | apisession_hard/src/Components/LoginItem.jsx:13-24 | A successful login posts the typed credentials, alerts with the response data and clears both fields. |
| Login.LoginTwice | apisession_hard/src/Components/LoginItem.jsx:10-20 | Two settled submissions of the same typed credentials issue two identical requests. |
| Login.RetryAfterFailedLogin | apisession_hard/src/Components/LoginItem.jsx:10-46 | As written, submitting again after a failed login, without retyping, sends the same credentials again, because the fields were kept. |
| Login.RetryAfterFailedLoginCorrected | apisession_hard/src/Components/LoginItem.jsx:10-46 | With the correction, the failure clears both fields, so the handler, if it runs, sends an empty ID and password. The browser's `required` check would block that submit. |

## Left out

- The axios POST calls, the server URL and `import.meta.env` are network I/O and configuration. The outcome of each call is a parameter of `Submit`.
- `alert`, `console.log` and `console.error` are UI and logging effects. Alerts are returned as notice tokens, and logging is not modelled.
- async/await interleaving and double submission: each submission is modelled as atomic and settled before the next one starts.
- React's batching of state updates and re-rendering: state updates are sequential field assignments, and rendering is modelled only as `JoinForm.PanelShown`.
- The exact alert and message strings, which are Korean text: each is a datatype constructor. Where a text interpolates a status code, the constructor carries the code.
- The rejected promise of the login handler after line 39 throws: the model records the thrown `ReferenceError` and stops there.
- Browser-native `required` validation and email format checks are done by the browser, not by the handlers. The handlers never check the email.
- Styled components, layout and `App.jsx`: these hold no logic.
- Strings with a lone UTF-16 surrogate: a Dafny `char` is a Unicode scalar value, so the model covers only well-formed strings. A JavaScript string may hold a lone surrogate, which counts 1 toward `length`.
- The response body: `response.data` may be any parsed JSON value. `Success(data)` holds the text that `${response.data}` renders in the login alert, and the registration form only logs it.
- HTTP statuses on a rejection: the status is any integer. The model does not restrict it to the non-2xx statuses for which the HTTP client rejects.

## Findings

| source | as written | input that shows it | evidently intended | confidence | as-written member | corrected member |
|---|---|---|---|---|---|---|
| apisession_hard/src/Components/LoginItem.jsx:39 | A bare undeclared identifier stands as a statement inside `catch`. Evaluating it throws a ReferenceError before the alert (line 42) and the field reset (lines 45-46). | Any failed login, e.g. ID "alice", password "pw", response status 500 | Show the classified message with the status code, then clear both fields, as the comments on lines 41 and 44 say | not executed | Login.FailedLoginAsWritten | Login.FailedLoginCorrected |
