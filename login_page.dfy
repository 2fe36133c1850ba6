/**
 * The administrator login page: the form state, its validator, the gate in
 * front of the login call, and what happens with the call's outcome.
 */
module LoginPage {
  import opened Wrappers
  import opened Ui

  /** The form state; `kind` is the `type` field, which the call ignores. */
  datatype LoginForm = LoginForm(username: string, password: string, kind: string)

  datatype Field = Username | Password | Kind

  function FieldName(field: Field): string
  {
    match field
    case Username => "username"
    case Password => "password"
    case Kind => "type"
  }

  const Initial := LoginForm("", "", "admin")

  /** The only message the page sets ("must be entered"). */
  datatype Message = Required

  function Wording(m: Message): string
  {
    match m
    case Required => "Bắt buộc phải nhập"
  }

  /** The arguments of `authApi.login`. */
  datatype LoginRequest = LoginRequest(username: string, password: string, kind: string)

  /** The outcome of the login call: a token, or the client's error. */
  datatype LoginResult = Token(token: string) | Failed(error: ApiError)

  /** `validate()`: a required message for each empty credential. */
  function Validate(form: LoginForm): (errors: map<Field, Message>)
    ensures Username in errors <==> form.username == ""
    ensures Password in errors <==> form.password == ""
    ensures Kind !in errors
    ensures forall field :: field in errors ==> errors[field] == Required
  {
    (if form.username == "" then map[Username := Required] else map[])
    + (if form.password == "" then map[Password := Required] else map[])
  }

  /**
   * The call `handleSubmit` makes, as written: the gate reads the error map
   * of the render the handler belongs to, not the one `validate()` has just
   * scheduled, so `previous` is the map left by the last submit.
   */
  function SubmitRequest(previous: map<Field, Message>, form: LoginForm): (request: Option<LoginRequest>)
    ensures request.Some? <==> previous == map[]
    ensures request.Some? ==> request.value == LoginRequest(form.username, form.password, "admin")
  {
    if previous == map[] then Some(LoginRequest(form.username, form.password, "admin")) else None
  }

  /** The first submit of the untouched form sends blank credentials. */
  lemma BlankFirstSubmitCallsLogin()
    ensures Validate(Initial) != map[]
    ensures SubmitRequest(map[], Initial) == Some(LoginRequest("", "", "admin"))
  {
    assert Username in Validate(Initial);
  }

  /**
   * After that, a filled-in form is held back once: the gate still sees the
   * errors of the blank submit.
   */
  lemma FilledFormHeldBackOnce(form: LoginForm)
    requires form.username != "" && form.password != ""
    ensures Validate(form) == map[]
    ensures SubmitRequest(Validate(Initial), form) == None
  {
    assert Username in Validate(Initial);
    assert Validate(form).Keys == {};
  }

  /** The gate as evidently intended: on the errors just computed. */
  function IntendedRequest(form: LoginForm): (request: Option<LoginRequest>)
    ensures request.Some? <==> form.username != "" && form.password != ""
    ensures request.Some? ==> request.value == LoginRequest(form.username, form.password, "admin")
  {
    SubmitRequest(Validate(form), form)
  }

  /**
   * What follows the call: the token is stored and then the home page
   * opened; a failure alerts the status text, and a failure without a
   * response makes the handler itself throw.
   */
  function Outcome(result: LoginResult): (effects: seq<Effect>)
    ensures result.Token? ==> effects == [StoreToken(result.token), Navigate("/")]
    ensures result.Failed? && result.error.HttpError? ==> effects == [Alert(result.error.statusText)]
    ensures result.Failed? && result.error.NoResponse? ==> effects == [UnhandledRejection]
  {
    match result
    case Token(token) => [StoreToken(token), Navigate("/")]
    case Failed(HttpError(_, statusText, _)) => [Alert(statusText)]
    case Failed(NoResponse(_)) => [UnhandledRejection]
  }

  /** The state of the mounted page. */
  class LoginPageState {
    var form: LoginForm
    var errors: map<Field, Message>

    constructor ()
      ensures form == Initial && errors == map[]
    {
      form := Initial;
      errors := map[];
    }

    /** `handleChange`: only the named field changes. */
    method HandleChange(field: Field, value: string)
      modifies this
      ensures errors == old(errors)
      ensures form == match field
        case Username => old(form).(username := value)
        case Password => old(form).(password := value)
        case Kind => old(form).(kind := value)
    {
      match field {
        case Username => form := form.(username := value);
        case Password => form := form.(password := value);
        case Kind => form := form.(kind := value);
      }
    }

    /**
     * `handleSubmit` as written: the errors are replaced by `validate()`,
     * but the gate reads the map from before. `result` is the outcome the
     * login call would have.
     */
    method HandleSubmit(result: LoginResult) returns (request: Option<LoginRequest>, effects: seq<Effect>)
      modifies this
      ensures form == old(form) && errors == Validate(old(form))
      ensures request == SubmitRequest(old(errors), old(form))
      ensures effects == if request.Some? then Outcome(result) else []
    {
      var stale := errors;
      errors := Validate(form);
      request := SubmitRequest(stale, form);
      effects := if request.Some? then Outcome(result) else [];
    }

    /** `handleSubmit` with the gate on the errors just computed. */
    method HandleSubmitIntended(result: LoginResult) returns (request: Option<LoginRequest>, effects: seq<Effect>)
      modifies this
      ensures form == old(form) && errors == Validate(old(form))
      ensures request == IntendedRequest(old(form))
      ensures effects == if request.Some? then Outcome(result) else []
    {
      errors := Validate(form);
      request := IntendedRequest(form);
      effects := if request.Some? then Outcome(result) else [];
    }
  }
}
