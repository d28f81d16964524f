/**
 * The lead-capture form of the page footer (src/sections/Footer.tsx): its
 * validator `validateForm`, and the component state that `handleChange`,
 * `handleSubmit` and the 3-second reset timer update.
 */
module Footer {
  import opened Wrappers
  import opened Text
  import opened PhonePattern
  import opened Retry

  /** The three form fields, exactly as typed (never trimmed in place). */
  datatype FormData = FormData(name: string, phone: string, grade: string)

  const EmptyForm: FormData := FormData("", "", "")

  datatype Field = Name | Phone | Grade

  /** `{ ...formData, [e.target.name]: e.target.value }` (lines 20-23). */
  function WithField(f: FormData, field: Field, value: string): (g: FormData)
    ensures field == Name ==> g == FormData(value, f.phone, f.grade)
    ensures field == Phone ==> g == FormData(f.name, value, f.grade)
    ensures field == Grade ==> g == FormData(f.name, f.phone, value)
  {
    match field
    case Name => f.(name := value)
    case Phone => f.(phone := value)
    case Grade => f.(grade := value)
  }

  /** The four checks of `validateForm`, in the order they run. */
  datatype ValidationError = EmptyName | EmptyPhone | InvalidPhoneFormat | EmptyGrade {
    /** The text shown to the user for this failure (lines 28, 32, 38, 42). */
    function Message(): string {
      match this
      case EmptyName => "请填写您的姓名"
      case EmptyPhone => "请填写联系电话"
      case InvalidPhoneFormat => "请填写正确的手机号码"
      case EmptyGrade => "请填写孩子年级"
    }
  }

  /** Shown when the server answers with a non-2xx status and no usable `message` (line 123). */
  const DefaultFailureMessage: string := "提交失败，请稍后重试"

  /** Shown when every attempt threw or the response body was not JSON (line 127). */
  const WarmingUpMessage: string := "服务器启动中，请稍后重试（首次访问需要 1-2 分钟）"

  /** `maxRetries` as handleSubmit passes it (line 109). */
  const MaxRetries: int := 2

  /**
   * `validateForm` (lines 26-46) as a value: the first check that fails, or
   * None when the form may be sent.  The name, phone and grade are judged
   * after trimming; a blank phone is reported as missing, not as malformed.
   */
  function Validate(f: FormData): (r: Option<ValidationError>)
    ensures r == None <==> Trim(f.name) != "" && IsMobileNumber(Trim(f.phone)) && Trim(f.grade) != ""
    ensures r == Some(EmptyName) <==> Trim(f.name) == ""
    ensures r == Some(EmptyPhone) <==> Trim(f.name) != "" && Trim(f.phone) == ""
    ensures r == Some(InvalidPhoneFormat)
        <==> Trim(f.name) != "" && Trim(f.phone) != "" && !IsMobileNumber(Trim(f.phone))
    ensures r == Some(EmptyGrade)
        <==> Trim(f.name) != "" && IsMobileNumber(Trim(f.phone)) && Trim(f.grade) == ""
  {
    if Trim(f.name) == "" then Some(EmptyName)
    else if Trim(f.phone) == "" then Some(EmptyPhone)
    else if !TestMobile(Trim(f.phone)) then Some(InvalidPhoneFormat)
    else if Trim(f.grade) == "" then Some(EmptyGrade)
    else None
  }

  /**
   * Short-circuiting: a failure is decided by the fields checked up to and
   * including it; the fields checked only later cannot change it.
   */
  lemma FirstFailureIgnoresLaterFields(f: FormData, g: FormData)
    requires Validate(f).Some?
    requires f.name == g.name
    requires Validate(f) != Some(EmptyName) ==> f.phone == g.phone
    requires Validate(f) == Some(EmptyGrade) ==> f.grade == g.grade
    ensures Validate(g) == Validate(f)
  {
  }

  datatype SubmitStatus = Idle | Success | Error

  /** The four `useState` variables of the component (lines 10-17). */
  datatype FormState = FormState(formData: FormData, isSubmitting: bool, submitStatus: SubmitStatus, errorMessage: string)

  const InitialState: FormState := FormState(EmptyForm, false, Idle, "")

  /** `data.message || '提交失败，请稍后重试'`: a missing or empty message falls back to the default. */
  function FailureMessage(message: Option<string>): (m: string)
    ensures message.Some? && message.value != "" ==> m == message.value
    ensures message == None || message == Some("") ==> m == DefaultFailureMessage
    ensures m != ""
  {
    match message
    case Some(text) => if text != "" then text else DefaultFailureMessage
    case None => DefaultFailureMessage
  }

  /**
   * The network phase of handleSubmit (lines 102-131) applied to state `s`.
   * `response.json()` is read before `response.ok` is looked at, so a body
   * that is not JSON lands in the catch with every thrown error; so does a
   * non-2xx `null` body, whose `data.message` throws a TypeError.
   */
  function Settle(s: FormState, outcome: RetryOutcome): (t: FormState)
    ensures !t.isSubmitting
    ensures t.submitStatus == Success
        <==> outcome.Returned? && outcome.response.ok && !outcome.response.body.NotJson?
    ensures t.submitStatus == Success ==> t.formData == EmptyForm && t.errorMessage == s.errorMessage
    ensures t.submitStatus != Success ==> t.submitStatus == Error && t.formData == s.formData
    ensures outcome.Returned? && !outcome.response.ok && outcome.response.body.Json?
        ==> t.errorMessage == FailureMessage(outcome.response.body.message)
    ensures || !outcome.Returned?
            || outcome.response.body.NotJson?
            || (!outcome.response.ok && outcome.response.body.JsonNull?)
        ==> t.errorMessage == WarmingUpMessage
  {
    var t := match outcome
      case Returned(Response(ok, Json(message))) =>
        if ok then s.(submitStatus := Success, formData := EmptyForm)
        else s.(submitStatus := Error, errorMessage := FailureMessage(message))
      case Returned(Response(true, JsonNull)) =>
        s.(submitStatus := Success, formData := EmptyForm)
      case _ => s.(submitStatus := Error, errorMessage := WarmingUpMessage);
    t.(isSubmitting := false)
  }

  /** The state after handleSubmit, how many calls it made, and the body it posted (if any). */
  datatype SubmitRun = SubmitRun(state: FormState, calls: nat, sent: Option<FormData>)

  /**
   * One run of handleSubmit (lines 48-132) from state `s`, with `network`
   * answering the calls.  A form that fails validation makes no call and
   * changes only the error message; a valid one posts its fields as typed,
   * at most twice, and always leaves `isSubmitting` false.  Nothing here
   * looks at `s.isSubmitting`: the handler has no re-entrancy check.
   */
  function SubmitSpec(s: FormState, network: seq<Attempt>): (r: SubmitRun)
    requires MaxRetries <= |network|
    ensures r.calls <= MaxRetries
    ensures Validate(s.formData).Some? ==> r == SubmitRun(s.(errorMessage := Validate(s.formData).value.Message()), 0, None)
    ensures Validate(s.formData) == None ==>
      && 1 <= r.calls
      && r.sent == Some(s.formData)
      && !r.state.isSubmitting
      && r.state.submitStatus != Idle
      && (r.state.submitStatus == Success <==> r.state.formData == EmptyForm && r.state.errorMessage == "")
      && (r.state.submitStatus == Error ==> r.state.formData == s.formData && r.state.errorMessage != "")
  {
    match Validate(s.formData)
    case Some(e) => SubmitRun(s.(errorMessage := e.Message()), 0, None)
    case None =>
      var run := RetrySpec(network, MaxRetries);
      var sending := s.(errorMessage := "", isSubmitting := true, submitStatus := Idle);
      SubmitRun(Settle(sending, run.outcome), run.calls, Some(s.formData))
  }

  /** The footer component's state and its event handlers. */
  class LeadForm {
    var formData: FormData
    var isSubmitting: bool
    var submitStatus: SubmitStatus
    var errorMessage: string

    function State(): FormState
      reads this
    {
      FormState(formData, isSubmitting, submitStatus, errorMessage)
    }

    /** The initial values given to `useState` (lines 10-17). */
    constructor ()
      ensures State() == InitialState
    {
      formData := EmptyForm;
      isSubmitting := false;
      submitStatus := Idle;
      errorMessage := "";
    }

    /** `handleChange` (lines 19-24): one field takes the typed value, nothing else changes. */
    method HandleChange(field: Field, value: string)
      modifies this
      ensures State() == old(State()).(formData := WithField(old(formData), field, value))
    {
      formData := WithField(formData, field, value);
    }

    /** `validateForm` (lines 26-46): reports the first failure in `errorMessage`. */
    method ValidateForm() returns (ok: bool)
      modifies this
      ensures ok <==> Validate(old(formData)) == None
      ensures ok ==> State() == old(State())
      ensures !ok ==> State() == old(State()).(errorMessage := Validate(old(formData)).value.Message())
    {
      var failure := Validate(formData);
      match failure {
        case None => ok := true;
        case Some(e) =>
          errorMessage := e.Message();
          ok := false;
      }
    }

    /**
     * `handleSubmit` (lines 48-132) with `network` standing for the calls
     * `fetchWithTimeout` would make; returns how many were made and the
     * body posted, which is `formData` as typed, not trimmed (line 108).
     */
    method HandleSubmit(network: seq<Attempt>) returns (calls: nat, sent: Option<FormData>)
      requires MaxRetries <= |network|
      modifies this
      ensures SubmitRun(State(), calls, sent) == SubmitSpec(old(State()), network)
    {
      errorMessage := "";
      var ok := ValidateForm();
      if !ok {
        return 0, None;
      }
      isSubmitting := true;
      submitStatus := Idle;
      sent := Some(formData);
      var outcome, n, waits := FetchWithRetry(network, MaxRetries);
      calls := n;
      if outcome.Returned? && !outcome.response.body.NotJson? {
        if outcome.response.ok {
          submitStatus := Success;
          formData := EmptyForm;
        } else if outcome.response.body.Json? {
          submitStatus := Error;
          errorMessage := FailureMessage(outcome.response.body.message);
        } else {
          // `data.message` on a null body throws: the catch of lines 125-128
          submitStatus := Error;
          errorMessage := WarmingUpMessage;
        }
      } else {
        // every attempt threw, or response.json() threw: the catch of lines 125-128
        submitStatus := Error;
        errorMessage := WarmingUpMessage;
      }
      isSubmitting := false;
    }

    /** The 3-second timer scheduled after a success (lines 118-120): it sets the status back to idle. */
    method TimerFired()
      modifies this
      ensures State() == old(State()).(submitStatus := Idle)
    {
      submitStatus := Idle;
    }
  }

  /** A server rejection is not retried: one call, and its message is shown verbatim. */
  lemma ServerRejectionShownVerbatim(s: FormState, network: seq<Attempt>, message: string)
    requires MaxRetries <= |network| && Validate(s.formData) == None
    requires network[0] == Answered(Response(false, Json(Some(message)))) && message != ""
    ensures var r := SubmitSpec(s, network);
      r.calls == 1 && r.state.submitStatus == Error && r.state.errorMessage == message
      && r.state.formData == s.formData
  {
  }

  /** A thrown first attempt followed by a 2xx JSON answer: two calls, success, form cleared. */
  lemma RetryThenSuccess(s: FormState, network: seq<Attempt>, body: Option<string>)
    requires MaxRetries <= |network| && Validate(s.formData) == None
    requires network[0].Threw? && network[1] == Answered(Response(true, Json(body)))
    ensures var r := SubmitSpec(s, network);
      r.calls == 2 && r.state.submitStatus == Success && r.state.formData == EmptyForm
      && r.state.errorMessage == ""
  {
  }

  /** Both attempts throw: two calls, and the fixed warming-up message. */
  lemma BothAttemptsThrow(s: FormState, network: seq<Attempt>)
    requires MaxRetries <= |network| && Validate(s.formData) == None
    requires network[0].Threw? && network[1].Threw?
    ensures var r := SubmitSpec(s, network);
      r.calls == 2 && r.state.submitStatus == Error && r.state.errorMessage == WarmingUpMessage
      && r.state.formData == s.formData
  {
  }

  /**
   * handleSubmit never reads `isSubmitting`: whatever its value, the same
   * calls are made, the same body is posted, and the same state results
   * (except that an invalid form leaves the flag as it was).
   */
  lemma SubmitIgnoresInFlightFlag(s: FormState, network: seq<Attempt>, b: bool)
    requires MaxRetries <= |network|
    ensures var r, r' := SubmitSpec(s, network), SubmitSpec(s.(isSubmitting := b), network);
      && r'.calls == r.calls && r'.sent == r.sent
      && r'.state == (if Validate(s.formData).Some? then r.state.(isSubmitting := b) else r.state)
  {
  }

  /**
   * handleSubmit has no guard of its own: called while a submission is
   * already in flight, it validates and posts again.  Only the disabled
   * button in the markup (line 234) keeps a user from doing so.
   */
  lemma NoReentrancyGuard()
    ensures var s := FormState(FormData("张三", "13800138000", "三年级"), true, Idle, "");
      SubmitSpec(s, [Answered(Response(true, Json(None))), Threw("timeout")]).calls == 1
  {
    var f := FormData("张三", "13800138000", "三年级");
    TrimOfTrimmed(f.name);
    TrimOfTrimmed(f.phone);
    TrimOfTrimmed(f.grade);
    assert Validate(f) == None;
    AnswerIsNotRetried([Answered(Response(true, Json(None))), Threw("timeout")], MaxRetries, 0);
  }
}
