/**
 * The contact form controller (components/contact-section.tsx): field edits,
 * the CAPTCHA widget poller and its cleanup, the submission with its guard,
 * success and failure paths, and the delayed reset.
 *
 * Everything the browser does is an event or a parameter: the outcome of the
 * `fetch`, whether the verification script's global `turnstile` is loaded,
 * the id its `render` returns, its three callbacks, and the firing of the
 * 6-second reset timer. Calls made to the outside world are recorded in
 * fields: alerts, requests, widget removals and resets each in order in a
 * field of their own, widget renders only as a count.
 */
module Contact {
  import opened Common

  datatype Field = Name | Organization | Email | Message

  /** The four text fields of the form. */
  datatype FormData = FormData(name: string, organization: string, email: string, message: string)
  {
    function Get(f: Field): string {
      match f
      case Name => name
      case Organization => organization
      case Email => email
      case Message => message
    }
  }

  const EmptyForm: FormData := FormData("", "", "", "")

  /** `handleChange`: `{ ...formData, [e.target.name]: e.target.value }`. */
  function WithField(fd: FormData, f: Field, value: string): (r: FormData)
    ensures r.Get(f) == value
    ensures forall g :: g != f ==> r.Get(g) == fd.Get(g)
  {
    match f
    case Name => fd.(name := value)
    case Organization => fd.(organization := value)
    case Email => fd.(email := value)
    case Message => fd.(message := value)
  }

  /** A JSON object as its key/value pairs, in the order the keys are written. */
  type JsonObject = seq<(string, string)>

  /** The value of the first entry with `key`. */
  function Lookup(obj: JsonObject, key: string): Option<string> {
    if obj == [] then None
    else if obj[0].0 == key then Some(obj[0].1)
    else Lookup(obj[1..], key)
  }

  /** Lookup returns the value at the first position holding the key. */
  lemma {:induction false} LookupFindsFirst(obj: JsonObject, i: int, key: string)
    requires 0 <= i < |obj| && obj[i].0 == key
    requires forall j :: 0 <= j < i ==> obj[j].0 != key
    ensures Lookup(obj, key) == Some(obj[i].1)
  {
    if i > 0 {
      LookupFindsFirst(obj[1..], i - 1, key);
    }
  }

  /** The JSON key under which each field is sent (its input's `name`). */
  function FieldKey(f: Field): string {
    match f
    case Name => "name"
    case Organization => "organization"
    case Email => "email"
    case Message => "message"
  }

  const TokenKey: string := "turnstile_token"

  /** `{ ...formData, turnstile_token: tsToken }`: the four fields, then the token. */
  function RequestBody(fd: FormData, token: string): (body: JsonObject)
    ensures |body| == 5
    ensures forall f :: Lookup(body, FieldKey(f)) == Some(fd.Get(f))
    ensures Lookup(body, TokenKey) == Some(token)
  {
    var body := [(FieldKey(Name), fd.name), (FieldKey(Organization), fd.organization), (FieldKey(Email), fd.email),
                 (FieldKey(Message), fd.message), (TokenKey, token)];
    forall f ensures Lookup(body, FieldKey(f)) == Some(fd.Get(f)) {
      var i := match f case Name => 0 case Organization => 1 case Email => 2 case Message => 3;
      LookupFindsFirst(body, i, FieldKey(f));
    }
    LookupFindsFirst(body, 4, TokenKey);
    body
  }

  /** Reads a request body back into the form and the token it carries. */
  function ParseRequest(body: JsonObject): Option<(FormData, string)> {
    match (Lookup(body, "name"), Lookup(body, "organization"), Lookup(body, "email"),
           Lookup(body, "message"), Lookup(body, TokenKey))
    case (Some(n), Some(o), Some(e), Some(m), Some(t)) => Some((FormData(n, o, e, m), t))
    case _ => None
  }

  /** The request carries exactly the form as it was and the current token. */
  lemma RequestRoundTrip(fd: FormData, token: string)
    ensures ParseRequest(RequestBody(fd, token)) == Some((fd, token))
  {
    var body := RequestBody(fd, token);
    assert Lookup(body, FieldKey(Name)) == Some(fd.name);
    assert Lookup(body, FieldKey(Organization)) == Some(fd.organization);
    assert Lookup(body, FieldKey(Email)) == Some(fd.email);
    assert Lookup(body, FieldKey(Message)) == Some(fd.message);
  }

  /** The parsed JSON reply: the truthiness of `data.ok` and `data.error` ("" when absent or falsy). */
  datatype ReplyBody = ReplyBody(ok: bool, error: string)

  /** How the `fetch` ended. */
  datatype FetchOutcome =
    | NetworkFailure(message: string)                  // `fetch` rejected with an error whose message is given
    | Reply(httpOk: bool, body: Option<ReplyBody>)     // `res.ok`; `body` is None when `res.json()` fails

  /** What `handleSubmit` makes of the outcome. */
  datatype Verdict = Accepted | Rejected(alert: string)

  const VerificationMissing: string := "Please complete the verification and try again."
  const SubmissionFailed: string := "Submission failed"
  const UnableToSubmit: string := "Unable to submit. Please try again."

  /** `data?.error || "Submission failed"`: the message of the error thrown on a bad reply. */
  function ThrownMessage(body: Option<ReplyBody>): (m: string)
    ensures m != ""
    ensures body.Some? && body.value.error != "" ==> m == body.value.error
    ensures body.None? || body.value.error == "" ==> m == SubmissionFailed
  {
    if body.Some? && body.value.error != "" then body.value.error else SubmissionFailed
  }

  /** `err?.message || "Unable to submit. Please try again."`. */
  function AlertText(message: string): (a: string)
    ensures a != ""
    ensures message != "" ==> a == message
    ensures message == "" ==> a == UnableToSubmit
  {
    if message != "" then message else UnableToSubmit
  }

  /**
   * Success needs both `res.ok` and a truthy `data.ok`; an unparsable body,
   * a failed status and a network failure are all rejections with an alert.
   */
  function Judge(outcome: FetchOutcome): (v: Verdict)
    ensures v.Accepted? <==> outcome.Reply? && outcome.httpOk && outcome.body.Some? && outcome.body.value.ok
    ensures v.Rejected? ==> v.alert != ""
    ensures outcome.Reply? && outcome.body.None? ==> v == Rejected(SubmissionFailed)
    ensures outcome.Reply? && v.Rejected? ==> v.alert == ThrownMessage(outcome.body)
    ensures outcome.NetworkFailure? ==> v == Rejected(AlertText(outcome.message))
  {
    match outcome
    case NetworkFailure(message) => Rejected(AlertText(message))
    case Reply(httpOk, body) =>
      if httpOk && body.Some? && body.value.ok then Accepted
      else Rejected(AlertText(ThrownMessage(body)))
  }

  /** JavaScript truthiness of `widgetIdRef.current` (null and "" are falsy). */
  predicate HoldsWidget(widgetId: Option<string>) {
    widgetId.Some? && widgetId.value != ""
  }

  /**
   * The id passed to a guarded widget call
   * `if (w.turnstile && widgetIdRef.current) w.turnstile.f(widgetIdRef.current)`:
   * one id when the call happens, none otherwise.
   */
  function GuardedWidgetCall(turnstileLoaded: bool, widgetId: Option<string>): (ids: seq<string>)
    ensures |ids| <= 1
    ensures ids != [] <==> turnstileLoaded && HoldsWidget(widgetId)
    ensures ids != [] ==> ids[0] == widgetId.value
  {
    if turnstileLoaded && HoldsWidget(widgetId) then [widgetId.value] else []
  }

  /** What the form card shows. */
  datatype FormView =
    | Confirmation                                      // "Message Sent!"
    | Form(buttonDisabled: bool, buttonLabel: string)   // the form, with its submit button

  /** The `isSubmitted` / `isSubmitting` render switches. */
  function View(isSubmitted: bool, isSubmitting: bool): (v: FormView)
    ensures v.Confirmation? <==> isSubmitted
    ensures v.Form? ==> (v.buttonDisabled <==> isSubmitting)
    ensures v.Form? ==> (v.buttonLabel == "Sending..." <==> isSubmitting)
  {
    if isSubmitted then Confirmation
    else Form(isSubmitting, if isSubmitting then "Sending..." else "Send Message")
  }

  /** The state of one mounted `ContactSection`. */
  class ContactForm {
    var isSubmitting: bool
    var isSubmitted: bool
    var formData: FormData
    var tsToken: string
    /** `widgetIdRef.current`; None is `null`. */
    var widgetId: Option<string>
    var turnstileKey: nat
    /** The widget effect is live: its interval runs and its `cancelled` flag is false. */
    var pollerRunning: bool
    /** The body of the request awaiting its response. */
    var inFlight: Option<JsonObject>
    /** 6-second reset callbacks scheduled and not yet run. */
    var pendingResets: nat

    // Calls made to the outside world: each kind in order in its own field,
    // renders only counted; the order across kinds is not kept.
    var alerts: seq<string>
    var requests: seq<JsonObject>
    var renderCalls: nat
    var removedWidgets: seq<string>
    var resetWidgets: seq<string>

    /**
     * `isSubmitting` exactly while a request is awaited; at most one reset is
     * pending, exactly while the confirmation shows; and `turnstile.reset` is
     * never called.
     */
    ghost predicate Valid()
      reads this
    {
      && (isSubmitting <==> inFlight.Some?)
      && (inFlight.Some? ==> !isSubmitted && requests != [] && inFlight.value == requests[|requests| - 1])
      && pendingResets == (if isSubmitted then 1 else 0)
      && resetWidgets == []
    }

    /** The state on mount, before the widget effect runs. */
    constructor ()
      ensures Valid()
      ensures !isSubmitting && !isSubmitted && formData == EmptyForm && tsToken == ""
      ensures widgetId == None && turnstileKey == 0 && !pollerRunning && pendingResets == 0
      ensures alerts == [] && requests == [] && renderCalls == 0 && removedWidgets == [] && resetWidgets == []
    {
      isSubmitting, isSubmitted := false, false;
      formData, tsToken := EmptyForm, "";
      widgetId, turnstileKey := None, 0;
      pollerRunning, inFlight, pendingResets := false, None, 0;
      alerts, requests, renderCalls, removedWidgets, resetWidgets := [], [], 0, [], [];
    }

    /** What the form card shows now. */
    function CurrentView(): FormView
      reads this
    {
      View(isSubmitted, isSubmitting)
    }

    /** A call of `render` would reach `turnstile.render`. */
    predicate WouldRender(turnstileLoaded: bool)
      reads this
    {
      pollerRunning && turnstileLoaded && !HoldsWidget(widgetId)
    }

    /**
     * `render`, run once when the effect starts and then on every 300 ms tick:
     * it does nothing after cancellation, while the script is absent, or while
     * a widget id is held; otherwise it renders once and keeps the returned id.
     */
    method PollWidget(turnstileLoaded: bool, rendered: Option<string>)
      requires Valid()
      modifies this`widgetId, this`renderCalls
      ensures Valid()
      ensures old(WouldRender(turnstileLoaded)) ==> widgetId == rendered && renderCalls == old(renderCalls) + 1
      ensures !old(WouldRender(turnstileLoaded)) ==> widgetId == old(widgetId) && renderCalls == old(renderCalls)
    {
      if !pollerRunning { return; }
      if !turnstileLoaded { return; }
      if HoldsWidget(widgetId) { return; }
      widgetId := rendered;
      renderCalls := renderCalls + 1;
    }

    /** The widget effect runs (on mount and whenever `turnstileKey` changed). */
    method StartWidgetEffect(turnstileLoaded: bool, rendered: Option<string>)
      requires Valid() && !pollerRunning
      modifies this`pollerRunning, this`widgetId, this`renderCalls
      ensures Valid() && pollerRunning
      ensures old(turnstileLoaded && !HoldsWidget(widgetId)) ==> widgetId == rendered && renderCalls == old(renderCalls) + 1
      ensures !old(turnstileLoaded && !HoldsWidget(widgetId)) ==> widgetId == old(widgetId) && renderCalls == old(renderCalls)
    {
      pollerRunning := true;
      PollWidget(turnstileLoaded, rendered);
    }

    /**
     * The effect's cleanup: cancels the poller, removes the widget when the
     * script is loaded and an id is held, and forgets the id.
     */
    method StopWidgetEffect(turnstileLoaded: bool)
      requires Valid() && pollerRunning
      modifies this`pollerRunning, this`widgetId, this`removedWidgets
      ensures Valid() && !pollerRunning && widgetId == None
      ensures removedWidgets == old(removedWidgets) + GuardedWidgetCall(turnstileLoaded, old(widgetId))
    {
      pollerRunning := false;
      removedWidgets := removedWidgets + GuardedWidgetCall(turnstileLoaded, widgetId);
      widgetId := None;
    }

    /** The widget's success callback. */
    method OnVerified(token: string)
      requires Valid()
      modifies this`tsToken
      ensures Valid()
      ensures tsToken == token
    {
      tsToken := token;
    }

    /** The widget's expired and error callbacks. */
    method OnExpiredOrError()
      requires Valid()
      modifies this`tsToken
      ensures Valid()
      ensures tsToken == ""
    {
      tsToken := "";
    }

    /** `handleChange`: only the edited field changes. */
    method HandleChange(field: Field, value: string)
      requires Valid()
      modifies this`formData
      ensures Valid()
      ensures formData == WithField(old(formData), field, value)
    {
      formData := WithField(formData, field, value);
    }

    /**
     * `handleSubmit` up to the `await`. The form is only rendered, and its
     * button only enabled, when neither submitted nor submitting. With no
     * token it alerts and returns without any request or state change.
     */
    method BeginSubmit() returns (sent: bool)
      requires Valid() && !isSubmitting && !isSubmitted
      modifies this`isSubmitting, this`inFlight, this`requests, this`alerts
      ensures Valid()
      ensures sent <==> old(tsToken) != ""
      ensures !sent ==> alerts == old(alerts) + [VerificationMissing] && requests == old(requests)
      ensures !sent ==> !isSubmitting && inFlight == None
      ensures sent ==> alerts == old(alerts) && isSubmitting
      ensures sent ==> requests == old(requests) + [RequestBody(formData, tsToken)] && inFlight == Some(RequestBody(formData, tsToken))
    {
      if tsToken == "" {
        alerts := alerts + [VerificationMissing];
        return false;
      }
      isSubmitting := true;
      var body := RequestBody(formData, tsToken);
      requests := requests + [body];
      inFlight := Some(body);
      sent := true;
    }

    /**
     * `handleSubmit` after the `await`. On success: submitted, the widget id
     * nulled BEFORE the guarded `turnstile.reset`, so the reset never happens,
     * the token cleared and the 6 s reset scheduled. On failure: one alert and
     * nothing else. In both cases `finally` clears `isSubmitting`.
     */
    method FinishSubmit(outcome: FetchOutcome, turnstileLoaded: bool)
      requires Valid() && isSubmitting
      modifies this`isSubmitting, this`inFlight, this`isSubmitted, this`widgetId, this`tsToken,
        this`resetWidgets, this`pendingResets, this`alerts
      ensures Valid()
      ensures !isSubmitting && inFlight == None
      ensures resetWidgets == old(resetWidgets)
      ensures Judge(outcome).Accepted? ==>
        isSubmitted && tsToken == "" && widgetId == None && pendingResets == 1 && alerts == old(alerts)
      ensures Judge(outcome).Rejected? ==>
        isSubmitted == old(isSubmitted) && tsToken == old(tsToken) && widgetId == old(widgetId) &&
        pendingResets == old(pendingResets) && alerts == old(alerts) + [Judge(outcome).alert]
    {
      match Judge(outcome) {
        case Accepted =>
          isSubmitted := true;
          widgetId := None;
          tsToken := "";
          resetWidgets := resetWidgets + GuardedWidgetCall(turnstileLoaded, widgetId);
          pendingResets := pendingResets + 1;
        case Rejected(message) =>
          alerts := alerts + [message];
      }
      isSubmitting := false;
      inFlight := None;
    }

    /** The 6-second reset callback. */
    method ResetTimerFires()
      requires Valid() && pendingResets > 0
      modifies this`isSubmitted, this`formData, this`turnstileKey, this`tsToken, this`pendingResets
      ensures Valid()
      ensures !isSubmitted && formData == EmptyForm && tsToken == ""
      ensures turnstileKey == old(turnstileKey) + 1
    {
      isSubmitted := false;
      formData := EmptyForm;
      turnstileKey := turnstileKey + 1;
      tsToken := "";
      pendingResets := pendingResets - 1;
    }
  }

  /**
   * Submitting with no token, whatever the fields hold: one alert, no
   * request, and the form still shows with an enabled button.
   */
  method UnverifiedSubmission(name: string, organization: string, email: string, message: string)
    returns (alerts: seq<string>, requests: seq<JsonObject>, view: FormView, form: FormData)
    ensures alerts == [VerificationMissing] && requests == []
    ensures view == Form(false, "Send Message")
    ensures form == FormData(name, organization, email, message)
  {
    var c := new ContactForm();
    c.HandleChange(Name, name);
    c.HandleChange(Organization, organization);
    c.HandleChange(Email, email);
    c.HandleChange(Message, message);
    var sent := c.BeginSubmit();
    alerts, requests, view, form := c.alerts, c.requests, c.CurrentView(), c.formData;
  }

  /**
   * The happy path, for any typed fields: an accepted reply sends exactly
   * those fields and the token, then shows the confirmation with the token
   * cleared, the fields kept until the reset, and one reset pending.
   */
  method VerifiedSubmission(fd: FormData, token: string, outcome: FetchOutcome)
    returns (sent: JsonObject, afterReply: FormView, form: FormData, tokenAfter: string, pending: nat)
    requires token != "" && Judge(outcome).Accepted?
    ensures sent == RequestBody(fd, token)
    ensures afterReply == Confirmation && form == fd && tokenAfter == "" && pending == 1
  {
    var c := new ContactForm();
    c.HandleChange(Name, fd.name);
    c.HandleChange(Organization, fd.organization);
    c.HandleChange(Email, fd.email);
    c.HandleChange(Message, fd.message);
    c.OnVerified(token);
    var ok := c.BeginSubmit();
    sent := c.inFlight.value;
    c.FinishSubmit(outcome, true);
    afterReply, form, tokenAfter, pending := c.CurrentView(), c.formData, c.tsToken, c.pendingResets;
  }

  /**
   * The first half of the reset scenario: one widget rendered, then an
   * accepted submission; the confirmation is showing and the reset is due.
   */
  method AcceptedWithWidget(token: string, outcome: FetchOutcome) returns (c: ContactForm)
    requires token != "" && Judge(outcome).Accepted?
    ensures fresh(c) && c.Valid() && c.pollerRunning && !c.isSubmitting && c.isSubmitted
    ensures c.renderCalls == 1 && c.pendingResets == 1 && c.turnstileKey == 0 && c.resetWidgets == []
    ensures c.widgetId == None && c.removedWidgets == []
  {
    c := new ContactForm();
    c.StartWidgetEffect(true, Some("widget-1"));
    assert c.renderCalls == 1;
    c.OnVerified(token);
    var ok := c.BeginSubmit();
    c.FinishSubmit(outcome, true);
  }

  /**
   * After an accepted submission, and with no poll tick during the 6 s, the
   * reset timer brings back the empty form under a new widget key, and the
   * restarted widget effect renders a second widget, the first one never
   * having been reset.
   */
  method ResetAfterConfirmation(token: string, outcome: FetchOutcome)
    returns (view: FormView, form: FormData, key: nat, renders: nat, resets: seq<string>)
    requires token != "" && Judge(outcome).Accepted?
    ensures view == Form(false, "Send Message") && form == EmptyForm && key == 1
    ensures renders == 2 && resets == []
  {
    var c := AcceptedWithWidget(token, outcome);
    c.ResetTimerFires();
    assert c.renderCalls == 1 && c.turnstileKey == 1;
    c.StopWidgetEffect(true);
    assert c.widgetId == None && !c.pollerRunning;
    c.StartWidgetEffect(true, Some("widget-2"));
    view, form, key, renders, resets := c.CurrentView(), c.formData, c.turnstileKey, c.renderCalls, c.resetWidgets;
  }

  /**
   * The poller outlives the accepted reply: the effect's dependencies do not
   * change, and the id was nulled, so every tick during the confirmation
   * whose `render` yields no id renders again, into a container that is no
   * longer in the page. The first widget's id is gone, so the cleanup of the
   * remount removes nothing.
   */
  method ConfirmationPolling(token: string, outcome: FetchOutcome, ticks: nat)
    returns (during: FormView, renders: nat, removed: seq<string>, resets: seq<string>)
    requires token != "" && Judge(outcome).Accepted?
    ensures during == Confirmation && renders == 1 + ticks
    ensures removed == [] && resets == []
  {
    var c := AcceptedWithWidget(token, outcome);
    var k := 0;
    while k < ticks
      invariant 0 <= k <= ticks
      invariant c.Valid() && c.pollerRunning && c.isSubmitted && !c.isSubmitting && c.pendingResets == 1
      invariant c.widgetId == None && c.renderCalls == 1 + k && c.removedWidgets == []
    {
      c.PollWidget(true, None);
      k := k + 1;
    }
    during, renders := c.CurrentView(), c.renderCalls;
    c.ResetTimerFires();
    c.StopWidgetEffect(true);
    removed, resets := c.removedWidgets, c.resetWidgets;
  }

  /** A rejected reply keeps the fields and the token, and alerts with the server's message. */
  method RejectedSubmission(fd: FormData, token: string, outcome: FetchOutcome)
    returns (alerts: seq<string>, view: FormView, form: FormData, tokenAfter: string)
    requires token != "" && Judge(outcome).Rejected?
    ensures alerts == [Judge(outcome).alert]
    ensures view == Form(false, "Send Message") && form == fd && tokenAfter == token
  {
    var c := new ContactForm();
    c.HandleChange(Name, fd.name);
    c.HandleChange(Organization, fd.organization);
    c.HandleChange(Email, fd.email);
    c.HandleChange(Message, fd.message);
    c.OnVerified(token);
    var ok := c.BeginSubmit();
    c.FinishSubmit(outcome, true);
    alerts, view, form, tokenAfter := c.alerts, c.CurrentView(), c.formData, c.tsToken;
  }
}
