/** The submit / payment / verification flow of static/js/signup.js as an
    event-driven object. The page's mutable state is the submit button's
    `disabled` flag, the text of the form's error box, the options handed to
    the payment widget and whether the page navigated away; the fetch calls
    the page issues are kept as a log. Every awaited network result and every
    widget callback is an event whose data is a parameter. */
module SignupFlow {
  import opened Wrappers
  import opened Text
  import opened SignupValidation

  /** Charge in kobo (NGN 5,000), the only price the page ever asks for. */
  const ChargeAmount := 500000
  const Currency := "NGN"
  const EventLabel := "Divine Encounter 2026"
  const GenericError := "An error occurred. Please try again."
  const CancelledError := "Payment was cancelled. Please try again."
  const VerifyErrorPrefix := "Payment verification failed. Please contact support with reference: "

  /** The JSON body posted to /api/register. */
  datatype Registration = Registration(
    fullName: string,
    email: string,
    phone: string,
    attendanceMode: string,
    church: string,
    specialNeeds: string,
    newsletter: bool)

  /** The form data the submit handler collects: text fields trimmed, the
      attendance-mode value as selected, the newsletter box as checked. */
  function Collect(f: Form): (r: Registration) {
    Registration(Trim(f.fullName), Trim(f.email), Trim(f.phone), f.attendanceMode,
                 Trim(f.church), Trim(f.specialNeeds), f.newsletter)
  }

  /** A fetch call the page issues. */
  datatype Request = RegisterPost(body: Registration) | VerifyPost(reference: string)

  /** The options given to the payment widget's setup (the public key, a
      deployment constant, is not modelled). */
  datatype WidgetConfig = WidgetConfig(
    email: string,
    amount: int,
    currency: string,
    reference: string,
    registrationId: int,
    fullName: string,
    eventLabel: string)

  /** The fields the page reads from a successful registration reply. */
  datatype Issued = Issued(registrationId: int, reference: string)

  /** How the awaited registration call ends: the fetch rejects, or a
      response arrives whose JSON body parses (Some) or does not (None). */
  datatype RegisterReply = RegisterUnreachable | RegisterResponse(ok: bool, body: Option<Issued>)

  /** How the awaited verification call ends: the fetch rejects, or a
      response arrives whose body's `status` field is present (Some) or not. */
  datatype VerifyReply = VerifyUnreachable | VerifyResponse(ok: bool, status: Option<string>)

  predicate RegisterSucceeded(reply: RegisterReply) {
    reply.RegisterResponse? && reply.ok && reply.body.Some?
  }

  predicate VerifySucceeded(reply: VerifyReply) {
    reply.VerifyResponse? && reply.ok && reply.status == Some("success")
  }

  /** initializePayment's options for a registration reply. */
  function WidgetFor(sent: Registration, issued: Issued): (w: WidgetConfig) {
    WidgetConfig(sent.email, ChargeAmount, Currency, issued.reference,
                 issued.registrationId, sent.fullName, EventLabel)
  }

  /** What holds between events: an opened widget charges the fixed price
      to the payer of a registration the page posted; verification is only
      ever requested after a widget opened; navigation only follows a
      verification request. */
  ghost predicate PageInvariant(widget: Option<WidgetConfig>, navigated: bool, requests: seq<Request>) {
    && (widget.Some? ==>
          && widget.value.amount == ChargeAmount
          && widget.value.currency == Currency
          && widget.value.eventLabel == EventLabel
          && exists i :: 0 <= i < |requests| && requests[i].RegisterPost?
                         && requests[i].body.email == widget.value.email
                         && requests[i].body.fullName == widget.value.fullName)
    && (forall i :: 0 <= i < |requests| && requests[i].VerifyPost? ==> widget.Some?)
    && (navigated ==> exists i :: 0 <= i < |requests| && requests[i].VerifyPost?)
  }

  /** Logging one more request keeps the invariant, provided a verification
      request only comes once a widget is open. */
  lemma InvariantSurvivesRequest(widget: Option<WidgetConfig>, navigated: bool, requests: seq<Request>, r: Request)
    requires PageInvariant(widget, navigated, requests)
    requires r.VerifyPost? ==> widget.Some?
    ensures PageInvariant(widget, navigated, requests + [r])
  {
    var extended := requests + [r];
    assert forall i :: 0 <= i < |requests| ==> extended[i] == requests[i];
  }

  class SignupPage {
    /** submitButton.disabled: true while a submission is in progress. */
    var loading: bool
    /** formError.textContent; the box is shown exactly when it is non-empty. */
    var error: string
    /** The options of the last payment widget opened, if any. */
    var widget: Option<WidgetConfig>
    /** Whether the page has navigated to /success. */
    var navigated: bool
    /** The fetch calls issued so far, in order. */
    var requests: seq<Request>

    /** What holds between events (see PageInvariant). */
    ghost predicate Valid()
      reads this
    {
      PageInvariant(widget, navigated, requests)
    }

    /** The page as loaded: button enabled, no error, nothing sent. */
    constructor ()
      ensures Valid()
      ensures !loading && error == "" && widget == None && !navigated && requests == []
    {
      loading, error, widget, navigated, requests := false, "", None, false, [];
    }

    /** showError: the message replaces the error box's text. */
    method ShowError(message: string)
      modifies this
      ensures error == message
      ensures loading == old(loading) && widget == old(widget)
      ensures navigated == old(navigated) && requests == old(requests)
    {
      error := message;
    }

    /** setLoading: the button is disabled exactly while loading. */
    method SetLoading(isLoading: bool)
      modifies this
      ensures loading == isLoading
      ensures error == old(error) && widget == old(widget)
      ensures navigated == old(navigated) && requests == old(requests)
    {
      loading := isLoading;
    }

    /** validateForm: clears the error box, then shows the message of the
        first failing rule and answers false, or answers true leaving the
        box empty. */
    method ValidateForm(f: Form) returns (ok: bool)
      requires Valid()
      modifies this
      ensures Valid()
      ensures ok <==> FirstFailure(f).None?
      ensures error == if ok then "" else Message(FirstFailure(f).value)
      ensures loading == old(loading) && widget == old(widget)
      ensures navigated == old(navigated) && requests == old(requests)
    {
      error := "";
      var failure := FirstFailure(f);
      if failure.Some? {
        ShowError(Message(failure.value));
        return false;
      }
      return true;
    }

    /** The submit handler up to the awaited registration call: an invalid
        form sends nothing and leaves the button alone; a valid one disables
        the button and then posts the collected data. */
    method Submit(f: Form)
      requires Valid()
      modifies this
      ensures Valid()
      ensures FirstFailure(f).Some? ==>
        loading == old(loading) && requests == old(requests) && error == Message(FirstFailure(f).value)
      ensures FirstFailure(f).None? ==>
        loading && requests == old(requests) + [RegisterPost(Collect(f))] && error == ""
      ensures widget == old(widget) && navigated == old(navigated)
    {
      var ok := ValidateForm(f);
      if !ok {
        return;
      }
      SetLoading(true);
      InvariantSurvivesRequest(widget, navigated, requests, RegisterPost(Collect(f)));
      requests := requests + [RegisterPost(Collect(f))];
    }

    /** The rest of the submit handler, once the registration call for
        `sent` settles: on an ok, parsable reply the payment widget opens
        with the server's reference, provided the widget library's setup and
        open calls do not throw (`widgetOpens`); on anything else the
        generic error is shown, the button is enabled again and no widget
        opens. */
    method RegisterResult(sent: Registration, reply: RegisterReply, widgetOpens: bool)
      requires Valid()
      requires RegisterPost(sent) in requests
      modifies this
      ensures Valid()
      ensures RegisterSucceeded(reply) && widgetOpens ==>
        widget == Some(WidgetFor(sent, reply.body.value)) && loading == old(loading) && error == old(error)
      ensures !(RegisterSucceeded(reply) && widgetOpens) ==>
        widget == old(widget) && !loading && error == GenericError
      ensures navigated == old(navigated) && requests == old(requests)
    {
      if RegisterSucceeded(reply) && widgetOpens {
        var i :| 0 <= i < |requests| && requests[i] == RegisterPost(sent);
        widget := Some(WidgetFor(sent, reply.body.value));
      } else {
        ShowError(GenericError);
        SetLoading(false);
      }
    }

    /** The widget's success callback: verification of the reference the
        widget reports is requested; nothing else changes yet. */
    method WidgetCallback(reference: string)
      requires Valid()
      requires widget.Some?
      modifies this
      ensures Valid()
      ensures requests == old(requests) + [VerifyPost(reference)]
      ensures loading == old(loading) && error == old(error)
      ensures widget == old(widget) && navigated == old(navigated)
    {
      InvariantSurvivesRequest(widget, navigated, requests, VerifyPost(reference));
      requests := requests + [VerifyPost(reference)];
    }

    /** The widget's close callback: the cancel message is shown and the
        button enabled again; no verification is requested. */
    method WidgetClose()
      requires Valid()
      requires widget.Some?
      modifies this
      ensures Valid()
      ensures error == CancelledError && !loading
      ensures requests == old(requests) && widget == old(widget) && navigated == old(navigated)
    {
      ShowError(CancelledError);
      SetLoading(false);
    }

    /** verifyPayment once its call for `reference` settles: an ok reply whose
        status is exactly "success" navigates to /success with the button
        still disabled; any other outcome shows the support message with the
        reference and enables the button again. */
    method VerifyResult(reference: string, reply: VerifyReply)
      requires Valid()
      requires VerifyPost(reference) in requests
      modifies this
      ensures Valid()
      ensures VerifySucceeded(reply) ==>
        navigated && loading == old(loading) && error == old(error)
      ensures !VerifySucceeded(reply) ==>
        navigated == old(navigated) && !loading && error == VerifyErrorPrefix + reference
      ensures requests == old(requests) && widget == old(widget)
    {
      if VerifySucceeded(reply) {
        var i :| 0 <= i < |requests| && requests[i] == VerifyPost(reference);
        navigated := true;
      } else {
        ShowError(VerifyErrorPrefix + reference);
        SetLoading(false);
      }
    }
  }

  // -----------------------------------------------------------------------
  // Whole runs of the page, from load to the last event.

  /** An invalid form: no request at all, the button stays enabled, and the
      first failing rule's message is shown. */
  method RunInvalidSubmission(f: Form) returns (requests: seq<Request>, loading: bool, error: string)
    requires FirstFailure(f).Some?
    ensures requests == [] && !loading
    ensures error == Message(FirstFailure(f).value)
  {
    var page := new SignupPage();
    page.Submit(f);
    requests, loading, error := page.requests, page.loading, page.error;
  }

  /** A valid form whose registration call fails, or whose payment widget
      cannot be opened: exactly one registration post, no widget, the
      generic error, the button enabled again. */
  method RunFailedRegistration(f: Form, reply: RegisterReply, widgetOpens: bool)
    returns (requests: seq<Request>, widget: Option<WidgetConfig>, loading: bool, error: string)
    requires FirstFailure(f).None?
    requires !(RegisterSucceeded(reply) && widgetOpens)
    ensures requests == [RegisterPost(Collect(f))]
    ensures widget == None && !loading && error == GenericError
  {
    var page := new SignupPage();
    page.Submit(f);
    page.RegisterResult(Collect(f), reply, widgetOpens);
    requests, widget, loading, error := page.requests, page.widget, page.loading, page.error;
  }

  /** Registration succeeds and the payer closes the widget: no
      verification is requested, the cancel message shows, the button is
      enabled again. */
  method RunCancelledPayment(f: Form, issued: Issued)
    returns (requests: seq<Request>, loading: bool, error: string)
    requires FirstFailure(f).None?
    ensures requests == [RegisterPost(Collect(f))]
    ensures !loading && error == CancelledError
  {
    var page := new SignupPage();
    page.Submit(f);
    page.RegisterResult(Collect(f), RegisterResponse(true, Some(issued)), true);
    page.WidgetClose();
    requests, loading, error := page.requests, page.loading, page.error;
  }

  /** The paid path: the widget charges 500000 kobo in NGN under the server's
      reference, the reference the widget reports is verified, and a
      "success" verification navigates once, with the button still disabled. */
  method RunPaidRegistration(f: Form, issued: Issued, paid: string)
    returns (widget: WidgetConfig, requests: seq<Request>, navigated: bool, loading: bool)
    requires FirstFailure(f).None?
    ensures widget.amount == 500000 && widget.currency == "NGN" && widget.reference == issued.reference
    ensures widget.email == Trim(f.email) && widget.fullName == Trim(f.fullName)
    ensures requests == [RegisterPost(Collect(f)), VerifyPost(paid)]
    ensures navigated && loading
  {
    var page := new SignupPage();
    page.Submit(f);
    page.RegisterResult(Collect(f), RegisterResponse(true, Some(issued)), true);
    widget := page.widget.value;
    page.WidgetCallback(paid);
    page.VerifyResult(paid, VerifyResponse(true, Some("success")));
    requests, navigated, loading := page.requests, page.navigated, page.loading;
  }

  /** The widget reports payment but verification is not confirmed: no
      navigation, the button enabled again, and the message ends with the
      reference verbatim. */
  method RunRejectedVerification(f: Form, issued: Issued, paid: string, reply: VerifyReply)
    returns (navigated: bool, loading: bool, error: string)
    requires FirstFailure(f).None?
    requires !VerifySucceeded(reply)
    ensures !navigated && !loading
    ensures error == VerifyErrorPrefix + paid
  {
    var page := new SignupPage();
    page.Submit(f);
    page.RegisterResult(Collect(f), RegisterResponse(true, Some(issued)), true);
    page.WidgetCallback(paid);
    page.VerifyResult(paid, reply);
    navigated, loading, error := page.navigated, page.loading, page.error;
  }
}
