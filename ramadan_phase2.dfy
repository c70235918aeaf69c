/**
 * The Ramadan draw page (phase 2): the countdown timer to the draw, the
 * exclusive selection of a plan card, and the payment form that posts to
 * /ramadan/payment/initialize/, keeps the pending reference in local storage
 * and confirms it when the gateway sends the visitor back.  The same timer
 * and card selection serve the copy under backend/staticfiles.  Clock
 * readings, replies and the presence of the container are inputs.
 */
module RamadanPhase2 {
  import opened Wrappers
  import opened Text
  import opened Json
  import opened Clock
  import LahzaCheckout

  /** What the timer's container shows. */
  datatype Display = Blank | Digits(days: string, hours: string, minutes: string, seconds: string) | Expired

  /** The timer's text on expiry. */
  const ExpiredText: string := "انتهى الوقت"

  /** The digits shown for a positive distance, each part padded to two places. */
  function DigitsFor(difference: nat): (d: Display)
    requires difference > 0
    ensures var p := Breakdown(difference);
      d == Digits(Pad2(p.days), Pad2(p.hours), Pad2(p.minutes), Pad2(p.seconds))
      && p.hours < 24 && p.minutes < 60 && p.seconds < 60
      && p.days * 86400 + p.hours * 3600 + p.minutes * 60 + p.seconds == difference / 1000
  {
    var p := Breakdown(difference);
    Digits(Pad2(p.days), Pad2(p.hours), Pad2(p.minutes), Pad2(p.seconds))
  }

  /**
   * class CountdownTimer: a target instant, a container that may be missing,
   * and the one-second interval.
   */
  class CountdownTimer {
    const targetDate: int
    const containerPresent: bool
    var display: Display
    var intervalActive: bool

    /**
     * update: with a container, a positive distance shows the padded parts,
     * anything else clears the interval and shows the expired text.
     */
    method Update(now: int)
      modifies this
      ensures (display, intervalActive)
           == if !containerPresent then old((display, intervalActive))
              else if targetDate - now > 0 then (DigitsFor(targetDate - now), old(intervalActive))
              else (Expired, false)
    {
      if !containerPresent {
        return;
      }
      var difference := targetDate - now;
      if difference > 0 {
        display := DigitsFor(difference);
      } else {
        if intervalActive {
          intervalActive := false;
        }
        display := Expired;
      }
    }

    /**
     * The constructor (phase 2): only with a container does it run init,
     * which updates once and then starts the interval, even when that first
     * update found the target already passed.
     */
    constructor(target: int, present: bool, now: int)
      ensures targetDate == target && containerPresent == present
      ensures !present ==> display == Blank && !intervalActive
      ensures present ==> intervalActive
      ensures present && target - now > 0 ==> display == DigitsFor(target - now)
      ensures present && target - now <= 0 ==> display == Expired
    {
      targetDate, containerPresent := target, present;
      display, intervalActive := Blank, false;
      new;
      if present {
        Update(now);
        intervalActive := true;
      }
    }

    /** destroy: the interval stops, the display stays. */
    method Destroy()
      modifies this
      ensures !intervalActive && display == old(display)
    {
      if intervalActive {
        intervalActive := false;
      }
    }

    /**
     * The interval's ticks in order: once a tick finds the target passed,
     * the interval is gone and the display stays expired.
     */
    method Run(ticks: seq<int>)
      requires containerPresent && intervalActive
      modifies this
      ensures (exists k :: 0 <= k < |ticks| && targetDate - ticks[k] <= 0) ==> display == Expired && !intervalActive
      ensures (forall k :: 0 <= k < |ticks| ==> targetDate - ticks[k] > 0) ==>
        intervalActive && (|ticks| > 0 ==> display == DigitsFor(targetDate - ticks[|ticks| - 1]))
        && (|ticks| == 0 ==> display == old(display))
    {
      ghost var first := FirstPassed(targetDate, ticks);
      ghost var last := 0;
      var i := 0;
      while i < |ticks| && intervalActive
        invariant 0 <= i <= |ticks|
        invariant intervalActive == (i <= first)
        invariant !intervalActive ==> display == Expired
        invariant i > 0 ==> last == ticks[i - 1]
        invariant intervalActive && i > 0 ==> targetDate - last > 0
        invariant intervalActive ==> display == if i == 0 then old(display) else DigitsFor(targetDate - last)
      {
        Update(ticks[i]);
        last := ticks[i];
        i := i + 1;
      }
    }
  }

  /** The index of the first tick that finds the target passed, or the number of ticks. */
  function FirstPassed(target: int, ticks: seq<int>): (k: nat)
    ensures k <= |ticks|
    ensures forall j :: 0 <= j < k ==> target - ticks[j] > 0
    ensures k < |ticks| ==> target - ticks[k] <= 0
  {
    if |ticks| == 0 || target - ticks[0] <= 0 then 0
    else 1 + FirstPassed(target, ticks[1..])
  }

  /** The page's draw date, `2025-03-25T00:00:00`, taken in UTC. */
  const DrawDate: int := NewYear(2025) + (31 + 28 + 24) * DayMs

  /**
   * A click on a plan card: every card loses 'selected', then the clicked
   * one gains it.
   */
  method SelectCard(selected: array<bool>, clicked: nat)
    requires clicked < selected.Length
    modifies selected
    ensures forall j :: 0 <= j < selected.Length ==> (selected[j] <==> j == clicked)
  {
    var j := 0;
    while j < selected.Length
      invariant 0 <= j <= selected.Length
      invariant forall k :: 0 <= k < j ==> !selected[k]
    {
      selected[j] := false;
      j := j + 1;
    }
    selected[clicked] := true;
  }

  /** The payment button's data: type, amount and offer name. */
  datatype PaymentChoice = PaymentChoice(paymentType: string, amount: int, offerName: string)

  /**
   * The mobile sent to the gateway: kept when it starts with '+', else
   * '+970' in front, replacing a leading trunk zero.
   */
  function InternationalMobile(phone: string): (r: string)
    ensures |r| > 0 && r[0] == '+'
    ensures StartsWith(phone, "+") ==> r == phone
    ensures !StartsWith(phone, "+") && StartsWith(phone, "0") ==> r == "+970" + phone[1..]
    ensures !StartsWith(phone, "+") && !StartsWith(phone, "0") ==> r == "+970" + phone
  {
    if StartsWith(phone, "+") then phone
    else if StartsWith(phone, "0") then "+970" + phone[1..]
    else "+970" + phone
  }

  /** Normalising twice changes nothing more, and the trunk zero makes no difference. */
  lemma InternationalMobileIdempotent(phone: string, local: string)
    requires !StartsWith(local, "+") && !StartsWith(local, "0")
    ensures InternationalMobile(InternationalMobile(phone)) == InternationalMobile(phone)
    ensures InternationalMobile("0" + local) == InternationalMobile(local) == "+970" + local
  {
    assert ("0" + local)[1..] == local;
  }

  /** `name.split(' ')[0] || name` and `name.split(' ').slice(1).join(' ') || ''`. */
  function FirstName(name: string): string
  {
    var first := SplitOn(name, " ")[0];
    if first == "" then name else first
  }

  function LastName(name: string): string
  {
    Join(SplitOn(name, " ")[1..], " ")
  }

  /**
   * The split loses nothing: for a trimmed name, the first name followed by
   * a space and the last name, when there is one, is the name again.
   */
  lemma NameSplitRoundTrip(raw: string)
    ensures var name := Trim(raw);
      FirstName(name) + (if LastName(name) != "" then " " + LastName(name) else "") == name
  {
    var name := Trim(raw);
    TrimSpec(raw);
    var pieces := SplitOn(name, " ");
    JoinSplit(name, " ");
    if |pieces| >= 2 {
      assert name == pieces[0] + " " + LastName(name);
    }
  }

  /** The body posted to /ramadan/payment/initialize/. */
  datatype RamadanRequest = RamadanRequest(
    email: string, amount: int, currency: string, firstName: string, lastName: string,
    mobile: string, offerType: string, offerName: string, source: string)

  datatype SubmitCheck = NoPaymentChosen | MissingFields | SendRequest(request: RamadanRequest)

  /** The submit handler's checks: a chosen payment, then non-empty trimmed name, e-mail and phone. */
  function RamadanSubmit(choice: Option<PaymentChoice>, rawName: string, rawEmail: string, rawPhone: string): (r: SubmitCheck)
    ensures r.NoPaymentChosen? <==> choice.None?
    ensures r.MissingFields? <==> choice.Some? && (Trim(rawName) == "" || Trim(rawEmail) == "" || Trim(rawPhone) == "")
    ensures r.SendRequest? ==>
      var rq := r.request;
      rq.email == Trim(rawEmail) && rq.amount == choice.value.amount && rq.currency == "ILS"
      && rq.firstName + (if rq.lastName != "" then " " + rq.lastName else "") == Trim(rawName)
      && rq.mobile == InternationalMobile(Trim(rawPhone)) && rq.mobile[0] == '+'
      && rq.offerType == choice.value.paymentType && rq.offerName == choice.value.offerName && rq.source == "ramadan"
  {
    if choice.None? then NoPaymentChosen
    else
      var name, email, phone := Trim(rawName), Trim(rawEmail), Trim(rawPhone);
      if name == "" || email == "" || phone == "" then MissingFields
      else
        NameSplitRoundTrip(rawName);
        SendRequest(RamadanRequest(email, choice.value.amount, "ILS", FirstName(name), LastName(name),
                                   InternationalMobile(phone), choice.value.paymentType, choice.value.offerName, "ramadan"))
  }

  const InitFailedText: string := "فشل في تهيئة الدفع"
  const UnexpectedErrorText: string := "حدث خطأ أثناء معالجة الدفع. يرجى المحاولة مرة أخرى."
  /** The TypeError a browser raises for `data.success` on a null body (V8's wording). */
  const NullSuccessReadText: string := "Cannot read properties of null (reading 'success')"

  /**
   * The initialise call's reply: not OK with its body text and that text's
   * parse (None when it is not JSON), OK with its JSON, or a rejected fetch
   * with its error message.  An OK reply whose body is not JSON makes
   * `response.json()` throw a SyntaxError; that is a FetchFailed carrying the
   * SyntaxError's message.
   */
  datatype InitReply = NotOk(text: string, parsed: Option<Json>) | OkReply(data: Json) | FetchFailed(message: string)

  /** The stored pending payment: the reply's reference, the e-mail and the offer. */
  datatype PendingPayment = PendingPayment(reference: Json, email: string, offerType: string, offerName: string)

  datatype InitOutcome = Redirected(url: Json, pending: PendingPayment) | Alerted(text: string)

  /**
   * The message of the Error thrown for a failed reply.  A body that does not
   * parse, or parses to null (reading a field of null throws), gives the body
   * text or the default; a parsed body gives String() of its first truthy
   * error or message (of any JSON type), else the default.
   */
  function NotOkText(text: string, parsed: Option<Json>): (r: string)
    ensures parsed.None? || parsed == Some(JNull) ==> r == (if text != "" then text else InitFailedText) && r != ""
    ensures parsed.Some? && parsed.value != JNull ==>
      var error, message := LahzaCheckout.Field(parsed.value, "error"), LahzaCheckout.Field(parsed.value, "message");
      && (JsTruthy(error) ==> r == JsString(error))
      && (!JsTruthy(error) && JsTruthy(message) ==> r == JsString(message))
      && (!JsTruthy(error) && !JsTruthy(message) ==> r == InitFailedText)
  {
    if parsed.None? || parsed == Some(JNull) then (if text != "" then text else InitFailedText)
    else OrText(LahzaCheckout.Field(parsed.value, "error"), LahzaCheckout.Field(parsed.value, "message"), InitFailedText)
  }

  /** The catch's alert: the thrown Error's message, or the default when that message is empty. */
  function AlertText(message: string): (r: string)
    ensures r != ""
    ensures message != "" ==> r == message
  {
    if message != "" then message else UnexpectedErrorText
  }

  /**
   * The request's outcome: a redirect to the checkout with the pending payment
   * stored, or an alert of the thrown Error's message.  A null body makes
   * `data.success` throw, and the catch alerts that TypeError's message.
   */
  function InitOutcomeOf(request: RamadanRequest, reply: InitReply): (r: InitOutcome)
    ensures r.Redirected? <==> reply.OkReply? && JsTruthy(LahzaCheckout.Field(reply.data, "success"))
                               && JsTruthy(LahzaCheckout.Field(reply.data, "authorization_url"))
    ensures r.Redirected? ==>
      r.url == LahzaCheckout.Field(reply.data, "authorization_url")
      && r.pending == PendingPayment(LahzaCheckout.Field(reply.data, "reference"), request.email, request.offerType, request.offerName)
    ensures r.Alerted? ==> r.text != ""
    ensures reply == OkReply(JNull) ==> r == Alerted(NullSuccessReadText)
    ensures reply.NotOk? ==> r == Alerted(AlertText(NotOkText(reply.text, reply.parsed)))
    ensures reply.FetchFailed? ==> r == Alerted(AlertText(reply.message))
    ensures reply.OkReply? && reply.data != JNull && !r.Redirected? ==>
      var error, message := LahzaCheckout.Field(reply.data, "error"), LahzaCheckout.Field(reply.data, "message");
      && (JsTruthy(error) ==> r == Alerted(AlertText(JsString(error))))
      && (!JsTruthy(error) && JsTruthy(message) ==> r == Alerted(AlertText(JsString(message))))
      && (!JsTruthy(error) && !JsTruthy(message) ==> r == Alerted(InitFailedText))
  {
    match reply
    case NotOk(text, parsed) => Alerted(AlertText(NotOkText(text, parsed)))
    case FetchFailed(message) => Alerted(AlertText(message))
    case OkReply(data) =>
      if data == JNull then Alerted(NullSuccessReadText)
      else
      var success := LahzaCheckout.Field(data, "success");
      var url := LahzaCheckout.Field(data, "authorization_url");
      if JsTruthy(success) && JsTruthy(url) then
        Redirected(url, PendingPayment(LahzaCheckout.Field(data, "reference"), request.email, request.offerType, request.offerName))
      else
        Alerted(AlertText(OrText(LahzaCheckout.Field(data, "error"), LahzaCheckout.Field(data, "message"), InitFailedText)))
  }

  /** A refusal whose error is an object alerts its String() form, not its message field. */
  lemma ObjectErrorAlertedAsObject(request: RamadanRequest, message: string)
    ensures var body := JObj(map["success" := JBool(false), "error" := JObj(map["code" := JNum(5)]), "message" := JStr(message)]);
      InitOutcomeOf(request, OkReply(body)) == Alerted("[object Object]")
  {
    var body := JObj(map["success" := JBool(false), "error" := JObj(map["code" := JNum(5)]), "message" := JStr(message)]);
    assert LahzaCheckout.Field(body, "error") == JObj(map["code" := JNum(5)]);
    assert LahzaCheckout.Field(body, "success") == JBool(false);
  }

  /** A refusal whose error is an empty array throws an Error with an empty message, so the catch's default is alerted. */
  lemma EmptyArrayErrorAlertsDefault(request: RamadanRequest)
    ensures var body := JObj(map["success" := JBool(false), "error" := JArr([])]);
      InitOutcomeOf(request, OkReply(body)) == Alerted(UnexpectedErrorText)
  {
    var body := JObj(map["success" := JBool(false), "error" := JArr([])]);
    assert LahzaCheckout.Field(body, "error") == JArr([]);
    assert LahzaCheckout.Field(body, "success") == JBool(false);
  }

  /** The verify call's reply: its JSON, or a failure the handler only logs. */
  datatype VerifyReply = VerifyData(data: Json) | VerifyFailed

  datatype CallbackOutcome = NoCallback | LoggedOnly | Confirmed | NotThisPayment | VerifyRejected

  const PaidText: string := "تم الدفع بنجاح! شكراً لك."
  const VerifyRejectedText: string := "فشل التحقق من الدفع. يرجى التواصل مع الدعم."

  /**
   * checkPaymentCallback: without a reference in the address nothing is
   * verified; a verified payment is confirmed only when the stored pending
   * payment carries that same reference.  A null body makes `data.success`
   * throw inside the handler, which the catch only logs.
   */
  function CallbackOutcomeOf(reference: Option<string>, reply: VerifyReply, pending: Option<PendingPayment>): (r: CallbackOutcome)
    ensures r.NoCallback? <==> reference.None? || reference.value == ""
    ensures r.Confirmed? <==>
      reference.Some? && reference.value != "" && reply.VerifyData?
      && JsTruthy(LahzaCheckout.Field(reply.data, "success"))
      && pending.Some? && pending.value.reference == JStr(reference.value)
    ensures r.VerifyRejected? <==>
      reference.Some? && reference.value != "" && reply.VerifyData? && reply.data != JNull
      && !JsTruthy(LahzaCheckout.Field(reply.data, "success"))
    ensures r.LoggedOnly? <==>
      reference.Some? && reference.value != "" && (reply.VerifyFailed? || reply == VerifyData(JNull))
  {
    if reference.None? || reference.value == "" then NoCallback
    else
      match reply
      case VerifyFailed => LoggedOnly
      case VerifyData(data) =>
        if data == JNull then LoggedOnly
        else if !JsTruthy(LahzaCheckout.Field(data, "success")) then VerifyRejected
        else if pending.Some? && pending.value.reference == JStr(reference.value) then Confirmed
        else NotThisPayment
  }

  /** The page's state: the chosen payment and the pending payment in local storage. */
  class RamadanSession {
    var selectedPayment: Option<PaymentChoice>
    var pending: Option<PendingPayment>

    constructor(stored: Option<PendingPayment>)
      ensures selectedPayment.None? && pending == stored
    {
      selectedPayment, pending := None, stored;
    }

    /** A payment button: its data becomes the chosen payment. */
    method ChoosePayment(choice: PaymentChoice)
      modifies this
      ensures selectedPayment == Some(choice) && pending == old(pending)
    {
      selectedPayment := Some(choice);
    }

    /** The close button or a click on the overlay: the choice is forgotten. */
    method CloseModal()
      modifies this
      ensures selectedPayment.None? && pending == old(pending)
    {
      selectedPayment := None;
    }

    /** The form's submit; a redirect stores the pending payment. */
    method Submit(rawName: string, rawEmail: string, rawPhone: string, reply: InitReply)
      returns (check: SubmitCheck, outcome: Option<InitOutcome>)
      modifies this
      ensures check == RamadanSubmit(old(selectedPayment), rawName, rawEmail, rawPhone)
      ensures outcome.Some? <==> check.SendRequest?
      ensures outcome.Some? ==> outcome.value == InitOutcomeOf(check.request, reply)
      ensures pending == (if outcome.Some? && outcome.value.Redirected? then Some(outcome.value.pending) else old(pending))
      ensures selectedPayment == old(selectedPayment)
    {
      check := RamadanSubmit(selectedPayment, rawName, rawEmail, rawPhone);
      outcome := None;
      if check.SendRequest? {
        var o := InitOutcomeOf(check.request, reply);
        outcome := Some(o);
        if o.Redirected? {
          pending := Some(o.pending);
        }
      }
    }

    /** The page load after the gateway: a confirmed payment is removed from storage. */
    method Callback(reference: Option<string>, reply: VerifyReply) returns (outcome: CallbackOutcome)
      modifies this
      ensures outcome == CallbackOutcomeOf(reference, reply, old(pending))
      ensures pending == (if outcome.Confirmed? then None else old(pending))
      ensures selectedPayment == old(selectedPayment)
    {
      outcome := CallbackOutcomeOf(reference, reply, pending);
      if outcome.Confirmed? {
        pending := None;
      }
    }
  }

  /**
   * A redirect followed by the gateway's return: the stored reference is
   * confirmed by a successful verification of that same reference, and by
   * no other.
   */
  lemma RedirectThenCallback(request: RamadanRequest, reply: InitReply, returned: string, verify: Json)
    requires InitOutcomeOf(request, reply).Redirected?
    requires LahzaCheckout.Field(reply.data, "reference") == JStr(returned) && returned != ""
    requires JsTruthy(LahzaCheckout.Field(verify, "success"))
    ensures CallbackOutcomeOf(Some(returned), VerifyData(verify), Some(InitOutcomeOf(request, reply).pending)) == Confirmed
    ensures forall other :: other != returned && other != "" ==>
      CallbackOutcomeOf(Some(other), VerifyData(verify), Some(InitOutcomeOf(request, reply).pending)) == NotThisPayment
  {
  }
}
