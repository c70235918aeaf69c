/**
 * The payment page: the plan read from a pricing card, the membership
 * button's fixed plan, the submit-time checks and the initialise request,
 * the status polling once the Lahza iframe is open, and the origin filter on
 * iframe messages.  Cards, replies and ticks are inputs.
 */
module PaymentPage {
  import opened Wrappers
  import opened Text
  import opened Json
  import opened FormRules
  import opened PaymentPolling
  import LahzaCheckout

  /** window.currentPlanData: offerType is absent on the default plan. */
  datatype PlanData = PlanData(name: string, amount: int, currency: string, offerType: Option<string>)

  /** A pricing card: its title and price texts, None where the element is missing. */
  datatype PricingCard = PricingCard(title: Option<string>, priceText: Option<string>)

  /** The first run of digits in the price text, as a number. */
  function CardPrice(priceText: string): (r: Option<nat>)
    ensures r.None? <==> FirstDigitRun(priceText).None?
    ensures r.Some? ==> r.value == DigitsValue(FirstDigitRun(priceText).value)
  {
    match FirstDigitRun(priceText)
    case None => None
    case Some(run) => Some(DigitsValue(run))
  }

  /** `price || fallback`: a missing or zero price gives the plan's own amount. */
  function AmountOr(price: Option<nat>, fallback: nat): (r: nat)
    ensures r > 0 || fallback == 0
    ensures price.Some? && price.value != 0 ==> r == price.value
    ensures price.None? || price.value == 0 ==> r == fallback
  {
    if price.Some? && price.value != 0 then price.value else fallback
  }

  predicate IsLiveTitle(t: string) { Contains(t, "جلسات تداول مباشر") || Contains(t, "تداول مباشر") }
  predicate IsBundleTitle(t: string) { Contains(t, "الباندل") || Contains(t, "Bundle") }
  predicate IsVipTitle(t: string) { Contains(t, "إشارات VIP") || Contains(t, "VIP") }

  /**
   * getPlanDataFromCard: null without a card or for an unknown title; else
   * live trading before bundle before VIP, each priced from the card or its
   * default, all in shekels.
   */
  function PlanFromCard(card: Option<PricingCard>): (r: Option<PlanData>)
    ensures card.None? ==> r.None?
    ensures card.Some? ==>
      var t := Trim(card.value.title.GetOr(""));
      var price := CardPrice(card.value.priceText.GetOr(""));
      (r.None? <==> !IsLiveTitle(t) && !IsBundleTitle(t) && !IsVipTitle(t))
      && (IsLiveTitle(t) ==> r == Some(PlanData("جلسات تداول مباشر", AmountOr(price, 330), "ILS", Some("live_trading"))))
      && (!IsLiveTitle(t) && IsBundleTitle(t) ==> r == Some(PlanData("الباندل", AmountOr(price, 550), "ILS", Some("bundle"))))
      && (!IsLiveTitle(t) && !IsBundleTitle(t) && IsVipTitle(t) ==>
            r == Some(PlanData("إشارات VIP", AmountOr(price, 370), "ILS", Some("vip_signals"))))
    ensures r.Some? ==> r.value.currency == "ILS" && r.value.amount > 0
  {
    match card
    case None => None
    case Some(c) =>
      var t := Trim(c.title.GetOr(""));
      var price := CardPrice(c.priceText.GetOr(""));
      if IsLiveTitle(t) then Some(PlanData("جلسات تداول مباشر", AmountOr(price, 330), "ILS", Some("live_trading")))
      else if IsBundleTitle(t) then Some(PlanData("الباندل", AmountOr(price, 550), "ILS", Some("bundle")))
      else if IsVipTitle(t) then Some(PlanData("إشارات VIP", AmountOr(price, 370), "ILS", Some("vip_signals")))
      else None
  }

  /** A card whose price text prints a non-zero number is charged that number. */
  lemma CardChargesPrintedPrice(title: string, before: string, n: nat, after: string)
    requires IsLiveTitle(Trim(title)) || IsBundleTitle(Trim(title)) || IsVipTitle(Trim(title))
    requires forall j :: 0 <= j < |before| ==> !IsDigit(before[j])
    requires |after| == 0 || !IsDigit(after[0])
    requires n != 0
    ensures PlanFromCard(Some(PricingCard(Some(title), Some(before + NatToString(n) + after)))).value.amount == n
  {
    FirstRunOfPrintedNumber(before, n, after);
  }

  /** The educational membership button's plan. */
  const MembershipPlan: PlanData := PlanData("العضوية التعليمية (3 أشهر)", 1850, "ILS", Some("educational_membership"))

  /** The plan charged when none was chosen. */
  const DefaultPlan: PlanData := PlanData("جلسات تداول مباشر", 330, "ILS", None)

  /** The user form's inputs, untrimmed. */
  datatype UserForm = UserForm(firstName: string, lastName: string, mobile: string, email: string, address: string)

  /** `offerType || 'payment_page'`. */
  function OfferTypeOr(offerType: Option<string>): (r: string)
    ensures offerType.Some? && offerType.value != "" ==> r == offerType.value
    ensures offerType.None? || offerType.value == "" ==> r == "payment_page"
  {
    if offerType.Some? && offerType.value != "" then offerType.value else "payment_page"
  }

  /** The body posted to /payment/payment/initialize/: the trimmed inputs and the plan, or the default plan. */
  function InitializeBody(f: UserForm, plan: Option<PlanData>, recaptchaToken: string): (body: InitializeRequest)
    ensures var p := plan.GetOr(DefaultPlan);
      body.amount == p.amount && body.currency == p.currency && body.offerName == p.name
      && body.offerType == OfferTypeOr(p.offerType)
    ensures body.email == Trim(f.email) && body.firstName == Trim(f.firstName) && body.lastName == Trim(f.lastName)
      && body.mobile == Trim(f.mobile) && body.address == Some(Trim(f.address))
    ensures body.source == "payment"
  {
    var p := plan.GetOr(DefaultPlan);
    InitializeRequest(Trim(f.email), p.amount, p.currency, Trim(f.firstName), Trim(f.lastName), Trim(f.mobile),
                      Some(Trim(f.address)), OfferTypeOr(p.offerType), p.name, "payment", recaptchaToken)
  }

  /** Without a chosen plan the default live-trading plan is charged, in shekels, as a 'payment_page' offer. */
  lemma DefaultPlanCharged(f: UserForm, recaptchaToken: string)
    ensures var body := InitializeBody(f, None, recaptchaToken);
      body.amount == 330 && body.currency == "ILS" && body.offerType == "payment_page"
  {
  }

  /** A recognised card's plan keeps its own offer type in the request. */
  lemma CardPlanOfferType(f: UserForm, card: Option<PricingCard>, recaptchaToken: string)
    requires PlanFromCard(card).Some?
    ensures InitializeBody(f, PlanFromCard(card), recaptchaToken).offerType in {"live_trading", "bundle", "vip_signals"}
  {
  }

  /** The submit handler's result: the first failing field, else the request and what its reply leads to. */
  function SubmitSpec(f: UserForm, plan: Option<PlanData>, recaptchaToken: string, reply: InitReply): (r: SubmitResult)
    ensures var e := FirstPaymentFieldError(Trim(f.firstName), Trim(f.lastName), Trim(f.mobile), Trim(f.email));
      (r.FieldRejected? <==> e.Some?) && (r.FieldRejected? ==> r.error == e.value)
      && (r.IframeOpened? <==> e.None? && InitSucceeded(reply))
    ensures !r.FieldRejected? ==> r.body == InitializeBody(f, plan, recaptchaToken)
  {
    SubmitOutcome(FirstPaymentFieldError(Trim(f.firstName), Trim(f.lastName), Trim(f.mobile), Trim(f.email)),
                  InitializeBody(f, plan, recaptchaToken), reply)
  }

  /** The page's globals: the chosen plan and the reference being monitored. */
  class PaymentSession {
    var currentPlanData: Option<PlanData>
    var currentPaymentReference: string

    constructor()
      ensures currentPlanData.None? && currentPaymentReference == ""
    {
      currentPlanData := None;
      currentPaymentReference := "";
    }

    /** A pricing card's button: a recognised card becomes the plan and opens the form. */
    method ChooseCard(card: Option<PricingCard>) returns (formShown: bool)
      modifies this
      ensures formShown <==> PlanFromCard(card).Some?
      ensures currentPlanData == (if formShown then PlanFromCard(card) else old(currentPlanData))
      ensures currentPaymentReference == old(currentPaymentReference)
    {
      var plan := PlanFromCard(card);
      formShown := plan.Some?;
      currentPlanData := if formShown then plan else currentPlanData;
    }

    /** The membership button. */
    method ChooseMembership()
      modifies this
      ensures currentPlanData == Some(MembershipPlan) && currentPaymentReference == old(currentPaymentReference)
    {
      currentPlanData := Some(MembershipPlan);
    }

    /** The form's submit: on an opened iframe the reply's reference is recorded for monitoring. */
    method Submit(f: UserForm, recaptchaToken: string, reply: InitReply) returns (result: SubmitResult)
      modifies this
      ensures result == SubmitSpec(f, old(currentPlanData), recaptchaToken, reply)
      ensures currentPaymentReference == (if result.IframeOpened? then result.reference else old(currentPaymentReference))
      ensures currentPlanData == old(currentPlanData)
    {
      result := SubmitSpec(f, currentPlanData, recaptchaToken, reply);
      if result.IframeOpened? {
        currentPaymentReference := result.reference;
      }
    }

    /** startIframeMonitoring for the recorded reference. */
    method Monitor(replies: seq<PollReply>) returns (outcome: MonitorOutcome)
      ensures currentPaymentReference == "" ==> outcome == NotMonitored
      ensures currentPaymentReference != "" ==>
        outcome == MonitorSpec(replies, currentPaymentReference, "/payment/payment/success/")
    {
      outcome := MonitorPayment(currentPaymentReference, replies, "/payment/payment/success/");
    }
  }

  /** handleIframeMessage: a payment_success or payment_complete message from a Lahza origin verifies its reference. */
  function MessageReference(origin: string, data: Json): (r: Option<Json>)
    ensures !LahzaCheckout.LahzaOrigin(origin) ==> r.None?
    ensures r.Some? ==> JsTruthy(r.value) && r.value == JsOr(LahzaCheckout.Field(data, "reference"), LahzaCheckout.Field(data, "ref"))
    ensures r.Some? ==> LahzaCheckout.Field(data, "type") in {JStr("payment_success"), JStr("payment_complete")}
  {
    if !LahzaCheckout.LahzaOrigin(origin) then None
    else
      var kind := LahzaCheckout.Field(data, "type");
      var reference := JsOr(LahzaCheckout.Field(data, "reference"), LahzaCheckout.Field(data, "ref"));
      if JsTruthy(data) && (kind == JStr("payment_success") || kind == JStr("payment_complete")) && JsTruthy(reference)
      then Some(reference) else None
  }
}
