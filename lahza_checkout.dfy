/**
 * The standalone Lahza checkout page: the offer and checkout URL read from
 * the query string, the callback reference that triggers verification, the
 * origin filter on iframe messages, the payment-form validator and the
 * submit-time checks, the verification outcome and the friendly wording of a
 * declined payment.  The query string is a map from parameter to value, the
 * parsed prices are inputs, and fetch replies are parameters.
 */
module LahzaCheckout {
  import opened Wrappers
  import opened Text
  import opened Json
  import opened FormRules
  import BlackFridayPage

  const DefaultCheckoutUrl: string := "https://checkout.lahza.io/AvD2PbUQGy"

  /** `urlParams.get(key) || fallback`: an absent or empty parameter gives the fallback. */
  function ParamOr(params: map<string, string>, key: string, fallback: string): (r: string)
    ensures key in params && params[key] != "" ==> r == params[key]
    ensures key !in params || params[key] == "" ==> r == fallback
  {
    if key in params && params[key] != "" then params[key] else fallback
  }

  /** loadCheckoutURL: the `checkoutUrl` parameter, else the fixed Lahza checkout link. */
  function CheckoutUrl(params: map<string, string>): (r: string)
    ensures "checkoutUrl" !in params ==> r == DefaultCheckoutUrl
    ensures r != ""
  {
    ParamOr(params, "checkoutUrl", DefaultCheckoutUrl)
  }

  /** The offer shown and charged. */
  datatype Offer = Offer(
    offerType: string, name: string, nameAr: string, price: int, originalPrice: int,
    discount: string, discountAr: string)

  /** The offer with every query parameter missing. */
  const DefaultOffer: Offer := Offer("bundle", "Design Package + VIP Tips", "حزمة التداول المباشر + إشارت VIP",
                                     136, 300, "55% OFF", "خصم 55%")

  /** `parseFloat(x) || fallback` on an already-parsed price: None is NaN, and 0 is falsy too. */
  function PriceOr(parsed: Option<int>, fallback: int): (r: int)
    ensures parsed.Some? && parsed.value != 0 ==> r == parsed.value
    ensures parsed.None? || parsed.value == 0 ==> r == fallback
  {
    if parsed.Some? && parsed.value != 0 then parsed.value else fallback
  }

  /** loadOfferFromURL: each field from its parameter, or its default. */
  function OfferFromUrl(params: map<string, string>, price: Option<int>, originalPrice: Option<int>): (o: Offer)
    ensures o.price != 0 && o.originalPrice != 0
    ensures o.offerType != "" && o.name != "" && o.nameAr != "" && o.discount != "" && o.discountAr != ""
  {
    Offer(ParamOr(params, "offer", DefaultOffer.offerType),
          ParamOr(params, "name", DefaultOffer.name),
          ParamOr(params, "nameAr", DefaultOffer.nameAr),
          PriceOr(price, DefaultOffer.price),
          PriceOr(originalPrice, DefaultOffer.originalPrice),
          ParamOr(params, "discount", DefaultOffer.discount),
          ParamOr(params, "discountAr", DefaultOffer.discountAr))
  }

  /** With none of the offer's parameters given, the page offers the default bundle. */
  lemma MissingParamsGiveDefaultOffer(params: map<string, string>)
    requires forall k :: k in params ==> k !in {"offer", "name", "nameAr", "discount", "discountAr"}
    ensures OfferFromUrl(params, None, None) == DefaultOffer
  {
  }

  /** A parameter that is given and non-empty always wins over the default. */
  lemma GivenParamsWin(params: map<string, string>, price: int, originalPrice: int)
    requires "offer" in params && params["offer"] != "" && price != 0 && originalPrice != 0
    ensures var o := OfferFromUrl(params, Some(price), Some(originalPrice));
      o.offerType == params["offer"] && o.price == price && o.originalPrice == originalPrice
  {
  }

  /** checkPaymentCallback: the `reference` parameter, else `ref`; verification runs only when one is given. */
  function CallbackReference(params: map<string, string>): (r: Option<string>)
    ensures r.None? <==> ParamOr(params, "reference", "") == "" && ParamOr(params, "ref", "") == ""
    ensures r.Some? ==> r.value != ""
    ensures r.Some? && ParamOr(params, "reference", "") != "" ==> r.value == params["reference"]
    ensures r.Some? && ParamOr(params, "reference", "") == "" ==> r.value == params["ref"]
  {
    var reference := ParamOr(params, "reference", ParamOr(params, "ref", ""));
    if reference == "" then None else Some(reference)
  }

  /** The two origins whose messages are heeded. */
  predicate LahzaOrigin(origin: string)
  {
    origin == "https://checkout.lahza.io" || origin == "https://lahza.io"
  }

  /** `event.data.key`: undefined unless data is an object. */
  function Field(data: Json, key: string): Json
  {
    if data.JObj? then Get(data.fields, key) else JNull
  }

  /**
   * handleIframeMessage: the references whose verification is scheduled, in
   * order.  A payment_success message and a payment_complete (or
   * status 'success') message each schedule one; a message that is both
   * schedules two.
   */
  function MessageVerifications(origin: string, data: Json): (r: seq<Json>)
    ensures !LahzaOrigin(origin) ==> r == []
    ensures |r| <= 2
    ensures forall i :: 0 <= i < |r| ==> JsTruthy(r[i]) && r[i] == JsOr(Field(data, "reference"), Field(data, "ref"))
  {
    if !LahzaOrigin(origin) then []
    else
      var reference := JsOr(Field(data, "reference"), Field(data, "ref"));
      var first := if JsTruthy(data) && Field(data, "type") == JStr("payment_success") && JsTruthy(reference)
                   then [reference] else [];
      var second := if JsTruthy(data) && (Field(data, "type") == JStr("payment_complete") || Field(data, "status") == JStr("success"))
                       && JsTruthy(reference)
                    then [reference] else [];
      first + second
  }

  /** A payment_success message that also says status 'success' starts two verifications. */
  lemma SuccessMessageVerifiedTwice(reference: string)
    requires reference != ""
    ensures MessageVerifications("https://lahza.io",
      JObj(map["type" := JStr("payment_success"), "status" := JStr("success"), "reference" := JStr(reference)]))
      == [JStr(reference), JStr(reference)]
  {
    var data := JObj(map["type" := JStr("payment_success"), "status" := JStr("success"), "reference" := JStr(reference)]);
    assert Field(data, "type") == JStr("payment_success");
    assert Field(data, "status") == JStr("success");
    assert Field(data, "reference") == JStr(reference);
  }

  /**
   * validatePaymentForm: false when an input or the pay button is missing;
   * else the two names, the mobile's digits, the email pattern (all trimmed),
   * the policy checkbox and the reCAPTCHA Enterprise API.
   */
  function ValidateCheckoutForm(inputs: Option<BlackFridayPage.PaymentInputs>, policiesChecked: Option<bool>, recaptchaLoaded: bool): (r: bool)
    ensures r <==>
      inputs.Some? && NameOk(Trim(inputs.value.firstName)) && NameOk(Trim(inputs.value.lastName))
      && MobileDigitsOk(Trim(inputs.value.mobile)) && EmailMatches(Trim(inputs.value.email))
      && policiesChecked == Some(true) && recaptchaLoaded
  {
    match inputs
    case None => false
    case Some(f) =>
      var firstOk := |Trim(f.firstName)| >= 2;
      var lastOk := |Trim(f.lastName)| >= 2;
      var mobileOk := |Digits(Trim(f.mobile))| >= 8;
      var emailOk := EmailMatches(Trim(f.email));
      var accepted := if policiesChecked.Some? then policiesChecked.value else false;
      firstOk && lastOk && mobileOk && emailOk && accepted && recaptchaLoaded
  }

  /** Formatting characters in the mobile number never change its validity. */
  lemma MobileFormattingIgnored(before: string, c: char, after: string)
    requires !IsDigit(c)
    ensures MobileDigitsOk(before + [c] + after) == MobileDigitsOk(before + after)
  {
    DigitsAppend(before + [c], after);
    DigitsAppend(before, [c]);
    DigitsAppend(before, after);
    assert Digits([c]) == [];
  }

  /** What handlePaymentSubmit does before asking reCAPTCHA for a token. */
  datatype SubmitCheck =
    | InputsMissing
    | FieldAlert(error: PaymentFieldError)
    | PoliciesAlert
    | PayButtonMissing
    | Proceed(firstName: string, lastName: string, mobile: string, email: string)

  /**
   * handlePaymentSubmit's checks: the four inputs must exist, then the
   * first failing field rule alerts, then the policy checkbox, then the pay
   * button must exist.
   */
  function SubmitChecks(inputs: Option<BlackFridayPage.PaymentInputs>, policiesChecked: Option<bool>, payButtonPresent: bool): (r: SubmitCheck)
    ensures r == InputsMissing <==> inputs.None?
    ensures inputs.Some? ==>
      var f := inputs.value;
      var e := FirstPaymentFieldError(Trim(f.firstName), Trim(f.lastName), Trim(f.mobile), Trim(f.email));
      (e.Some? <==> r.FieldAlert?) && (e.Some? ==> r.error == e.value)
      && (r == PoliciesAlert <==> e.None? && policiesChecked != Some(true))
      && (r.Proceed? <==> e.None? && policiesChecked == Some(true) && payButtonPresent)
      && (r.Proceed? ==> r == Proceed(Trim(f.firstName), Trim(f.lastName), Trim(f.mobile), Trim(f.email)))
  {
    match inputs
    case None => InputsMissing
    case Some(f) =>
      var first, last, mobile, email := Trim(f.firstName), Trim(f.lastName), Trim(f.mobile), Trim(f.email);
      var e := FirstPaymentFieldError(first, last, mobile, email);
      if e.Some? then FieldAlert(e.value)
      else if policiesChecked != Some(true) then PoliciesAlert
      else if !payButtonPresent then PayButtonMissing
      else Proceed(first, last, mobile, email)
  }

  /**
   * The validator that enables the pay button and the submit-time checks
   * agree: with the reCAPTCHA API loaded and the button present, a form
   * passes the one exactly when it passes the other.
   */
  lemma ValidatorAgreesWithSubmit(inputs: Option<BlackFridayPage.PaymentInputs>, policiesChecked: Option<bool>)
    ensures ValidateCheckoutForm(inputs, policiesChecked, true) <==> SubmitChecks(inputs, policiesChecked, true).Proceed?
  {
  }

  /** The outcome of the verify request: the fetch or the HTTP status failed (with the error's message), or the JSON reply. */
  datatype VerifyReply = VerifyFailed(errorMessage: string) | VerifyData(data: map<string, Json>)

  /** The page on show. */
  datatype Screen = PaymentScreen | SuccessScreen | DeclinedScreen(reference: string, message: string)

  const DeclinedDefaultEn: string := "Payment verification failed"
  const DeclinedDefaultAr: string := "فشل التحقق من الدفع"
  const ErrorDefaultEn: string := "An error occurred while verifying payment"
  const ErrorDefaultAr: string := "حدث خطأ أثناء التحقق من الدفع"

  /** The TypeError `errorMessage.toLowerCase()` raises when the message is not a string (V8's wording). */
  const NotAStringText: string := "errorMessage.toLowerCase is not a function"

  /** `data.error || data.message || fallback`: the first truthy field, of whatever JSON type, else the fallback. */
  function ReplyError(data: map<string, Json>, fallback: string): (r: Json)
    ensures JsTruthy(Get(data, "error")) ==> r == Get(data, "error")
    ensures !JsTruthy(Get(data, "error")) && JsTruthy(Get(data, "message")) ==> r == Get(data, "message")
    ensures !JsTruthy(Get(data, "error")) && !JsTruthy(Get(data, "message")) ==> r == JStr(fallback)
  {
    JsOr(Get(data, "error"), JsOr(Get(data, "message"), JStr(fallback)))
  }

  /** The reference the catch shows: the URL's reference or ref, else 'Unknown'. */
  function UrlShown(urlReference: Option<string>): (r: string)
    ensures r != ""
    ensures urlReference.Some? && urlReference.value != "" ==> r == urlReference.value
  {
    if urlReference.Some? && urlReference.value != "" then urlReference.value else "Unknown"
  }

  /**
   * The declined page after a refusal: a string error or message is shown,
   * made friendly, with the callback's reference; any other truthy value makes
   * `toLowerCase()` throw, and the catch shows that TypeError with the URL's
   * reference.
   */
  function RefusalScreen(data: map<string, Json>, reference: string, urlReference: Option<string>, arabic: bool): (r: Screen)
    ensures var v := ReplyError(data, if arabic then DeclinedDefaultAr else DeclinedDefaultEn);
      && (v.JStr? ==> r == DeclinedScreen(reference, FriendlyMessage(v.s, arabic)))
      && (!v.JStr? ==> r == DeclinedScreen(UrlShown(urlReference), FriendlyMessage(NotAStringText, arabic)))
  {
    var v := ReplyError(data, if arabic then DeclinedDefaultAr else DeclinedDefaultEn);
    if v.JStr? then DeclinedScreen(reference, FriendlyMessage(v.s, arabic))
    else DeclinedScreen(UrlShown(urlReference), FriendlyMessage(NotAStringText, arabic))
  }

  /** A refusal carrying a numeric error code loses the callback's reference. */
  lemma NumericErrorShowsUrlReference(reference: string, urlReference: Option<string>, arabic: bool)
    ensures RefusalScreen(map["success" := JBool(false), "error" := JNum(5)], reference, urlReference, arabic)
         == DeclinedScreen(UrlShown(urlReference), FriendlyMessage(NotAStringText, arabic))
  {
    assert Get(map["success" := JBool(false), "error" := JNum(5)], "error") == JNum(5);
  }

  /** The cause a declined message names, most specific test first. */
  datatype DeclineCause = CardDeclined | InsufficientFunds | CardExpired | InvalidCard

  /** updateDeclinedPage's classification of the lower-cased message. */
  function DeclineCauseOf(message: string): (r: Option<DeclineCause>)
    ensures var m := Lower(message);
      (r == Some(CardDeclined) <==> Contains(m, "declined") || Contains(m, "failed"))
      && (r == Some(InsufficientFunds) <==> !(Contains(m, "declined") || Contains(m, "failed")) && Contains(m, "insufficient"))
      && (r == Some(CardExpired) <==>
            !(Contains(m, "declined") || Contains(m, "failed") || Contains(m, "insufficient")) && Contains(m, "expired"))
      && (r == Some(InvalidCard) <==>
            !(Contains(m, "declined") || Contains(m, "failed") || Contains(m, "insufficient") || Contains(m, "expired"))
            && Contains(m, "invalid"))
  {
    var m := Lower(message);
    if Contains(m, "declined") || Contains(m, "failed") then Some(CardDeclined)
    else if Contains(m, "insufficient") then Some(InsufficientFunds)
    else if Contains(m, "expired") then Some(CardExpired)
    else if Contains(m, "invalid") then Some(InvalidCard)
    else None
  }

  /** The message shown on the declined page: the cause's wording, or the message itself. */
  function FriendlyMessage(message: string, arabic: bool): (r: string)
    ensures DeclineCauseOf(message).None? ==> r == message
    ensures DeclineCauseOf(message) == Some(CardDeclined) && !arabic ==> r == "Payment was declined by your bank or card issuer"
  {
    match DeclineCauseOf(message)
    case None => message
    case Some(CardDeclined) => if arabic then "تم رفض الدفع من قبل البنك أو مصدر البطاقة" else "Payment was declined by your bank or card issuer"
    case Some(InsufficientFunds) => if arabic then "الرصيد غير كافٍ لإتمام المعاملة" else "Insufficient funds to complete the transaction"
    case Some(CardExpired) => if arabic then "انتهت صلاحية البطاقة" else "Card has expired"
    case Some(InvalidCard) => if arabic then "تفاصيل البطاقة غير صحيحة" else "Invalid card details"
  }

  /** A string without capital letters is its own lower case. */
  lemma LowerKeepsLowercase(s: string)
    requires forall i :: 0 <= i < |s| ==> !('A' <= s[i] <= 'Z')
    ensures Lower(s) == s
  {
    assert forall i :: 0 <= i < |s| ==> Lower(s)[i] == s[i];
  }

  /**
   * Any message ending in 'failed' reads as a declined card, whatever else
   * it says; the verification's own default, "Payment verification failed",
   * is one.
   */
  lemma FailedMessagesDecline(head: string)
    ensures DeclineCauseOf(head + "failed") == Some(CardDeclined)
  {
    LowerAppend(head, "failed");
    LowerKeepsLowercase("failed");
    ContainsSuffix(Lower(head), "failed");
  }

  /** The checkout page's globals, the pending payment in localStorage and the page on show. */
  class CheckoutPage {
    var selectedOffer: Option<Offer>
    var checkoutUrl: string
    var orderId: Json
    var userEmail: Json
    var pendingPayment: Option<map<string, Json>>
    var screen: Screen

    constructor(pending: Option<map<string, Json>>)
      ensures selectedOffer.None? && orderId == JStr("") && userEmail == JStr("")
      ensures pendingPayment == pending && screen == PaymentScreen
    {
      selectedOffer := None;
      checkoutUrl := "";
      orderId := JStr("");
      userEmail := JStr("");
      pendingPayment := pending;
      screen := PaymentScreen;
    }

    /** loadOfferFromURL and loadCheckoutURL, as the page runs them on load. */
    method LoadFromUrl(params: map<string, string>, price: Option<int>, originalPrice: Option<int>)
      modifies this
      ensures selectedOffer == Some(OfferFromUrl(params, price, originalPrice))
      ensures checkoutUrl == CheckoutUrl(params)
      ensures orderId == old(orderId) && userEmail == old(userEmail)
      ensures pendingPayment == old(pendingPayment) && screen == old(screen)
    {
      selectedOffer := Some(OfferFromUrl(params, price, originalPrice));
      checkoutUrl := CheckoutUrl(params);
    }

    /**
     * handlePaymentSubmit up to the reCAPTCHA step: a missing offer is first
     * reloaded from the URL (which always yields one), then the checks run.
     */
    method SubmitPayment(inputs: Option<BlackFridayPage.PaymentInputs>, policiesChecked: Option<bool>, payButtonPresent: bool,
                         params: map<string, string>, price: Option<int>, originalPrice: Option<int>) returns (check: SubmitCheck)
      modifies this
      ensures check == SubmitChecks(inputs, policiesChecked, payButtonPresent)
      ensures selectedOffer
           == if inputs.Some? && old(selectedOffer).None? then Some(OfferFromUrl(params, price, originalPrice)) else old(selectedOffer)
      ensures (orderId, userEmail, pendingPayment, screen, checkoutUrl)
           == old((orderId, userEmail, pendingPayment, screen, checkoutUrl))
    {
      if inputs.None? {
        return InputsMissing;
      }
      ReloadOffer(params, price, originalPrice);
      check := SubmitChecks(inputs, policiesChecked, payButtonPresent);
    }

    /** loadOfferFromUrl when no offer is selected yet. */
    method ReloadOffer(params: map<string, string>, price: Option<int>, originalPrice: Option<int>)
      modifies this
      ensures selectedOffer == if old(selectedOffer).None? then Some(OfferFromUrl(params, price, originalPrice)) else old(selectedOffer)
      ensures (orderId, userEmail, pendingPayment, screen, checkoutUrl)
           == old((orderId, userEmail, pendingPayment, screen, checkoutUrl))
    {
      if selectedOffer.None? {
        selectedOffer := Some(OfferFromUrl(params, price, originalPrice));
      }
    }

    /**
     * verifyPaymentAfterCallback: on success the order id and email are
     * recorded, the pending payment is cleared and the success page shows;
     * otherwise the declined page shows the reply's error, message or the
     * default, and on a failed request the error's message with the URL's
     * reference (or 'Unknown').  A refusal whose error or message is truthy
     * but not a string makes the declined page's `toLowerCase()` throw, so the
     * catch shows that TypeError's message with the URL's reference.
     */
    method VerifyPayment(reference: string, urlReference: Option<string>, reply: VerifyReply, arabic: bool)
      modifies this
      ensures reply.VerifyData? && JsTruthy(Get(reply.data, "success")) ==>
        var stored := if old(pendingPayment).Some? then old(pendingPayment).value else map[];
        (orderId, userEmail, pendingPayment, screen)
        == (JsOr(Get(reply.data, "reference"), JStr(reference)), JsOr(Get(stored, "email"), JsOr(Get(reply.data, "email"), JStr(""))),
            None, SuccessScreen)
      ensures reply.VerifyData? && !JsTruthy(Get(reply.data, "success")) ==>
        (orderId, userEmail, pendingPayment, screen)
        == (old(orderId), old(userEmail), old(pendingPayment), RefusalScreen(reply.data, reference, urlReference, arabic))
      ensures reply.VerifyFailed? ==>
        var message := if reply.errorMessage != "" then reply.errorMessage else if arabic then ErrorDefaultAr else ErrorDefaultEn;
        var shown := if urlReference.Some? && urlReference.value != "" then urlReference.value else "Unknown";
        (orderId, userEmail, pendingPayment, screen)
        == (old(orderId), old(userEmail), old(pendingPayment), DeclinedScreen(shown, FriendlyMessage(message, arabic)))
      ensures (selectedOffer, checkoutUrl) == old((selectedOffer, checkoutUrl))
    {
      match reply
      case VerifyFailed(errorMessage) =>
        var message := if errorMessage != "" then errorMessage else if arabic then ErrorDefaultAr else ErrorDefaultEn;
        var shown := if urlReference.Some? && urlReference.value != "" then urlReference.value else "Unknown";
        ShowDeclined(shown, FriendlyMessage(message, arabic));
      case VerifyData(data) =>
        if JsTruthy(Get(data, "success")) {
          RecordSuccess(data, reference);
        } else {
          var refused := RefusalScreen(data, reference, urlReference, arabic);
          ShowDeclined(refused.reference, refused.message);
        }
    }

    /** A verified payment: the order id and the email are recorded, the pending payment cleared. */
    method RecordSuccess(data: map<string, Json>, reference: string)
      modifies this
      ensures var stored := if old(pendingPayment).Some? then old(pendingPayment).value else map[];
        (orderId, userEmail, pendingPayment, screen)
        == (JsOr(Get(data, "reference"), JStr(reference)), JsOr(Get(stored, "email"), JsOr(Get(data, "email"), JStr(""))),
            None, SuccessScreen)
      ensures (selectedOffer, checkoutUrl) == old((selectedOffer, checkoutUrl))
    {
      var stored := if pendingPayment.Some? then pendingPayment.value else map[];
      orderId := JsOr(Get(data, "reference"), JStr(reference));
      userEmail := JsOr(Get(stored, "email"), JsOr(Get(data, "email"), JStr("")));
      pendingPayment := None;
      screen := SuccessScreen;
    }

    /** The declined page with its reference and message; nothing else changes. */
    method ShowDeclined(shown: string, message: string)
      modifies this
      ensures screen == DeclinedScreen(shown, message)
      ensures (orderId, userEmail, pendingPayment, selectedOffer, checkoutUrl)
           == old((orderId, userEmail, pendingPayment, selectedOffer, checkoutUrl))
    {
      screen := DeclinedScreen(shown, message);
    }
  }
}
