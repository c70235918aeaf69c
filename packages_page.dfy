/**
 * The packages page served from backend/static: a pricing card's title
 * picks one of three dollar plans, the user form is checked and posted to
 * /packages/payment/initialize/, and once the Lahza checkout is open in the
 * popup's iframe the page polls the payment's status and listens for the
 * gateway's completion message.  The popup's overlay, the poll interval and
 * the message listener are the session's state; closing the overlay stops
 * both of the latter, as the page's mutation observers do.
 */
module PackagesPage {
  import opened Wrappers
  import opened Text
  import opened Json
  import opened FormRules
  import opened PaymentPolling
  import LahzaCheckout

  /** window.currentPlanData on this page: always in dollars, without an offer type. */
  datatype PackagePlan = PackagePlan(name: string, amount: nat, currency: string)

  /** The plan used when no card was chosen, and for a card whose title names none of the three. */
  const DefaultPackage: PackagePlan := PackagePlan("VIP Channel", 100, "USD")

  predicate IsStrongestTitle(t: string) { Contains(t, "الباقة الأقوى") || Contains(t, "الأقوى") }
  predicate IsLiveTitle(t: string) { Contains(t, "LIVE TRADING") || Contains(t, "LIVE") }
  predicate IsVipTitle(t: string) { Contains(t, "VIP") }

  /** The plan a pricing card's trimmed title selects: strongest before live before VIP, else the default. */
  function PackageFor(title: string): (r: PackagePlan)
    ensures r.currency == "USD"
    ensures IsStrongestTitle(title) ==> r == PackagePlan("الباقة الأقوى", 180, "USD")
    ensures !IsStrongestTitle(title) && IsLiveTitle(title) ==> r == PackagePlan("LIVE TRADING", 150, "USD")
    ensures !IsStrongestTitle(title) && !IsLiveTitle(title) ==> r.amount == 100
    ensures !IsStrongestTitle(title) && !IsLiveTitle(title) && !IsVipTitle(title) ==> r == DefaultPackage
  {
    if IsStrongestTitle(title) then PackagePlan("الباقة الأقوى", 180, "USD")
    else if IsLiveTitle(title) then PackagePlan("LIVE TRADING", 150, "USD")
    else if IsVipTitle(title) then PackagePlan("VIP CHANNEL", 100, "USD")
    else DefaultPackage
  }

  /** Every plan the page can charge is one of three dollar amounts. */
  lemma PackageAmounts(title: string)
    ensures PackageFor(title).amount in {100, 150, 180}
  {
  }

  /**
   * The longer keyword of each pair is redundant: a title holding
   * 'الباقة الأقوى' holds 'الأقوى', and one holding 'LIVE TRADING' holds 'LIVE'.
   */
  lemma LongKeywordsRedundant(title: string)
    ensures IsStrongestTitle(title) <==> Contains(title, "الأقوى")
    ensures IsLiveTitle(title) <==> Contains(title, "LIVE")
  {
    if Contains(title, "الباقة الأقوى") {
      assert "الباقة الأقوى" == "الباقة " + "الأقوى";
      ContainsTail(title, "الباقة ", "الأقوى");
    }
    if Contains(title, "LIVE TRADING") {
      assert "LIVE TRADING" == "LIVE" + " TRADING";
      LiveHeadContained(title);
    }
  }

  /** A title holding 'LIVE TRADING' holds 'LIVE' at the same place. */
  lemma LiveHeadContained(title: string)
    requires Contains(title, "LIVE TRADING")
    ensures Contains(title, "LIVE")
  {
    var i :| 0 <= i <= |title| && OccursAt(title, "LIVE TRADING", i);
    assert title[i..i + 4] == title[i..i + 12][..4];
    assert OccursAt(title, "LIVE", i);
  }

  /** The form's inputs, untrimmed. */
  datatype PackageForm = PackageForm(firstName: string, lastName: string, mobile: string, email: string, address: string)

  /** The body posted to /packages/payment/initialize/: the trimmed inputs, the plan or its default, and the page's tags. */
  function PackageRequest(f: PackageForm, plan: Option<PackagePlan>, recaptchaToken: string): (body: InitializeRequest)
    ensures var p := plan.GetOr(DefaultPackage);
      body.amount == p.amount && body.currency == p.currency && body.offerName == p.name
    ensures body.email == Trim(f.email) && body.firstName == Trim(f.firstName) && body.lastName == Trim(f.lastName)
      && body.mobile == Trim(f.mobile) && body.address == Some(Trim(f.address))
    ensures body.offerType == "packages" && body.source == "packages"
    ensures body.currency == "USD" || plan.Some?
  {
    var p := plan.GetOr(DefaultPackage);
    InitializeRequest(Trim(f.email), p.amount, p.currency, Trim(f.firstName), Trim(f.lastName), Trim(f.mobile),
                      Some(Trim(f.address)), "packages", p.name, "packages", recaptchaToken)
  }

  /** Whatever plan is chosen, the request is tagged as a packages payment and charges that plan. */
  lemma ChosenPackageCharged(f: PackageForm, title: string, recaptchaToken: string)
    ensures var body := PackageRequest(f, Some(PackageFor(title)), recaptchaToken);
      body.offerType == "packages" && body.source == "packages" && body.currency == "USD"
      && body.amount == PackageFor(title).amount && body.amount in {100, 150, 180}
  {
    PackageAmounts(title);
  }

  /** The submit handler: the first failing field alerts; otherwise the request is posted and its reply decides. */
  function PackageSubmit(f: PackageForm, plan: Option<PackagePlan>, recaptchaToken: string, reply: InitReply): (r: SubmitResult)
    ensures var e := FirstPaymentFieldError(Trim(f.firstName), Trim(f.lastName), Trim(f.mobile), Trim(f.email));
      (r.FieldRejected? <==> e.Some?) && (r.FieldRejected? ==> r.error == e.value)
      && (r.IframeOpened? <==> e.None? && InitSucceeded(reply))
    ensures !r.FieldRejected? ==> r.body == PackageRequest(f, plan, recaptchaToken)
  {
    SubmitOutcome(FirstPaymentFieldError(Trim(f.firstName), Trim(f.lastName), Trim(f.mobile), Trim(f.email)),
                  PackageRequest(f, plan, recaptchaToken), reply)
  }

  /**
   * The completion message's reference, given whether its origin passed the
   * filter: an object whose type is payment_success or payment_complete, or
   * whose status is 'success', yields its reference, else its ref, else the
   * reference being monitored.
   */
  function CompletionReference(originAccepted: bool, data: Json, monitored: string): (r: Option<Json>)
    ensures !originAccepted ==> r.None?
    ensures r.Some? ==>
      JsTruthy(r.value) && r.value == JsOr(JsOr(LahzaCheckout.Field(data, "reference"), LahzaCheckout.Field(data, "ref")), StrOrNull(monitored))
    ensures r.Some? ==> JsTruthy(data)
    ensures originAccepted && IsCompletion(data) && monitored != "" ==> r.Some?
  {
    var reference := JsOr(JsOr(LahzaCheckout.Field(data, "reference"), LahzaCheckout.Field(data, "ref")), StrOrNull(monitored));
    if originAccepted && IsCompletion(data) && JsTruthy(reference) then Some(reference) else None
  }

  /** `event.data && (type === 'payment_success' || type === 'payment_complete' || status === 'success')`. */
  predicate IsCompletion(data: Json)
  {
    JsTruthy(data)
    && (LahzaCheckout.Field(data, "type") in {JStr("payment_success"), JStr("payment_complete")}
        || LahzaCheckout.Field(data, "status") == JStr("success"))
  }

  /** The origin filter as written: any origin containing 'lahza.io' (the 'pay.lahza.io' test adds nothing). */
  predicate OriginAcceptedAsWritten(origin: string)
  {
    Contains(origin, "lahza.io") || Contains(origin, "pay.lahza.io")
  }

  /** The filter the comment describes: an https origin on lahza.io itself or one of its subdomains. */
  predicate LahzaDomainOrigin(origin: string)
  {
    origin == "https://lahza.io" || (StartsWith(origin, "https://") && EndsWith(origin, ".lahza.io"))
  }

  /** The handler as written. */
  function MessageReferenceAsWritten(origin: string, data: Json, monitored: string): Option<Json>
  {
    CompletionReference(OriginAcceptedAsWritten(origin), data, monitored)
  }

  /** The handler the page uses in this model: only Lahza's own origins are heard. */
  function MessageReference(origin: string, data: Json, monitored: string): (r: Option<Json>)
    ensures !LahzaDomainOrigin(origin) ==> r.None?
    ensures LahzaDomainOrigin(origin) && IsCompletion(data) && monitored != "" ==> r.Some?
  {
    CompletionReference(LahzaDomainOrigin(origin), data, monitored)
  }

  /**
   * An origin that merely ends in 'lahza.io', such as https://evillahza.io,
   * passes the filter as written, so its completion message stops the
   * polling, closes the popup and triggers a verification; the corrected
   * filter ignores it.
   */
  lemma LookalikeOriginAccepted(name: string, data: Json, monitored: string)
    requires |name| > 0 && name[|name| - 1] != '.'
    requires IsCompletion(data) && monitored != ""
    ensures MessageReferenceAsWritten("https://" + name + "lahza.io", data, monitored).Some?
    ensures MessageReference("https://" + name + "lahza.io", data, monitored).None?
  {
    var origin := "https://" + name + "lahza.io";
    assert origin == ("https://" + name) + "lahza.io";
    ContainsSuffix("https://" + name, "lahza.io");
    assert origin != "https://lahza.io" by {
      assert |origin| == |"https://lahza.io"| + |name|;
    }
    assert !EndsWith(origin, ".lahza.io") by {
      assert origin[|origin| - 9] == name[|name| - 1];
    }
  }

  /** The corrected filter only narrows the written one: every message it hears, the page as written hears too. */
  lemma CorrectedFilterNarrows(origin: string)
    requires LahzaDomainOrigin(origin)
    ensures OriginAcceptedAsWritten(origin)
  {
    if origin == "https://lahza.io" {
      assert origin == "https://" + "lahza.io";
      ContainsSuffix("https://", "lahza.io");
    } else {
      var head := origin[..|origin| - 9];
      assert origin == head + ".lahza.io";
      assert head + ".lahza.io" == (head + ".") + "lahza.io";
      ContainsSuffix(head + ".", "lahza.io");
    }
  }

  function OptionToSeq<T>(o: Option<T>): (r: seq<T>)
    ensures |r| <= 1
    ensures o.Some? ==> r == [o.value]
    ensures o.None? ==> r == []
  {
    if o.Some? then [o.value] else []
  }

  /** The page-wide listener's origin filter: exactly Lahza's checkout host or its bare domain. */
  predicate GlobalOrigin(origin: string)
  {
    origin == "https://checkout.lahza.io" || origin == "https://lahza.io"
  }

  /**
   * handleIframeMessage, registered once when the page loads and never
   * removed: a payment_success or payment_complete message from an exact
   * Lahza origin yields its reference, else its ref; a status of 'success'
   * and the monitored reference play no part.
   */
  function GlobalMessageReference(origin: string, data: Json): (r: Option<Json>)
    ensures r.Some? ==> GlobalOrigin(origin) && JsTruthy(data) && JsTruthy(r.value)
    ensures r.Some? ==> LahzaCheckout.Field(data, "type") in {JStr("payment_success"), JStr("payment_complete")}
    ensures r.Some? ==> r.value in {LahzaCheckout.Field(data, "reference"), LahzaCheckout.Field(data, "ref")}
    ensures GlobalOrigin(origin) && LahzaCheckout.Field(data, "type") in {JStr("payment_success"), JStr("payment_complete")} ==>
      && (JsTruthy(LahzaCheckout.Field(data, "reference")) ==> r == Some(LahzaCheckout.Field(data, "reference")))
      && (!JsTruthy(LahzaCheckout.Field(data, "reference")) && JsTruthy(LahzaCheckout.Field(data, "ref")) ==> r == Some(LahzaCheckout.Field(data, "ref")))
    ensures !JsTruthy(LahzaCheckout.Field(data, "reference")) && !JsTruthy(LahzaCheckout.Field(data, "ref")) ==> r.None?
  {
    var reference := JsOr(LahzaCheckout.Field(data, "reference"), LahzaCheckout.Field(data, "ref"));
    if GlobalOrigin(origin) && JsTruthy(data)
       && LahzaCheckout.Field(data, "type") in {JStr("payment_success"), JStr("payment_complete")}
       && JsTruthy(reference)
    then Some(reference)
    else None
  }

  /**
   * Every message the page-wide listener acts on, the popup's listener would
   * act on too, with the same reference, whatever reference is monitored.
   */
  lemma GlobalHeardByPopupListener(origin: string, data: Json, monitored: string)
    requires GlobalMessageReference(origin, data).Some?
    ensures MessageReference(origin, data, monitored) == GlobalMessageReference(origin, data)
  {
    if origin == "https://checkout.lahza.io" {
      assert origin == "https://checkout" + ".lahza.io";
      assert StartsWith(origin, "https://");
    }
    assert LahzaDomainOrigin(origin);
  }

  /**
   * A completion that carries neither reference nor ref is acted on by the
   * popup's listener, which falls back on the monitored reference, and
   * ignored by the page-wide one.
   */
  lemma BareCompletionOnlyForPopup(monitored: string)
    requires monitored != ""
    ensures var data := JObj(map["type" := JStr("payment_success")]);
      && GlobalMessageReference("https://checkout.lahza.io", data).None?
      && MessageReference("https://checkout.lahza.io", data, monitored) == Some(JStr(monitored))
  {
    var data := JObj(map["type" := JStr("payment_success")]);
    assert LahzaCheckout.Field(data, "type") == JStr("payment_success");
    assert LahzaCheckout.Field(data, "reference") == JNull && LahzaCheckout.Field(data, "ref") == JNull;
    assert "https://checkout.lahza.io" == "https://checkout" + ".lahza.io";
    assert LahzaDomainOrigin("https://checkout.lahza.io");
  }

  /** The page's globals and the popup's state. */
  class PackagesSession {
    var currentPlanData: Option<PackagePlan>
    var currentPaymentReference: string
    /** The overlay's 'active' class. */
    var popupActive: bool
    var iframeSrc: string
    /** The status poll interval is running. */
    var polling: bool
    /** The message listener is registered. */
    var listening: bool

    constructor()
      ensures currentPlanData.None? && currentPaymentReference == ""
      ensures !popupActive && iframeSrc == "" && !polling && !listening
    {
      currentPlanData := None;
      currentPaymentReference := "";
      popupActive := false;
      iframeSrc := "";
      polling := false;
      listening := false;
    }

    /** A pricing button: the card's plan is stored, and the form popup opens when its elements exist. */
    method ChoosePlan(title: Option<string>, popupElementsPresent: bool)
      modifies this
      ensures currentPlanData == Some(PackageFor(Trim(title.GetOr(""))))
      ensures popupActive == (popupElementsPresent || old(popupActive))
      ensures currentPaymentReference == old(currentPaymentReference) && iframeSrc == old(iframeSrc)
      ensures polling == old(polling) && listening == old(listening)
    {
      currentPlanData := Some(PackageFor(Trim(title.GetOr(""))));
      if popupElementsPresent {
        popupActive := true;
      }
    }

    /**
     * closeLahzaPopup: the overlay loses its 'active' class and the iframe
     * is blanked; the observers on the class then stop the polling and drop
     * the message listener.
     */
    method ClosePopup()
      modifies this
      ensures !popupActive && iframeSrc == "" && !polling && !listening
      ensures currentPlanData == old(currentPlanData) && currentPaymentReference == old(currentPaymentReference)
    {
      popupActive := false;
      iframeSrc := "";
      polling := false;
      listening := false;
    }

    /** The form's submit: an opened iframe loads the checkout URL and starts the polling and the listener. */
    method Submit(f: PackageForm, recaptchaToken: string, reply: InitReply) returns (result: SubmitResult)
      modifies this
      ensures result == PackageSubmit(f, old(currentPlanData), recaptchaToken, reply)
      ensures result.IframeOpened? ==>
        currentPaymentReference == result.reference && iframeSrc == result.url && polling && listening
      ensures !result.IframeOpened? ==>
        currentPaymentReference == old(currentPaymentReference) && iframeSrc == old(iframeSrc)
        && polling == old(polling) && listening == old(listening)
      ensures currentPlanData == old(currentPlanData) && popupActive == old(popupActive)
    {
      result := PackageSubmit(f, currentPlanData, recaptchaToken, reply);
      if result.IframeOpened? {
        StartMonitoring(result.reference, result.url);
      }
    }

    /** The iframe loads the checkout URL; the reference is recorded and the polling and the listener start. */
    method StartMonitoring(reference: string, url: string)
      modifies this
      ensures currentPaymentReference == reference && iframeSrc == url && polling && listening
      ensures currentPlanData == old(currentPlanData) && popupActive == old(popupActive)
    {
      currentPaymentReference, iframeSrc := reference, url;
      polling, listening := true, true;
    }

    /**
     * The poll interval's run for the replies its ticks receive.  A paid or
     * failed status closes the popup; the timeout stops only the polling and
     * leaves the popup and its listener in place.
     */
    method Poll(replies: seq<PollReply>) returns (outcome: MonitorOutcome)
      requires polling
      modifies this
      ensures currentPaymentReference != "" ==>
        outcome == MonitorSpec(replies, currentPaymentReference, "/packages/payment/success/")
      ensures outcome.Paid? || outcome.PaymentFailed? ==> !popupActive && iframeSrc == "" && !listening
      ensures outcome.TimedOut? ==> popupActive == old(popupActive) && iframeSrc == old(iframeSrc) && listening == old(listening)
      ensures !outcome.NotMonitored? ==> !polling
      ensures outcome.NotMonitored? || outcome.PopupClosed? ==>
        popupActive == old(popupActive) && iframeSrc == old(iframeSrc) && listening == old(listening)
      ensures outcome.NotMonitored? ==> polling == old(polling)
      ensures currentPlanData == old(currentPlanData) && currentPaymentReference == old(currentPaymentReference)
    {
      outcome := MonitorPayment(currentPaymentReference, replies, "/packages/payment/success/");
      if outcome.Paid? || outcome.PaymentFailed? {
        ClosePopup();
      } else if outcome.TimedOut? {
        polling := false;
      } else if outcome.PopupClosed? {
        polling := false;
      }
    }

    /**
     * A window message while the listener is registered: an accepted
     * completion stops the polling, removes the listener, closes the popup
     * and yields the reference to verify.  Later messages are not heard.
     */
    method OnMessage(origin: string, data: Json) returns (verify: Option<Json>)
      modifies this
      ensures !old(listening) ==> verify.None? && unchanged(this)
      ensures old(listening) ==> verify == MessageReference(origin, data, old(currentPaymentReference))
      ensures verify.Some? ==> !listening && !polling && !popupActive && iframeSrc == ""
      ensures verify.None? ==> unchanged(this)
      ensures currentPlanData == old(currentPlanData) && currentPaymentReference == old(currentPaymentReference)
    {
      if !listening {
        return None;
      }
      verify := MessageReference(origin, data, currentPaymentReference);
      if verify.Some? {
        ClosePopup();
      }
    }

    /**
     * handleIframeMessage: heard whether or not a popup is being monitored.
     * An accepted completion closes the popup (whose observers then stop the
     * polling and drop the popup's listener) and yields the reference to
     * verify 300 ms later.
     */
    method OnGlobalMessage(origin: string, data: Json) returns (verify: Option<Json>)
      modifies this
      ensures verify == GlobalMessageReference(origin, data)
      ensures verify.Some? ==> !listening && !polling && !popupActive && iframeSrc == ""
      ensures verify.None? ==> unchanged(this)
      ensures currentPlanData == old(currentPlanData) && currentPaymentReference == old(currentPaymentReference)
    {
      verify := GlobalMessageReference(origin, data);
      if verify.Some? {
        ClosePopup();
      }
    }

    /**
     * One window message delivered to both listeners in the order they were
     * registered: the page-wide one first (at page load), then the popup's.
     * When the first closes the popup, the mutation observers run before the
     * second listener is reached and remove it, so it is skipped: every
     * message is verified at most once.
     */
    method Dispatch(origin: string, data: Json) returns (verified: seq<Json>)
      modifies this
      ensures |verified| <= 1
      ensures GlobalMessageReference(origin, data).Some? ==> verified == [GlobalMessageReference(origin, data).value]
      ensures GlobalMessageReference(origin, data).None? && old(listening) ==>
        verified == OptionToSeq(MessageReference(origin, data, old(currentPaymentReference)))
      ensures GlobalMessageReference(origin, data).None? && !old(listening) ==> verified == [] && unchanged(this)
      ensures currentPlanData == old(currentPlanData) && currentPaymentReference == old(currentPaymentReference)
    {
      var first := OnGlobalMessage(origin, data);
      var second := OnMessage(origin, data);
      verified := OptionToSeq(first) + OptionToSeq(second);
    }
  }
}
