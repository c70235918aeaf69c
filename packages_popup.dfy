/**
 * The packages page served from backend/staticfiles: a pricing button opens
 * the Lahza popup at once with a loading page, posts an anonymous request
 * for the card's plan to /checkout/payment/initialize/, and either loads the
 * checkout in the iframe and watches the iframe's address for a callback
 * reference, or closes the popup.  The same popup also hears the gateway's
 * completion message.
 */
module PackagesPopup {
  import opened Wrappers
  import opened Json
  import opened PaymentPolling
  import LahzaCheckout
  import PaymentPage
  import PackagesPage

  /** The anonymous request: placeholder e-mail, empty names and mobile, no address. */
  function PopupRequest(plan: PackagesPage.PackagePlan, recaptchaToken: string): (body: InitializeRequest)
    ensures body.email == "customer@example.com" && body.firstName == "" && body.lastName == "" && body.mobile == ""
    ensures body.address.None?
    ensures body.amount == plan.amount && body.currency == plan.currency && body.offerName == plan.name
    ensures body.offerType == "packages" && body.source == "packages" && body.recaptchaToken == recaptchaToken
  {
    InitializeRequest("customer@example.com", plan.amount, plan.currency, "", "", "", None,
                      "packages", plan.name, "packages", recaptchaToken)
  }

  /** Whatever card is clicked, the popup charges an anonymous customer one of the three dollar plans. */
  lemma PopupRequestAnonymous(title: string, recaptchaToken: string)
    ensures var body := PopupRequest(PackagesPage.PackageFor(title), recaptchaToken);
      && body.amount in {100, 150, 180} && body.currency == "USD"
      && body.email == "customer@example.com" && body.firstName == "" && body.lastName == ""
  {
    PackagesPage.PackageAmounts(title);
  }

  /** `data.success && data.authorization_url`: this page does not ask for a reference. */
  predicate PopupInitSucceeded(reply: InitReply)
  {
    reply.InitData? && reply.success && reply.authorizationUrl != ""
  }

  /** What one tick of the watch reads: a cross-origin block, or the iframe's address. */
  datatype Reading = Blocked | Href(url: string)

  /** An address's reference (`reference`, else `ref`), None when the address does not parse or carries neither. */
  function UrlReference(parse: string -> Option<map<string, string>>, url: string): (r: Option<string>)
    ensures r.Some? ==> r.value != ""
  {
    match parse(url)
    case None => None
    case Some(query) => LahzaCheckout.CallbackReference(query)
  }

  /**
   * The reference the watch ends with, starting from the last address it
   * saw: each new address is remembered, and the first new one that carries
   * a reference ends the watch.  Blocked reads and unparsable addresses are
   * ignored.
   */
  function WatchSpec(parse: string -> Option<map<string, string>>, lastUrl: string, readings: seq<Reading>): (r: Option<string>)
    ensures r.Some? ==> r.value != ""
    decreases |readings|
  {
    if |readings| == 0 then None
    else
      match readings[0]
      case Blocked => WatchSpec(parse, lastUrl, readings[1..])
      case Href(url) =>
        if url == lastUrl then WatchSpec(parse, lastUrl, readings[1..])
        else if UrlReference(parse, url).Some? then UrlReference(parse, url)
        else WatchSpec(parse, url, readings[1..])
  }

  /** A reading's reference, None for a blocked read. */
  function ReadingReference(parse: string -> Option<map<string, string>>, reading: Reading): Option<string>
  {
    if reading.Href? then UrlReference(parse, reading.url) else None
  }

  /** The first reading that carries a reference, repeats or not. */
  function FirstReference(parse: string -> Option<map<string, string>>, readings: seq<Reading>): (r: Option<string>)
    ensures r.None? <==> forall j :: 0 <= j < |readings| ==> ReadingReference(parse, readings[j]).None?
    ensures r.Some? ==> exists j :: 0 <= j < |readings| && ReadingReference(parse, readings[j]) == r
                                    && forall k :: 0 <= k < j ==> ReadingReference(parse, readings[k]).None?
  {
    if |readings| == 0 then None
    else if ReadingReference(parse, readings[0]).Some? then ReadingReference(parse, readings[0])
    else
      var rest := FirstReference(parse, readings[1..]);
      assert forall j :: 1 <= j < |readings| ==> readings[j] == readings[1..][j - 1];
      if rest.Some? then
        var j :| 0 <= j < |readings[1..]| && ReadingReference(parse, readings[1..][j]) == rest
                 && forall k :: 0 <= k < j ==> ReadingReference(parse, readings[1..][k]).None?;
        assert ReadingReference(parse, readings[j + 1]) == rest;
        rest
      else rest
  }

  /**
   * Skipping repeated addresses never loses a reference: when the address
   * the watch starts from carries none, it ends with the first reference
   * any reading carries.
   */
  lemma {:induction false} WatchFindsFirstReference(parse: string -> Option<map<string, string>>, lastUrl: string, readings: seq<Reading>)
    requires UrlReference(parse, lastUrl).None?
    ensures WatchSpec(parse, lastUrl, readings) == FirstReference(parse, readings)
    decreases |readings|
  {
    if |readings| > 0 {
      match readings[0]
      case Blocked =>
        WatchFindsFirstReference(parse, lastUrl, readings[1..]);
      case Href(url) =>
        if url == lastUrl {
          WatchFindsFirstReference(parse, lastUrl, readings[1..]);
        } else if UrlReference(parse, url).None? {
          WatchFindsFirstReference(parse, url, readings[1..]);
        }
    }
  }

  /** But a checkout address that already carries a reference is never acted on while the iframe stays on it. */
  lemma {:induction false} StartingReferenceIgnored(parse: string -> Option<map<string, string>>, checkoutUrl: string, n: nat)
    ensures WatchSpec(parse, checkoutUrl, seq(n, _ => Href(checkoutUrl))) == None
  {
    var readings := seq(n, _ => Href(checkoutUrl));
    if n > 0 {
      assert readings[1..] == seq(n - 1, _ => Href(checkoutUrl));
      StartingReferenceIgnored(parse, checkoutUrl, n - 1);
    }
  }

  /** The popup's overlay, its iframe, the loading page's blob URL and the address watch. */
  class PopupSession {
    /** The overlay's 'active' class. */
    var popupActive: bool
    var iframeSrc: string
    /** The loading page's blob URL has not been revoked. */
    var blobLive: bool
    /** The half-second address check is running. */
    var watching: bool
    var lastUrl: string

    constructor()
      ensures !popupActive && iframeSrc == "" && !blobLive && !watching && lastUrl == ""
    {
      popupActive, iframeSrc, blobLive, watching, lastUrl := false, "", false, false, "";
    }

    /** closeLahzaPopup, from the close button, a click on the overlay or Escape; the observer then stops the watch. */
    method ClosePopup()
      modifies this
      ensures !popupActive && iframeSrc == "" && !watching
      ensures blobLive == old(blobLive) && lastUrl == old(lastUrl)
    {
      popupActive, iframeSrc, watching := false, "", false;
    }

    /**
     * openLahzaPopupWithLoading: without the overlay or the iframe nothing
     * happens and nothing is sent.  Otherwise the popup opens on the loading
     * page and the anonymous request is posted; a successful reply loads the
     * checkout and starts the watch from its address, anything else closes
     * the popup.  Either way the blob URL is revoked.
     */
    method OpenWithLoading(plan: PackagesPage.PackagePlan, elementsPresent: bool, recaptchaToken: string,
                           blobUrl: string, reply: InitReply) returns (sent: Option<InitializeRequest>)
      modifies this
      ensures !elementsPresent ==> sent.None? && unchanged(this)
      ensures elementsPresent ==> sent == Some(PopupRequest(plan, recaptchaToken)) && !blobLive
      ensures elementsPresent && PopupInitSucceeded(reply) ==>
        popupActive && iframeSrc == reply.authorizationUrl && watching && lastUrl == reply.authorizationUrl
      ensures elementsPresent && !PopupInitSucceeded(reply) ==>
        !popupActive && iframeSrc == "" && !watching && lastUrl == old(lastUrl)
    {
      if !elementsPresent {
        return None;
      }
      iframeSrc, popupActive := blobUrl, true;
      blobLive := true;
      sent := Some(PopupRequest(plan, recaptchaToken));
      if PopupInitSucceeded(reply) {
        iframeSrc := reply.authorizationUrl;
        blobLive := false;
        lastUrl, watching := iframeSrc, true;
      } else {
        ClosePopup();
        blobLive := false;
      }
    }

    /**
     * The watch's ticks while the popup stays open: the first new address
     * that carries a reference stops the watch, closes the popup and is
     * verified.
     */
    method Watch(parse: string -> Option<map<string, string>>, readings: seq<Reading>) returns (verify: Option<string>)
      requires watching
      modifies this
      ensures verify == WatchSpec(parse, old(lastUrl), readings)
      ensures verify.Some? ==> !popupActive && iframeSrc == "" && !watching
      ensures verify.None? ==> popupActive == old(popupActive) && iframeSrc == old(iframeSrc) && watching
      ensures blobLive == old(blobLive)
    {
      var i := 0;
      while i < |readings|
        invariant 0 <= i <= |readings| && watching
        invariant popupActive == old(popupActive) && iframeSrc == old(iframeSrc) && blobLive == old(blobLive)
        invariant WatchSpec(parse, lastUrl, readings[i..]) == WatchSpec(parse, old(lastUrl), readings)
      {
        assert readings[i..][1..] == readings[i + 1..];
        if readings[i].Href? && readings[i].url != lastUrl {
          lastUrl := readings[i].url;
          var reference := UrlReference(parse, lastUrl);
          if reference.Some? {
            ClosePopup();
            return reference;
          }
        }
        i := i + 1;
      }
      return None;
    }

    /** handleIframeMessage: a completion message from Lahza's origins closes the popup and is verified. */
    method OnMessage(origin: string, data: Json) returns (verify: Option<Json>)
      modifies this
      ensures verify == PaymentPage.MessageReference(origin, data)
      ensures verify.Some? ==> !popupActive && iframeSrc == "" && !watching
      ensures verify.None? ==> unchanged(this)
    {
      verify := PaymentPage.MessageReference(origin, data);
      if verify.Some? {
        ClosePopup();
      }
    }
  }
}
