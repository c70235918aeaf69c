/**
 * The Black Friday landing page served by the backend: the currency symbol,
 * the 24-hour sale countdown with its end time chosen from the API, the
 * storage cache or the clock, the throttled refresh after expiry, the
 * pre-sale countdown to 26 November, and the payment and contact form rules.
 * The clock, the API replies and the DOM's presence are inputs; localStorage
 * is a map from key to the integer it holds.
 */
module BlackFridayPage {
  import opened Wrappers
  import opened Text
  import opened Json
  import opened Clock
  import opened FormRules

  /** getCurrencySymbol: the four known codes, '$' for anything else. */
  function CurrencySymbol(currency: string): (r: string)
    ensures currency == "ILS" ==> r == "₪"
    ensures currency == "EUR" ==> r == "€"
    ensures currency == "GBP" ==> r == "£"
    ensures currency !in {"ILS", "EUR", "GBP"} ==> r == "$"
  {
    if currency == "ILS" then "₪"
    else if currency == "USD" then "$"
    else if currency == "EUR" then "€"
    else if currency == "GBP" then "£"
    else "$"
  }

  const EndTimeKey: string := "black_friday_end_time"
  const FetchedKey: string := "black_friday_end_date_fetched"
  const LastRefreshKey: string := "black_friday_last_refresh"

  /** 24 hours in milliseconds. */
  const Day: int := 24 * 60 * 60 * 1000

  /** A JavaScript number is truthy when it is present and non-zero. */
  predicate NumTruthy(n: Option<int>) { n.Some? && n.value != 0 }

  /** The stored integer under key, if any. */
  function Stored(storage: map<string, int>, key: string): Option<int>
  {
    if key in storage then Some(storage[key]) else None
  }

  /**
   * The reply of /api/black-friday/end-date/: Unavailable when fetch or
   * response.json() throws.
   */
  datatype EndDateReply =
    | EndDateUnavailable
    | EndDate(ok: bool, success: bool, endTimestamp: Option<int>, startTimestamp: Option<int>)

  /** The reply reaches the API branch: OK, success and a truthy end timestamp. */
  predicate ApiAccepted(reply: EndDateReply)
  {
    reply.EndDate? && reply.ok && reply.success && NumTruthy(reply.endTimestamp)
  }

  /**
   * The end time initializeCountdown settles on: the API's end time when it is
   * ahead; else the start plus 24 h, or now plus 24 h when that has passed too;
   * when the API fails, a cached end time that is ahead, else now plus 24 h.
   */
  function ChooseEndTime(reply: EndDateReply, cached: Option<int>, now: nat): (r: int)
    ensures r > now
    ensures ApiAccepted(reply) && reply.endTimestamp.value > now ==> r == reply.endTimestamp.value
    ensures !ApiAccepted(reply) && NumTruthy(cached) && cached.value > now ==> r == cached.value
  {
    if ApiAccepted(reply) then
      var end := reply.endTimestamp.value;
      if end > now then end
      else
        var start := if NumTruthy(reply.startTimestamp) then reply.startTimestamp.value else now;
        if start + Day <= now then now + Day else start + Day
    else if NumTruthy(cached) && cached.value > now then cached.value
    else now + Day
  }

  /** localStorage after initializeCountdown: written only on the API branch. */
  function StorageAfterInit(storage: map<string, int>, reply: EndDateReply, now: nat): map<string, int>
  {
    if !ApiAccepted(reply) then storage
    else
      var end := ChooseEndTime(reply, Stored(storage, EndTimeKey), now);
      if reply.endTimestamp.value > now then storage[EndTimeKey := end][FetchedKey := now]
      else storage[EndTimeKey := end]
  }

  /** The fallback end time of the catch branch is never cached; the API's always is. */
  lemma OnlyApiEndTimesCached(storage: map<string, int>, reply: EndDateReply, now: nat)
    ensures !ApiAccepted(reply) ==> StorageAfterInit(storage, reply, now) == storage
    ensures ApiAccepted(reply) ==>
      var s := StorageAfterInit(storage, reply, now);
      EndTimeKey in s && s[EndTimeKey] == ChooseEndTime(reply, Stored(storage, EndTimeKey), now)
  {
    assert EndTimeKey != FetchedKey;
  }

  /** The expiry branch fetches again only when no refresh is recorded or the last is over a minute old. */
  predicate RefreshDue(lastRefresh: Option<int>, now: int)
  {
    lastRefresh.None? || now - lastRefresh.value > 60000
  }

  /** The instants, among successive expired ticks, at which a refresh is started. */
  function RefreshTimes(lastRefresh: Option<int>, ticks: seq<int>): seq<int>
    decreases |ticks|
  {
    if |ticks| == 0 then []
    else if RefreshDue(lastRefresh, ticks[0]) then [ticks[0]] + RefreshTimes(Some(ticks[0]), ticks[1..])
    else RefreshTimes(lastRefresh, ticks[1..])
  }

  /** Refreshes are more than a minute apart, and more than a minute after the recorded one. */
  lemma {:induction false} RefreshesSpaced(lastRefresh: Option<int>, ticks: seq<int>)
    ensures var r := RefreshTimes(lastRefresh, ticks);
      (forall i :: 0 <= i < |r| - 1 ==> r[i + 1] - r[i] > 60000)
      && (lastRefresh.Some? && |r| > 0 ==> r[0] - lastRefresh.value > 60000)
    decreases |ticks|
  {
    if |ticks| > 0 {
      if RefreshDue(lastRefresh, ticks[0]) {
        RefreshesSpaced(Some(ticks[0]), ticks[1..]);
      } else {
        RefreshesSpaced(lastRefresh, ticks[1..]);
      }
    }
  }

  /** The reply to the refresh fetch; the status code is not checked there. */
  datatype RefreshReply = RefreshFailed | Refreshed(success: bool, endTimestamp: Option<int>)

  /** The three countdown fields, hours unbounded. */
  function CountdownTexts(timeLeft: nat): (r: (string, string, string))
    ensures var p := HoursBreakdown(timeLeft);
      r == (Pad2(p.hours), Pad2(p.minutes), Pad2(p.seconds)) && |r.1| == 2 && |r.2| == 2
  {
    var p := HoursBreakdown(timeLeft);
    (Pad2(p.hours), Pad2(p.minutes), Pad2(p.seconds))
  }

  /** The page's countdown state: the module globals, the three fields and localStorage. */
  class SaleCountdown {
    var timerEndTime: Option<int>
    var intervalRunning: bool
    var hoursText: string
    var minutesText: string
    var secondsText: string
    var storage: map<string, int>

    constructor(initialStorage: map<string, int>)
      ensures timerEndTime.None? && !intervalRunning && storage == initialStorage
    {
      timerEndTime := None;
      intervalRunning := false;
      hoursText, minutesText, secondsText := "", "", "";
      storage := initialStorage;
    }

    /**
     * initializeCountdown: clears the interval, then (with the fields present)
     * chooses the end time, writes the cache on the API branch, renders once
     * and starts the interval.
     */
    method InitializeCountdown(elementsPresent: bool, reply: EndDateReply, now: nat)
      modifies this
      ensures !elementsPresent ==>
        !intervalRunning && timerEndTime == old(timerEndTime) && storage == old(storage)
        && hoursText == old(hoursText) && minutesText == old(minutesText) && secondsText == old(secondsText)
      ensures elementsPresent ==>
        var end := ChooseEndTime(reply, Stored(old(storage), EndTimeKey), now);
        timerEndTime == Some(end) && end > now && intervalRunning
        && storage == StorageAfterInit(old(storage), reply, now)
        && (hoursText, minutesText, secondsText) == CountdownTexts(end - now)
    {
      intervalRunning := false;
      if !elementsPresent {
        return;
      }
      hoursText, minutesText, secondsText := "--", "--", "--";
      var cached := Stored(storage, EndTimeKey);
      var end := ChooseEndTime(reply, cached, now);
      storage := StorageAfterInit(storage, reply, now);
      timerEndTime := Some(end);
      var refresh := UpdateCountdown(now);
      intervalRunning := true;
    }

    /**
     * updateCountdown, one tick: while time is left, the fields show the
     * remaining hours, minutes and seconds; once it has run out they read '00'
     * and a refresh fetch starts when one is due, recording this instant.
     */
    method UpdateCountdown(now: int) returns (refreshStarted: bool)
      modifies this
      ensures timerEndTime == old(timerEndTime) && intervalRunning == old(intervalRunning)
      ensures old(timerEndTime).None? ==>
        !refreshStarted && storage == old(storage)
        && hoursText == old(hoursText) && minutesText == old(minutesText) && secondsText == old(secondsText)
      ensures old(timerEndTime).Some? && old(timerEndTime).value - now <= 0 ==>
        hoursText == "00" && minutesText == "00" && secondsText == "00"
        && (refreshStarted <==> RefreshDue(Stored(old(storage), LastRefreshKey), now))
        && storage == (if refreshStarted then old(storage)[LastRefreshKey := now] else old(storage))
      ensures old(timerEndTime).Some? && old(timerEndTime).value - now > 0 ==>
        !refreshStarted && storage == old(storage)
        && (hoursText, minutesText, secondsText) == CountdownTexts(old(timerEndTime).value - now)
    {
      refreshStarted := false;
      if timerEndTime.None? {
        return;
      }
      var timeLeft := timerEndTime.value - now;
      if timeLeft <= 0 {
        hoursText, minutesText, secondsText := "00", "00", "00";
        if RefreshDue(Stored(storage, LastRefreshKey), now) {
          storage := storage[LastRefreshKey := now];
          refreshStarted := true;
        }
        return;
      }
      var texts := CountdownTexts(timeLeft);
      if secondsText != texts.2 || secondsText == "--" {
        secondsText := texts.2;
      }
      if minutesText != texts.1 || minutesText == "--" {
        minutesText := texts.1;
      }
      if hoursText != texts.0 || hoursText == "--" {
        hoursText := texts.0;
      }
    }

    /** The refresh fetch resolving: a later end time from the API replaces the expired one and is cached. */
    method ApplyRefresh(reply: RefreshReply, requestedAt: int)
      modifies this
      ensures reply.Refreshed? && reply.success && NumTruthy(reply.endTimestamp) && reply.endTimestamp.value > requestedAt ==>
        timerEndTime == reply.endTimestamp && storage == old(storage)[EndTimeKey := reply.endTimestamp.value]
      ensures !(reply.Refreshed? && reply.success && NumTruthy(reply.endTimestamp) && reply.endTimestamp.value > requestedAt) ==>
        timerEndTime == old(timerEndTime) && storage == old(storage)
      ensures intervalRunning == old(intervalRunning) && hoursText == old(hoursText)
        && minutesText == old(minutesText) && secondsText == old(secondsText)
    {
      if reply.Refreshed? && reply.success && NumTruthy(reply.endTimestamp) && reply.endTimestamp.value > requestedAt {
        timerEndTime := reply.endTimestamp;
        storage := storage[EndTimeKey := reply.endTimestamp.value];
      }
    }
  }

  /** The reply of /api/black-friday/pre-bf-date/. */
  datatype PreSaleReply =
    | PreSaleUnavailable
    | PreSaleDate(ok: bool, success: bool, timestamp: Option<int>)

  function ApiPreSaleTarget(reply: PreSaleReply): Option<int>
  {
    if reply.PreSaleDate? && reply.ok && reply.success && NumTruthy(reply.timestamp) then reply.timestamp else None
  }

  /** 26 November of this year at 00:00, or of next year when that is not after now. */
  function DefaultPreSaleTarget(now: int): (t: int)
    ensures t > now
    ensures var y := CurrentYear(now);
      (November26(y) > now ==> t == November26(y)) && (November26(y) <= now ==> t == November26(y + 1))
  {
    var y := CurrentYear(now);
    NextNovember26Ahead(now);
    if November26(y) <= now then November26(y + 1) else November26(y)
  }

  /** The pre-sale target: the API's date when it gave one, else the default. */
  function PreSaleTarget(reply: PreSaleReply, now: int): (t: int)
    ensures ApiPreSaleTarget(reply).None? ==> t == DefaultPreSaleTarget(now) && t > now
    ensures ApiPreSaleTarget(reply).Some? ==> t == ApiPreSaleTarget(reply).value
  {
    match ApiPreSaleTarget(reply)
    case Some(t) => t
    case None => DefaultPreSaleTarget(now)
  }

  /** What the pre-sale banner shows at an instant. */
  datatype PreSaleDisplay = PreSaleRunning(days: string, hours: string, minutes: string, seconds: string) | PreSaleEnded

  /** updatePreBFTimer's rendering: days, hours, minutes, seconds padded to two digits. */
  function PreSaleDisplayAt(target: int, now: int): (d: PreSaleDisplay)
    ensures d.PreSaleEnded? <==> target - now <= 0
    ensures d.PreSaleRunning? ==>
      var p := Breakdown(target - now);
      d == PreSaleRunning(Pad2(p.days), Pad2(p.hours), Pad2(p.minutes), Pad2(p.seconds))
      && |d.hours| == 2 && |d.minutes| == 2 && |d.seconds| == 2
  {
    if target - now <= 0 then PreSaleEnded
    else
      var p := Breakdown(target - now);
      PreSaleRunning(Pad2(p.days), Pad2(p.hours), Pad2(p.minutes), Pad2(p.seconds))
  }

  /** The banner counts down to a later target for as long as one is pending. */
  lemma DefaultTargetShowsRunning(now: int)
    ensures PreSaleDisplayAt(DefaultPreSaleTarget(now), now).PreSaleRunning?
  {
  }

  /** The pre-sale banner, its four fields and its interval. */
  class PreSaleTimer {
    var bannerVisible: bool
    var intervalRunning: bool
    var fields: PreSaleDisplay

    constructor()
      ensures bannerVisible && intervalRunning && fields == PreSaleRunning("", "", "", "")
    {
      bannerVisible := true;
      intervalRunning := true;
      fields := PreSaleRunning("", "", "", "");
    }

    /**
     * updatePreBFTimer, one tick: when the target is reached the fields read
     * '00', the banner hides, the cached sale end time is dropped, the
     * interval stops and the sale countdown is started (startSale).
     */
    method Tick(countdown: SaleCountdown, fieldsPresent: bool, target: int, now: int) returns (startSale: bool)
      modifies this, countdown
      ensures !fieldsPresent ==>
        !startSale && fields == old(fields) && bannerVisible == old(bannerVisible)
        && intervalRunning == old(intervalRunning) && countdown.storage == old(countdown.storage)
      ensures fieldsPresent && target - now <= 0 ==>
        startSale && fields == PreSaleRunning("00", "00", "00", "00") && !bannerVisible && !intervalRunning
        && countdown.storage == old(countdown.storage) - {EndTimeKey, FetchedKey}
      ensures fieldsPresent && target - now > 0 ==>
        !startSale && fields == PreSaleDisplayAt(target, now) && bannerVisible == old(bannerVisible)
        && intervalRunning == old(intervalRunning) && countdown.storage == old(countdown.storage)
      ensures countdown.timerEndTime == old(countdown.timerEndTime)
    {
      startSale := false;
      if !fieldsPresent {
        return;
      }
      var shown := PreSaleDisplayAt(target, now);
      if shown.PreSaleEnded? {
        fields := PreSaleRunning("00", "00", "00", "00");
        bannerVisible := false;
        countdown.storage := countdown.storage - {EndTimeKey, FetchedKey};
        intervalRunning := false;
        startSale := true;
        return;
      }
      fields := shown;
    }
  }

  /** The inputs of the payment form; None when one of them or the pay button is missing. */
  datatype PaymentInputs = PaymentInputs(firstName: string, lastName: string, mobile: string, email: string)

  /**
   * validatePaymentForm: undefined without the inputs; else the conjunction of
   * the trimmed-field rules, the policy checkbox and the reCAPTCHA API.
   */
  function ValidatePaymentForm(inputs: Option<PaymentInputs>, policiesChecked: Option<bool>, recaptchaLoaded: bool): (r: Option<bool>)
    ensures r.None? <==> inputs.None?
    ensures r == Some(true) <==>
      inputs.Some? && NameOk(Trim(inputs.value.firstName)) && NameOk(Trim(inputs.value.lastName))
      && |Trim(inputs.value.mobile)| >= 8 && EmailMatches(Trim(inputs.value.email))
      && policiesChecked == Some(true) && recaptchaLoaded
  {
    match inputs
    case None => None
    case Some(f) =>
      var firstOk := |Trim(f.firstName)| >= 2;
      var lastOk := |Trim(f.lastName)| >= 2;
      var mobileOk := |Trim(f.mobile)| >= 8;
      var emailOk := EmailMatches(Trim(f.email));
      var accepted := if policiesChecked.Some? then policiesChecked.value else false;
      Some(firstOk && lastOk && mobileOk && emailOk && accepted && recaptchaLoaded)
  }

  /** Surrounding whitespace never changes the verdict. */
  lemma ValidationIgnoresSurroundingSpace(f: PaymentInputs, policiesChecked: Option<bool>, recaptchaLoaded: bool)
    ensures ValidatePaymentForm(Some(PaymentInputs(Trim(f.firstName), Trim(f.lastName), Trim(f.mobile), Trim(f.email))), policiesChecked, recaptchaLoaded)
      == ValidatePaymentForm(Some(f), policiesChecked, recaptchaLoaded)
  {
    TrimIdempotent(f.firstName);
    TrimIdempotent(f.lastName);
    TrimIdempotent(f.mobile);
    TrimIdempotent(f.email);
  }

  /** The contact form's elements: None for an element that is missing. */
  datatype ContactInputs = ContactInputs(
    name: Option<string>, phone: Option<string>, city: Option<string>, email: Option<string>,
    message: Option<string>, contactType: Option<string>, landingCode: Option<string>)

  datatype ContactError = NameMissing | PhoneInvalid | ContactTypeMissing

  datatype ContactOutcome = ContactRejected(error: ContactError) | ContactSent(body: map<string, Json>)

  const DefaultContactMessage: string := "Contact form submission from Black Friday page"

  function TrimmedOr(input: Option<string>, missing: string): string
  {
    if input.Some? then Trim(input.value) else missing
  }

  /** The body posted to the contact endpoint. */
  function ContactBody(name: string, email: string, phone: string, city: Json, message: string, contactType: string): (body: map<string, Json>)
    ensures body.Keys == {"name", "email", "phone", "whatsapp", "city", "message", "contact_type", "form_type"}
  {
    map["name" := JStr(name), "email" := JStr(email), "phone" := JStr(phone), "whatsapp" := JStr(phone),
        "city" := city, "message" := JStr(message), "contact_type" := JStr(contactType),
        "form_type" := JStr("main_contact")]
  }

  /**
   * handleContactSubmit: the first failing rule among name (two characters),
   * phone (eight characters) and contact type (chosen) rejects the form;
   * otherwise the eight-field body is posted.
   */
  function ContactSubmission(inputs: ContactInputs): (r: ContactOutcome)
    ensures r == ContactRejected(NameMissing) <==> !NameOk(TrimmedOr(inputs.name, ""))
    ensures r == ContactRejected(PhoneInvalid) <==> NameOk(TrimmedOr(inputs.name, "")) && |TrimmedOr(inputs.phone, "")| < 8
    ensures r == ContactRejected(ContactTypeMissing) <==>
      NameOk(TrimmedOr(inputs.name, "")) && |TrimmedOr(inputs.phone, "")| >= 8
      && !(inputs.contactType.Some? && inputs.contactType.value != "")
    ensures r.ContactSent? <==>
      NameOk(TrimmedOr(inputs.name, "")) && |TrimmedOr(inputs.phone, "")| >= 8
      && inputs.contactType.Some? && inputs.contactType.value != ""
  {
    var name := TrimmedOr(inputs.name, "");
    var phone := TrimmedOr(inputs.phone, "");
    var contactType := if inputs.contactType.Some? then inputs.contactType.value else "";
    if name == "" || |name| < 2 then ContactRejected(NameMissing)
    else if phone == "" || |phone| < 8 then ContactRejected(PhoneInvalid)
    else if contactType == "" then ContactRejected(ContactTypeMissing)
    else
      var city := if inputs.city.Some? then JStr(Trim(inputs.city.value)) else JNull;
      var body := ContactBody(name, TrimmedOr(inputs.email, ""), phone, city,
                              TrimmedOr(inputs.message, DefaultContactMessage), contactType);
      ContactSent(body)
  }

  /**
   * What a sent body carries: the trimmed name and phone (twice), the trimmed
   * e-mail or '' without its input, the trimmed city or null without its input,
   * the trimmed message or the fixed default without its input, the chosen
   * contact type, and the form type 'main_contact'.
   */
  lemma {:induction false} ContactSentFields(inputs: ContactInputs)
    requires ContactSubmission(inputs).ContactSent?
    ensures var b := ContactSubmission(inputs).body;
      && b.Keys == {"name", "email", "phone", "whatsapp", "city", "message", "contact_type", "form_type"}
      && b["name"] == JStr(TrimmedOr(inputs.name, ""))
      && b["email"] == JStr(TrimmedOr(inputs.email, ""))
      && b["whatsapp"] == b["phone"] == JStr(TrimmedOr(inputs.phone, ""))
      && b["city"] == (if inputs.city.Some? then JStr(Trim(inputs.city.value)) else JNull)
      && b["message"] == JStr(TrimmedOr(inputs.message, DefaultContactMessage))
      && b["contact_type"] == JStr(inputs.contactType.value)
      && b["form_type"] == JStr("main_contact")
  {
    var name, phone := TrimmedOr(inputs.name, ""), TrimmedOr(inputs.phone, "");
    var city := if inputs.city.Some? then JStr(Trim(inputs.city.value)) else JNull;
    var email, message := TrimmedOr(inputs.email, ""), TrimmedOr(inputs.message, DefaultContactMessage);
    var contactType := inputs.contactType.value;
    assert ContactSubmission(inputs).body == ContactBody(name, email, phone, city, message, contactType);
    ContactBodyPhone(name, email, phone, city, message, contactType);
    ContactBodyOthers(name, email, phone, city, message, contactType);
  }

  lemma ContactBodyOthers(name: string, email: string, phone: string, city: Json, message: string, contactType: string)
    ensures var b := ContactBody(name, email, phone, city, message, contactType);
      && b["name"] == JStr(name) && b["email"] == JStr(email) && b["city"] == city
      && b["message"] == JStr(message) && b["contact_type"] == JStr(contactType)
      && b["form_type"] == JStr("main_contact")
  {
    assert "name" != "email" && "name" != "phone" && "name" != "whatsapp" && "name" != "city" && "name" != "message" && "name" != "contact_type" && "name" != "form_type";
    assert "email" != "phone" && "email" != "whatsapp" && "email" != "city" && "email" != "message" && "email" != "contact_type" && "email" != "form_type";
    assert "city" != "message" && "city" != "contact_type" && "city" != "form_type";
    assert "message" != "contact_type" && "message" != "form_type";
    assert "contact_type" != "form_type";
  }

  /** The landing code read from the URL never reaches the request. */
  lemma LandingCodeIgnored(inputs: ContactInputs, code: Option<string>)
    ensures ContactSubmission(inputs.(landingCode := code)) == ContactSubmission(inputs)
    ensures ContactSubmission(inputs).ContactSent? ==> "landing_code" !in ContactSubmission(inputs).body
  {
  }

  /** A sent body carries the phone twice, as phone and whatsapp. */
  lemma ContactWhatsappIsPhone(inputs: ContactInputs)
    requires ContactSubmission(inputs).ContactSent?
    ensures var b := ContactSubmission(inputs).body;
      b["whatsapp"] == b["phone"] == JStr(TrimmedOr(inputs.phone, ""))
  {
    var name, phone := TrimmedOr(inputs.name, ""), TrimmedOr(inputs.phone, "");
    var city := if inputs.city.Some? then JStr(Trim(inputs.city.value)) else JNull;
    var email, message := TrimmedOr(inputs.email, ""), TrimmedOr(inputs.message, DefaultContactMessage);
    var contactType := inputs.contactType.value;
    assert ContactSubmission(inputs).body == ContactBody(name, email, phone, city, message, contactType);
    ContactBodyPhone(name, email, phone, city, message, contactType);
  }

  lemma ContactBodyPhone(name: string, email: string, phone: string, city: Json, message: string, contactType: string)
    ensures var b := ContactBody(name, email, phone, city, message, contactType);
      b["whatsapp"] == b["phone"] == JStr(phone)
  {
    assert "whatsapp" != "city" && "whatsapp" != "message" && "whatsapp" != "contact_type" && "whatsapp" != "form_type";
    assert "phone" != "whatsapp" && "phone" != "city" && "phone" != "message" && "phone" != "contact_type" && "phone" != "form_type";
  }
}
