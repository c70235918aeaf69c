/**
 * The static Black Friday page (the older script): a cache-first sale
 * countdown that falls back to the next local midnight, the same throttled
 * refresh after expiry, a pre-sale countdown to 26 November that moves to the
 * next year only when the date is strictly behind, and the two-field payment
 * and contact form rules.  The clock, the API replies and the DOM's presence
 * are inputs; localStorage is a map from key to the integer it holds.
 */
module BlackFridayLegacy {
  import opened Wrappers
  import opened Text
  import opened Json
  import opened Clock
  import opened FormRules
  import opened BlackFridayPage

  /** The cached end time is used without any fetch: it is truthy and still ahead. */
  predicate CacheFresh(cached: Option<int>, now: int)
  {
    NumTruthy(cached) && cached.value > now
  }

  /** Midnight at the start of the next local day. */
  function NextMidnight(now: int): (r: int)
    ensures now < r <= now + DayMs
    ensures r % DayMs == 0
  {
    assert now == DayMs * (now / DayMs) + now % DayMs;
    (DayNumber(now) + 1) * DayMs
  }

  /**
   * The end time initializeCountdown settles on: a fresh cached value; else
   * the API's end time, whether or not it is ahead; else the cached value
   * even when it has expired; else the next midnight.
   */
  function LegacyEndTime(reply: EndDateReply, cached: Option<int>, now: nat): (r: int)
    ensures CacheFresh(cached, now) ==> r == cached.value
    ensures !CacheFresh(cached, now) && ApiAccepted(reply) ==> r == reply.endTimestamp.value
    ensures !CacheFresh(cached, now) && !ApiAccepted(reply) && NumTruthy(cached) ==> r == cached.value
    ensures !CacheFresh(cached, now) && !ApiAccepted(reply) && !NumTruthy(cached) ==> r == NextMidnight(now) > now
    ensures r != 0
  {
    if CacheFresh(cached, now) then cached.value
    else if ApiAccepted(reply) then reply.endTimestamp.value
    else if NumTruthy(cached) then cached.value
    else NextMidnight(now)
  }

  /** localStorage after the choice: written only when the API was asked and answered. */
  function LegacyStorageAfterInit(storage: map<string, int>, reply: EndDateReply, now: nat): map<string, int>
  {
    var cached := Stored(storage, EndTimeKey);
    if !CacheFresh(cached, now) && ApiAccepted(reply) then
      storage[EndTimeKey := reply.endTimestamp.value][FetchedKey := now]
    else storage
  }

  /**
   * A fresh cache is neither refetched nor rewritten; the midnight fallback
   * is never cached; the API's end time always is, with the fetch instant.
   */
  lemma LegacyCaching(storage: map<string, int>, reply: EndDateReply, now: nat)
    ensures CacheFresh(Stored(storage, EndTimeKey), now) ==> LegacyStorageAfterInit(storage, reply, now) == storage
    ensures LegacyEndTime(reply, Stored(storage, EndTimeKey), now) == NextMidnight(now) && !ApiAccepted(reply) ==>
      LegacyStorageAfterInit(storage, reply, now) == storage
    ensures !CacheFresh(Stored(storage, EndTimeKey), now) && ApiAccepted(reply) ==>
      var s := LegacyStorageAfterInit(storage, reply, now);
      EndTimeKey in s && FetchedKey in s
      && s[EndTimeKey] == LegacyEndTime(reply, Stored(storage, EndTimeKey), now) && s[FetchedKey] == now
  {
    assert EndTimeKey != FetchedKey;
  }

  /** Unlike the backend page, this one can start from an end time that has already passed. */
  lemma StaleEndTimeKept(storage: map<string, int>, reply: EndDateReply, now: nat)
    requires NumTruthy(Stored(storage, EndTimeKey)) && Stored(storage, EndTimeKey).value <= now
    requires !ApiAccepted(reply)
    ensures LegacyEndTime(reply, Stored(storage, EndTimeKey), now) <= now
    ensures LegacyStorageAfterInit(storage, reply, now) == storage
  {
  }

  /** The older page's countdown state: the module globals, the three fields and localStorage. */
  class LegacyCountdown {
    var timerEndTime: Option<int>
    var intervalRunning: bool
    var hoursText: string
    var minutesText: string
    var secondsText: string
    var storage: map<string, int>

    constructor(initialStorage: map<string, int>)
      ensures timerEndTime.None? && !intervalRunning && storage == initialStorage
    {
      timerEndTime := None;
      intervalRunning := false;
      hoursText, minutesText, secondsText := "", "", "";
      storage := initialStorage;
    }

    /**
     * initializeCountdown: the end time is chosen (asking the API only when
     * the cache is not fresh) and the interval starts whether or not the
     * three fields exist; the first tick renders when they do.
     */
    method InitializeCountdown(elementsPresent: bool, reply: EndDateReply, now: nat) returns (fetched: bool)
      modifies this
      ensures fetched <==> !CacheFresh(Stored(old(storage), EndTimeKey), now)
      ensures var end := LegacyEndTime(reply, Stored(old(storage), EndTimeKey), now);
        var s := LegacyStorageAfterInit(old(storage), reply, now);
        timerEndTime == Some(end) && intervalRunning
        && (!elementsPresent ==>
              storage == s && hoursText == old(hoursText)
              && minutesText == old(minutesText) && secondsText == old(secondsText))
        && (elementsPresent && end - now > 0 ==>
              storage == s && (hoursText, minutesText, secondsText) == CountdownTexts(end - now))
        && (elementsPresent && end - now <= 0 ==>
              hoursText == "00" && minutesText == "00" && secondsText == "00"
              && storage == (if RefreshDue(Stored(s, LastRefreshKey), now) then s[LastRefreshKey := now] else s))
    {
      intervalRunning := false;
      if elementsPresent {
        hoursText, minutesText, secondsText := "--", "--", "--";
      }
      var cached := Stored(storage, EndTimeKey);
      fetched := !CacheFresh(cached, now);
      var end := LegacyEndTime(reply, cached, now);
      storage := LegacyStorageAfterInit(storage, reply, now);
      timerEndTime := Some(end);
      var refresh := UpdateCountdown(elementsPresent, now);
      intervalRunning := true;
    }

    /**
     * updateCountdown, one tick: nothing without the fields; otherwise the
     * remaining time, or '00' and a refresh fetch when one is due.
     */
    method UpdateCountdown(elementsPresent: bool, now: int) returns (refreshStarted: bool)
      modifies this
      ensures timerEndTime == old(timerEndTime) && intervalRunning == old(intervalRunning)
      ensures !NumTruthy(old(timerEndTime)) || !elementsPresent ==>
        !refreshStarted && storage == old(storage)
        && hoursText == old(hoursText) && minutesText == old(minutesText) && secondsText == old(secondsText)
      ensures NumTruthy(old(timerEndTime)) && elementsPresent && old(timerEndTime).value - now <= 0 ==>
        hoursText == "00" && minutesText == "00" && secondsText == "00"
        && (refreshStarted <==> RefreshDue(Stored(old(storage), LastRefreshKey), now))
        && storage == (if refreshStarted then old(storage)[LastRefreshKey := now] else old(storage))
      ensures NumTruthy(old(timerEndTime)) && elementsPresent && old(timerEndTime).value - now > 0 ==>
        !refreshStarted && storage == old(storage)
        && (hoursText, minutesText, secondsText) == CountdownTexts(old(timerEndTime).value - now)
    {
      refreshStarted := false;
      if !NumTruthy(timerEndTime) {
        return;
      }
      var timeLeft := timerEndTime.value - now;
      if !elementsPresent {
        return;
      }
      if timeLeft <= 0 {
        hoursText, minutesText, secondsText := "00", "00", "00";
        if RefreshDue(Stored(storage, LastRefreshKey), now) {
          storage := storage[LastRefreshKey := now];
          refreshStarted := true;
        }
        return;
      }
      var texts := CountdownTexts(timeLeft);
      if secondsText != texts.2 || secondsText == "--" {
        secondsText := texts.2;
      }
      if minutesText != texts.1 || minutesText == "--" {
        minutesText := texts.1;
      }
      if hoursText != texts.0 || hoursText == "--" {
        hoursText := texts.0;
      }
    }

    /** The refresh fetch resolving: a later end time replaces the expired one and is cached. */
    method ApplyRefresh(reply: RefreshReply, requestedAt: int)
      modifies this
      ensures reply.Refreshed? && reply.success && NumTruthy(reply.endTimestamp) && reply.endTimestamp.value > requestedAt ==>
        timerEndTime == reply.endTimestamp && storage == old(storage)[EndTimeKey := reply.endTimestamp.value]
      ensures !(reply.Refreshed? && reply.success && NumTruthy(reply.endTimestamp) && reply.endTimestamp.value > requestedAt) ==>
        timerEndTime == old(timerEndTime) && storage == old(storage)
      ensures intervalRunning == old(intervalRunning) && hoursText == old(hoursText)
        && minutesText == old(minutesText) && secondsText == old(secondsText)
    {
      if reply.Refreshed? && reply.success && NumTruthy(reply.endTimestamp) && reply.endTimestamp.value > requestedAt {
        timerEndTime := reply.endTimestamp;
        storage := storage[EndTimeKey := reply.endTimestamp.value];
      }
    }
  }

  /** 26 November of this year at 00:00, or of next year when that is strictly before now. */
  function LegacyPreSaleTarget(now: int): (t: int)
    ensures t >= now
    ensures var y := CurrentYear(now);
      (November26(y) >= now ==> t == November26(y)) && (November26(y) < now ==> t == November26(y + 1))
  {
    var y := CurrentYear(now);
    NextNovember26Ahead(now);
    if November26(y) < now then November26(y + 1) else November26(y)
  }

  /**
   * The two pages pick the same target except at the instant 26 November
   * begins: there this page counts down to now and the backend page to the
   * following year.
   */
  lemma PreSaleTargetsDiffer(now: int)
    ensures LegacyPreSaleTarget(now) != DefaultPreSaleTarget(now) <==> November26(CurrentYear(now)) == now
    ensures November26(CurrentYear(now)) == now ==>
      LegacyPreSaleTarget(now) == now && PreSaleDisplayAt(LegacyPreSaleTarget(now), now).PreSaleEnded?
  {
    var y := CurrentYear(now);
    if November26(y) == now {
      NextNovember26Ahead(now);
    }
  }

  /** The older pre-sale banner, its four fields and its interval. */
  class LegacyPreSaleTimer {
    var target: int
    var bannerVisible: bool
    var intervalRunning: bool
    var fields: PreSaleDisplay

    /**
     * initializePreBlackFridayTimer: fixes the target once, renders the
     * first tick and then starts the interval, even when that first tick
     * found the target reached.
     */
    constructor(fieldsPresent: bool, now: int)
      ensures target == LegacyPreSaleTarget(now) && intervalRunning
      ensures fieldsPresent && target - now <= 0 ==> fields == PreSaleRunning("00", "00", "00", "00") && !bannerVisible
      ensures fieldsPresent && target - now > 0 ==> fields == PreSaleDisplayAt(target, now) && bannerVisible
      ensures !fieldsPresent ==> bannerVisible
    {
      target := LegacyPreSaleTarget(now);
      bannerVisible := true;
      intervalRunning := false;
      fields := PreSaleRunning("", "", "", "");
      new;
      Tick(fieldsPresent, now);
      intervalRunning := true;
    }

    /**
     * updatePreBFTimer, one tick: once the target is reached the fields read
     * '00', the banner hides and the interval stops.
     */
    method Tick(fieldsPresent: bool, now: int)
      modifies this
      ensures target == old(target)
      ensures !fieldsPresent ==>
        fields == old(fields) && bannerVisible == old(bannerVisible) && intervalRunning == old(intervalRunning)
      ensures fieldsPresent && target - now <= 0 ==>
        fields == PreSaleRunning("00", "00", "00", "00") && !bannerVisible && !intervalRunning
      ensures fieldsPresent && target - now > 0 ==>
        fields == PreSaleDisplayAt(target, now) && bannerVisible == old(bannerVisible)
        && intervalRunning == old(intervalRunning)
    {
      if !fieldsPresent {
        return;
      }
      var shown := PreSaleDisplayAt(target, now);
      if shown.PreSaleEnded? {
        fields := PreSaleRunning("00", "00", "00", "00");
        bannerVisible := false;
        intervalRunning := false;
        return;
      }
      fields := shown;
    }
  }

  /**
   * validatePaymentForm: undefined when the name, email or pay button is
   * missing; else the trimmed name has two characters and the trimmed email
   * matches the pattern.
   */
  function ValidateLegacyPayment(inputs: Option<(string, string)>): (r: Option<bool>)
    ensures r.None? <==> inputs.None?
    ensures r == Some(true) <==> inputs.Some? && NameOk(Trim(inputs.value.0)) && EmailMatches(Trim(inputs.value.1))
  {
    match inputs
    case None => None
    case Some((name, email)) =>
      var n := Trim(name);
      var e := Trim(email);
      Some(|n| >= 2 && EmailMatches(e))
  }

  /** Every payment form the backend page accepts is accepted here, on its first name and email. */
  lemma BackendAcceptanceImpliesLegacy(f: PaymentInputs, policiesChecked: Option<bool>, recaptchaLoaded: bool)
    requires ValidatePaymentForm(Some(f), policiesChecked, recaptchaLoaded) == Some(true)
    ensures ValidateLegacyPayment(Some((f.firstName, f.email))) == Some(true)
  {
  }

  /** The contact form's elements: None for an element that is missing; code is the URL's code parameter. */
  datatype LegacyContactInputs = LegacyContactInputs(name: Option<string>, phone: Option<string>, city: Option<string>, code: Option<string>)

  datatype LegacyContactError = NameTooShort | PhoneTooShort

  datatype LegacyContactOutcome = LegacyRejected(error: LegacyContactError) | LegacySent(body: map<string, Json>)

  /**
   * handleContactSubmit: the name rule, then the phone rule; the first that
   * fails stops the submission.  The body holds name, phone, whatsapp, the
   * fixed message and the city, plus the upper-cased landing code when the
   * URL carries a non-empty one.
   */
  function LegacyContactSubmission(inputs: LegacyContactInputs): (r: LegacyContactOutcome)
    ensures r == LegacyRejected(NameTooShort) <==> !NameOk(TrimmedOr(inputs.name, ""))
    ensures r == LegacyRejected(PhoneTooShort) <==> NameOk(TrimmedOr(inputs.name, "")) && |TrimmedOr(inputs.phone, "")| < 8
    ensures r.LegacySent? <==> NameOk(TrimmedOr(inputs.name, "")) && |TrimmedOr(inputs.phone, "")| >= 8
  {
    var name := TrimmedOr(inputs.name, "");
    var phone := TrimmedOr(inputs.phone, "");
    if name == "" || |name| < 2 then LegacyRejected(NameTooShort)
    else if phone == "" || |phone| < 8 then LegacyRejected(PhoneTooShort)
    else
      LegacySent(ContactBody(name, phone, inputs.city, inputs.code))
  }

  /** The contact body, with the upper-cased landing code when the URL carries a non-empty one. */
  function ContactBody(name: string, phone: string, city: Option<string>, code: Option<string>): map<string, Json>
  {
    var body := map["name" := JStr(name), "phone" := JStr(phone), "whatsapp" := JStr(phone),
                    "message" := JStr(DefaultContactMessage), "city" := if city.Some? then JStr(Trim(city.value)) else JNull];
    if code.Some? && code.value != "" then body["landing_code" := JStr(Upper(code.value))] else body
  }

  /** What a sent body holds: the phone twice, the fixed message, and the landing code exactly when the URL has one. */
  lemma LegacyContactBody(inputs: LegacyContactInputs)
    requires LegacyContactSubmission(inputs).LegacySent?
    ensures var b := LegacyContactSubmission(inputs).body;
      b.Keys == {"name", "phone", "whatsapp", "message", "city"}
        + (if inputs.code.Some? && inputs.code.value != "" then {"landing_code"} else {})
      && b["name"] == JStr(TrimmedOr(inputs.name, ""))
      && b["whatsapp"] == b["phone"] == JStr(TrimmedOr(inputs.phone, ""))
      && b["message"] == JStr(DefaultContactMessage)
      && (inputs.code.Some? && inputs.code.value != "" ==> b["landing_code"] == JStr(Upper(inputs.code.value)))
  {
    var name, phone := TrimmedOr(inputs.name, ""), TrimmedOr(inputs.phone, "");
    assert LegacyContactSubmission(inputs).body == ContactBody(name, phone, inputs.city, inputs.code);
    ContactBodyFields(name, phone, inputs.city, inputs.code);
  }

  lemma ContactBodyFields(name: string, phone: string, city: Option<string>, code: Option<string>)
    ensures var b := ContactBody(name, phone, city, code);
      b.Keys == {"name", "phone", "whatsapp", "message", "city"} + (if code.Some? && code.value != "" then {"landing_code"} else {})
      && b["name"] == JStr(name) && b["whatsapp"] == b["phone"] == JStr(phone)
      && b["message"] == JStr(DefaultContactMessage)
      && (code.Some? && code.value != "" ==> b["landing_code"] == JStr(Upper(code.value)))
  {
    var body := map["name" := JStr(name), "phone" := JStr(phone), "whatsapp" := JStr(phone),
                    "message" := JStr(DefaultContactMessage), "city" := if city.Some? then JStr(Trim(city.value)) else JNull];
    assert body.Keys == {"name", "phone", "whatsapp", "message", "city"};
    assert body["name"] == JStr(name) && body["whatsapp"] == body["phone"] == JStr(phone);
  }

  /** A short name rejects the form whatever the phone. */
  lemma NameCheckedFirst(inputs: LegacyContactInputs, phone: Option<string>)
    requires !NameOk(TrimmedOr(inputs.name, ""))
    ensures LegacyContactSubmission(inputs.(phone := phone)) == LegacyRejected(NameTooShort)
  {
  }
}
