/**
 * The Lahza gateway client: base URL and Bearer headers from the settings,
 * the initialise payload, and the classification of a gateway reply into
 * LahzaAPIError or the returned transaction data.  The HTTP exchange itself
 * is an input (HttpReply); the functions report the request they would send.
 */
module LahzaService {
  import opened Wrappers
  import opened Text
  import opened Json

  const DefaultBaseUrl: string := "https://api.lahza.io"
  const MissingSecretMessage: string := "Lahza secret key is not configured"
  const InvalidResponseMessage: string := "Invalid response from Lahza"
  const InitializeFailedMessage: string := "Failed to initialize Lahza transaction"
  const VerifyFailedMessage: string := "Failed to verify Lahza transaction"

  /** s.rstrip(c): every trailing c removed. */
  function RStrip(s: string, c: char): (r: string)
    ensures |r| <= |s| && r == s[..|r|]
    ensures r == [] || r[|r| - 1] != c
    ensures forall k :: |r| <= k < |s| ==> s[k] == c
  {
    if |s| > 0 && s[|s| - 1] == c then RStrip(s[..|s| - 1], c) else s
  }

  lemma RStripIdempotent(s: string, c: char)
    ensures RStrip(RStrip(s, c), c) == RStrip(s, c)
  {
  }

  /** _base_url(): the LAHZA_BASE_URL setting (or the default) without trailing slashes. */
  function BaseUrl(setting: Option<string>): (url: string)
    ensures url == [] || url[|url| - 1] != '/'
    ensures setting.None? ==> url == DefaultBaseUrl
  {
    var raw := if setting.Some? then setting.value else DefaultBaseUrl;
    assert DefaultBaseUrl[|DefaultBaseUrl| - 1] == 'o';
    RStrip(raw, '/')
  }

  /** The three request headers. */
  datatype Headers = Headers(authorization: string, contentType: string, accept: string)

  /** The credentials of an Authorization header in the Bearer scheme (section 2.1 of RFC 6750). */
  function BearerToken(authorization: string): Option<string>
  {
    if StartsWith(authorization, "Bearer ") then Some(authorization[7..]) else None
  }

  /** _headers(): LahzaAPIError when the secret is empty or unset, else Bearer and JSON headers. */
  function HeadersFor(secret: Option<string>): (r: Option<Headers>)
    ensures r.None? <==> secret.None? || secret.value == ""
    ensures r.Some? ==> BearerToken(r.value.authorization) == secret
    ensures r.Some? ==> r.value.contentType == "application/json" && r.value.accept == "application/json"
  {
    if secret.None? || secret.value == "" then None
    else
      var auth := "Bearer " + secret.value;
      assert auth[..7] == "Bearer " && auth[7..] == secret.value;
      Some(Headers(auth, "application/json", "application/json"))
  }

  /** What requests.post/get raise or return. body is None when response.json() raises ValueError. */
  datatype HttpReply = NetworkFailure(description: string) | Reply(ok: bool, body: Option<Json>)

  datatype LahzaError =
    | LahzaAPIError(message: Json)
    /** data.get on a JSON value that is not an object raises AttributeError, which is not caught. */
    | AttributeError

  datatype Outcome = Returned(data: Json) | Raised(error: LahzaError)

  /** The request the client sends: method, URL, headers and (for POST) the JSON body. */
  datatype Request = Request(isPost: bool, url: string, headers: Headers, payload: Option<map<string, Json>>)

  predicate Truthy(s: Option<string>) { s.Some? && s.value != "" }

  /** The optional arguments of initialize_transaction. */
  datatype Extras = Extras(
    reference: Option<string>, mobile: Option<string>, firstName: Option<string>, lastName: Option<string>,
    metadata: Option<map<string, Json>>, callbackUrl: Option<string>)

  predicate HasMetadata(x: Extras) { x.metadata.Some? && x.metadata.value != map[] }

  /**
   * The payload of initialize_transaction: email, amount and upper-cased
   * currency always; each optional key added only when its argument is truthy.
   */
  function InitializePayload(email: string, amountMinor: int, currency: string, x: Extras): map<string, Json>
  {
    var p0 := map["email" := JStr(email), "amount" := JNum(amountMinor), "currency" := JStr(Upper(currency))];
    var p1 := if Truthy(x.reference) then p0["ref" := JStr(x.reference.value)] else p0;
    var p2 := if Truthy(x.mobile) then p1["mobile" := JStr(x.mobile.value)] else p1;
    var p3 := if Truthy(x.firstName) then p2["firstName" := JStr(x.firstName.value)] else p2;
    var p4 := if Truthy(x.lastName) then p3["lastName" := JStr(x.lastName.value)] else p3;
    var p5 := if HasMetadata(x) then p4["metadata" := JObj(x.metadata.value)] else p4;
    if Truthy(x.callbackUrl) then p5["callback_url" := JStr(x.callbackUrl.value)] else p5
  }

  /** The dictionary built step by step, as the source does. */
  method BuildInitializePayload(email: string, amountMinor: int, currency: string, x: Extras)
    returns (payload: map<string, Json>)
    ensures payload == InitializePayload(email, amountMinor, currency, x)
  {
    payload := map["email" := JStr(email), "amount" := JNum(amountMinor), "currency" := JStr(Upper(currency))];
    if Truthy(x.reference) {
      payload := payload["ref" := JStr(x.reference.value)];
    }
    if Truthy(x.mobile) {
      payload := payload["mobile" := JStr(x.mobile.value)];
    }
    if Truthy(x.firstName) {
      payload := payload["firstName" := JStr(x.firstName.value)];
    }
    if Truthy(x.lastName) {
      payload := payload["lastName" := JStr(x.lastName.value)];
    }
    if HasMetadata(x) {
      payload := payload["metadata" := JObj(x.metadata.value)];
    }
    if Truthy(x.callbackUrl) {
      payload := payload["callback_url" := JStr(x.callbackUrl.value)];
    }
  }

  /** The required fields are always sent, with the currency upper-cased. */
  lemma PayloadRequiredFields(email: string, amountMinor: int, currency: string, x: Extras)
    ensures var p := InitializePayload(email, amountMinor, currency, x);
      "email" in p && p["email"] == JStr(email) && "amount" in p && p["amount"] == JNum(amountMinor)
      && "currency" in p && p["currency"] == JStr(Upper(currency))
  {
    PayloadKeysDistinct();
  }

  /** Each optional customer field is sent exactly when its argument is truthy, with that value. */
  lemma PayloadCustomerFields(email: string, amountMinor: int, currency: string, x: Extras)
    ensures var p := InitializePayload(email, amountMinor, currency, x);
      ("ref" in p <==> Truthy(x.reference)) && ("ref" in p ==> p["ref"] == JStr(x.reference.value))
      && ("mobile" in p <==> Truthy(x.mobile)) && ("mobile" in p ==> p["mobile"] == JStr(x.mobile.value))
      && ("firstName" in p <==> Truthy(x.firstName)) && ("firstName" in p ==> p["firstName"] == JStr(x.firstName.value))
      && ("lastName" in p <==> Truthy(x.lastName)) && ("lastName" in p ==> p["lastName"] == JStr(x.lastName.value))
  {
    PayloadKeysDistinct();
  }

  /** metadata is sent when non-empty, callback_url when truthy. */
  lemma PayloadOptionalFields(email: string, amountMinor: int, currency: string, x: Extras)
    ensures var p := InitializePayload(email, amountMinor, currency, x);
      ("metadata" in p <==> HasMetadata(x)) && ("metadata" in p ==> p["metadata"] == JObj(x.metadata.value))
      && ("callback_url" in p <==> Truthy(x.callbackUrl)) && ("callback_url" in p ==> p["callback_url"] == JStr(x.callbackUrl.value))
  {
    PayloadKeysDistinct();
  }

  /** No other key is ever sent. */
  lemma PayloadKeySet(email: string, amountMinor: int, currency: string, x: Extras)
    ensures InitializePayload(email, amountMinor, currency, x).Keys == PayloadKeys(x)
  {
  }

  /** The keys initialize_transaction sends for the given optional arguments. */
  function PayloadKeys(x: Extras): set<string>
  {
    {"email", "amount", "currency"}
    + (if Truthy(x.reference) then {"ref"} else {}) + (if Truthy(x.mobile) then {"mobile"} else {})
    + (if Truthy(x.firstName) then {"firstName"} else {}) + (if Truthy(x.lastName) then {"lastName"} else {})
    + (if HasMetadata(x) then {"metadata"} else {})
    + (if Truthy(x.callbackUrl) then {"callback_url"} else {})
  }

  /** The payload keys are distinct strings, so adding one leaves the others as they were. */
  lemma PayloadKeysDistinct()
    ensures "email" != "ref" && "email" != "mobile" && "email" != "firstName" && "email" != "lastName" && "email" != "metadata" && "email" != "callback_url"
    ensures "amount" != "ref" && "amount" != "mobile" && "amount" != "firstName" && "amount" != "lastName" && "amount" != "metadata" && "amount" != "callback_url"
    ensures "currency" != "ref" && "currency" != "mobile" && "currency" != "firstName" && "currency" != "lastName" && "currency" != "metadata" && "currency" != "callback_url"
    ensures "ref" != "mobile" && "ref" != "firstName" && "ref" != "lastName" && "ref" != "metadata" && "ref" != "callback_url"
    ensures "mobile" != "firstName" && "mobile" != "lastName" && "mobile" != "metadata" && "mobile" != "callback_url"
    ensures "firstName" != "lastName" && "firstName" != "metadata" && "firstName" != "callback_url"
    ensures "lastName" != "metadata" && "lastName" != "callback_url"
    ensures "metadata" != "callback_url"
  {
  }

  /**
   * The shared reply handling of both calls: a network exception or a
   * non-JSON body is LahzaAPIError; a non-OK status or a falsy "status" field
   * is LahzaAPIError carrying "message", or the call's default message.
   * Otherwise the reply's JSON object is passed on.
   */
  function CheckReply(reply: HttpReply, defaultMessage: string): (r: Result)
    ensures reply.NetworkFailure? ==> r == Failed(LahzaAPIError(JStr(reply.description)))
    ensures reply.Reply? && reply.body.None? ==> r == Failed(LahzaAPIError(JStr(InvalidResponseMessage)))
    ensures r.Passed? <==>
      reply.Reply? && reply.ok && reply.body.Some? && reply.body.value.JObj?
      && PyTruthy(Get(reply.body.value.fields, "status"))
    ensures r.Passed? ==> r.data == reply.body.value.fields
    ensures r.Failed? && r.error.LahzaAPIError? && reply.Reply? && reply.body.Some? && reply.body.value.JObj? ==>
      r.error.message == PyOr(Get(reply.body.value.fields, "message"), JStr(defaultMessage))
  {
    match reply
    case NetworkFailure(description) => Failed(LahzaAPIError(JStr(description)))
    case Reply(ok, body) =>
      if body.None? then Failed(LahzaAPIError(JStr(InvalidResponseMessage)))
      else if !body.value.JObj? then
        // data.get raises on a list, string, number, boolean or null, whether
        // it is reached for "status" or, after `not response.ok`, for "message"
        Failed(AttributeError)
      else
        var data := body.value.fields;
        if !ok || !PyTruthy(Get(data, "status")) then
          Failed(LahzaAPIError(PyOr(Get(data, "message"), JStr(defaultMessage))))
        else Passed(data)
  }

  datatype Result = Passed(data: map<string, Json>) | Failed(error: LahzaError)

  /**
   * initialize_transaction: the request it sends (None when the secret is
   * missing and _headers raises first) and what it returns or raises.
   */
  method InitializeTransaction(
    baseSetting: Option<string>, secret: Option<string>,
    email: string, amountMinor: int, currency: string, x: Extras, reply: HttpReply)
    returns (sent: Option<Request>, outcome: Outcome)
    ensures HeadersFor(secret).None? ==>
      sent.None? && outcome == Raised(LahzaAPIError(JStr(MissingSecretMessage)))
    ensures HeadersFor(secret).Some? ==>
      sent.Some? && sent.value.isPost && sent.value.url == BaseUrl(baseSetting) + "/transaction/initialize"
      && sent.value.headers == HeadersFor(secret).value
      && sent.value.payload == Some(InitializePayload(email, amountMinor, currency, x))
    ensures HeadersFor(secret).Some? ==> outcome == InitializeOutcome(CheckReply(reply, InitializeFailedMessage))
  {
    var url := BaseUrl(baseSetting) + "/transaction/initialize";
    var payload := BuildInitializePayload(email, amountMinor, currency, x);
    var headers := HeadersFor(secret);
    if headers.None? {
      return None, Raised(LahzaAPIError(JStr(MissingSecretMessage)));
    }
    sent := Some(Request(true, url, headers.value, Some(payload)));
    outcome := InitializeOutcome(CheckReply(reply, InitializeFailedMessage));
  }

  /**
   * The success path of initialize_transaction: the log line reads
   * data.get("data", {}).get("reference"), which raises when "data" is present
   * but not an object; then data.get("data") or data is returned.
   */
  function InitializeOutcome(checked: Result): (o: Outcome)
    ensures checked.Failed? ==> o == Raised(checked.error)
    ensures checked.Passed? && o.Returned? ==>
      var inner := Get(checked.data, "data");
      o.data == (if PyTruthy(inner) then inner else JObj(checked.data))
    ensures checked.Passed? ==> (o.Raised? <==> "data" in checked.data && !checked.data["data"].JObj?)
  {
    match checked
    case Failed(e) => Raised(e)
    case Passed(data) =>
      if "data" in data && !data["data"].JObj? then Raised(AttributeError)
      else Returned(PyOr(Get(data, "data"), JObj(data)))
  }

  /** f"{_base_url()}/transaction/verify/{reference}". */
  function VerifyUrl(base: string, reference: string): string
  {
    base + "/transaction/verify/" + reference
  }

  /** The reference can be read back from the verify URL. */
  lemma VerifyUrlReference(base: string, reference: string)
    ensures StartsWith(VerifyUrl(base, reference), base + "/transaction/verify/")
    ensures VerifyUrl(base, reference)[|base| + 20..] == reference
  {
    assert |"/transaction/verify/"| == 20;
  }

  /**
   * verify_transaction: data.get("data") or data is returned, and its
   * .get("status") raises when that value is not an object.
   */
  method VerifyTransaction(baseSetting: Option<string>, secret: Option<string>, reference: string, reply: HttpReply)
    returns (sent: Option<Request>, outcome: Outcome)
    ensures HeadersFor(secret).None? ==>
      sent.None? && outcome == Raised(LahzaAPIError(JStr(MissingSecretMessage)))
    ensures HeadersFor(secret).Some? ==>
      sent == Some(Request(false, VerifyUrl(BaseUrl(baseSetting), reference), HeadersFor(secret).value, None))
    ensures HeadersFor(secret).Some? ==> outcome == VerifyOutcome(CheckReply(reply, VerifyFailedMessage))
  {
    var url := VerifyUrl(BaseUrl(baseSetting), reference);
    var headers := HeadersFor(secret);
    if headers.None? {
      return None, Raised(LahzaAPIError(JStr(MissingSecretMessage)));
    }
    sent := Some(Request(false, url, headers.value, None));
    outcome := VerifyOutcome(CheckReply(reply, VerifyFailedMessage));
  }

  function VerifyOutcome(checked: Result): (o: Outcome)
    ensures checked.Failed? ==> o == Raised(checked.error)
    ensures checked.Passed? ==>
      var transaction := PyOr(Get(checked.data, "data"), JObj(checked.data));
      (o.Returned? <==> transaction.JObj?) && (o.Returned? ==> o.data == transaction)
  {
    match checked
    case Failed(e) => Raised(e)
    case Passed(data) =>
      var transaction := PyOr(Get(data, "data"), JObj(data));
      if transaction.JObj? then Returned(transaction) else Raised(AttributeError)
  }

  /** A successful verification always returns a JSON object: the transaction or the whole reply. */
  lemma VerifyReturnsObject(reply: HttpReply)
    requires VerifyOutcome(CheckReply(reply, VerifyFailedMessage)).Returned?
    ensures VerifyOutcome(CheckReply(reply, VerifyFailedMessage)).data.JObj?
    ensures reply.Reply? && reply.ok
  {
  }
}
