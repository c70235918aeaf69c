/**
 * The elite registration form under backend/staticfiles/new_elite: the
 * csrftoken read once from the cookie header, the submit handler that lets
 * the browser post the form natively without a token and otherwise posts the
 * six trimmed fields to /api/contacts/register/, and the status line it
 * writes.  The script holds two identical blocks, each registering its own
 * handler on the same form.
 */
module EliteForm {
  import opened Wrappers
  import opened Text
  import opened Json
  import Cookies

  /** The form's six inputs, None where the form has no such control. */
  datatype EliteInputs = EliteInputs(
    name: Option<string>, phone: Option<string>, whatsapp: Option<string>,
    message: Option<string>, city: Option<string>, landingCode: Option<string>)

  datatype EliteData = EliteData(
    name: string, phone: string, whatsapp: string, message: string, city: string, landingCode: string)

  /** `(control?.value || '').trim()`. */
  function Field(v: Option<string>): (r: string)
    ensures IsTrimmed(r)
    ensures v.None? ==> r == ""
  {
    TrimSpec(v.GetOr(""));
    Trim(v.GetOr(""))
  }

  /** The body: every field trimmed, '' for a missing control. */
  function Payload(i: EliteInputs): (d: EliteData)
    ensures IsTrimmed(d.name) && IsTrimmed(d.phone) && IsTrimmed(d.whatsapp)
      && IsTrimmed(d.message) && IsTrimmed(d.city) && IsTrimmed(d.landingCode)
    ensures i.name.None? ==> d.name == ""
    ensures i.phone.None? ==> d.phone == ""
    ensures i.whatsapp.None? ==> d.whatsapp == ""
    ensures i.message.None? ==> d.message == ""
    ensures i.city.None? ==> d.city == ""
    ensures i.landingCode.None? ==> d.landingCode == ""
  {
    EliteData(Field(i.name), Field(i.phone), Field(i.whatsapp), Field(i.message), Field(i.city), Field(i.landingCode))
  }

  /** Submitting what was sent sends it again unchanged. */
  lemma PayloadStable(i: EliteInputs)
    ensures var d := Payload(i);
      Payload(EliteInputs(Some(d.name), Some(d.phone), Some(d.whatsapp), Some(d.message), Some(d.city), Some(d.landingCode))) == d
  {
    var d := Payload(i);
    TrimOfTrimmed(d.name);
    TrimOfTrimmed(d.phone);
    TrimOfTrimmed(d.whatsapp);
    TrimOfTrimmed(d.message);
    TrimOfTrimmed(d.city);
    TrimOfTrimmed(d.landingCode);
  }

  const SendingText: string := "يتم الإرسال..."
  const RegisteredText: string := "تم التسجيل بنجاح! سنتواصل معك قريباً."
  const RejectedText: string := "تعذر إرسال الطلب، تأكد من البيانات"
  const UnexpectedText: string := "حدث خطأ غير متوقع."

  /** The reply: its status and parsed body ({} when the body is not JSON), or a failed fetch. */
  datatype EliteReply = Replied(ok: bool, payload: Json) | FetchFailed(message: string)

  /**
   * The status line a reply leaves: the success text when OK; else the
   * body's detail, else its message, else the fixed rejection; a failed
   * fetch shows its own message; an empty text gives the generic one.
   */
  function StatusAfter(reply: EliteReply): (r: string)
    ensures reply.Replied? && reply.ok ==> r == RegisteredText
    ensures reply.Replied? && !reply.ok ==>
      var t := OrText(LahzaField(reply.payload, "detail"), LahzaField(reply.payload, "message"), RejectedText);
      r == (if t != "" then t else UnexpectedText)
    ensures reply.FetchFailed? ==> r == (if reply.message != "" then reply.message else UnexpectedText)
    ensures r != ""
  {
    match reply
    case Replied(ok, payload) =>
      if ok then RegisteredText
      else
        var t := OrText(LahzaField(payload, "detail"), LahzaField(payload, "message"), RejectedText);
        if t != "" then t else UnexpectedText
    case FetchFailed(message) => if message != "" then message else UnexpectedText
  }

  /** `payload?.key`: undefined unless the body is an object. */
  function LahzaField(payload: Json, key: string): Json
  {
    if payload.JObj? then Get(payload.fields, key) else JNull
  }

  /** A rejection without detail or message shows the fixed rejection text. */
  lemma BareRejection(fields: map<string, Json>)
    requires "detail" !in fields && "message" !in fields
    ensures StatusAfter(Replied(false, JObj(fields))) == RejectedText
  {
  }

  /** The handlers the script registers on the form: one per block. */
  const ScriptHandlers: nat := 2

  /** The posts one submit makes: one per registered handler once a token was read, none otherwise. */
  function PostsPerSubmit(handlers: nat, csrftoken: string, i: EliteInputs): (posts: seq<EliteData>)
    ensures csrftoken == "" ==> posts == []
    ensures csrftoken != "" ==> |posts| == handlers && forall k :: 0 <= k < handlers ==> posts[k] == Payload(i)
  {
    if csrftoken == "" then [] else Repeat(Payload(i), handlers)
  }

  /** n copies of d. */
  function Repeat(d: EliteData, n: nat): (r: seq<EliteData>)
    ensures |r| == n && forall k :: 0 <= k < n ==> r[k] == d
  {
    seq(n, _ => d)
  }

  /** As written, a submit with a token posts the same registration twice. */
  lemma DoublePostAsWritten(cookie: string, i: EliteInputs)
    requires Cookies.EliteCookie(cookie, "csrftoken") != ""
    ensures PostsPerSubmit(ScriptHandlers, Cookies.EliteCookie(cookie, "csrftoken"), i) == [Payload(i), Payload(i)]
  {
  }

  /** The page with one handler: the form's inputs, its reset values, the status line and the token. */
  class EliteFormPage {
    var inputs: EliteInputs
    var status: string
    const defaults: EliteInputs
    const csrftoken: string

    /** The token is read once, when the script runs. */
    constructor(cookie: string, initial: EliteInputs)
      ensures csrftoken == Cookies.EliteCookie(cookie, "csrftoken")
      ensures inputs == initial && defaults == initial && status == ""
    {
      csrftoken := Cookies.EliteCookie(cookie, "csrftoken");
      inputs, defaults, status := initial, initial, "";
    }

    /**
     * submitForm: without a token the native POST goes ahead and nothing
     * changes here; with one the payload is posted once, the status follows
     * the reply and a success resets the form.
     */
    method Submit(reply: EliteReply) returns (posts: seq<EliteData>)
      modifies this
      ensures posts == PostsPerSubmit(1, csrftoken, old(inputs))
      ensures csrftoken == "" ==> inputs == old(inputs) && status == old(status)
      ensures csrftoken != "" ==>
        status == StatusAfter(reply) && inputs == (if reply.Replied? && reply.ok then defaults else old(inputs))
    {
      posts := PostsPerSubmit(1, csrftoken, inputs);
      if csrftoken != "" {
        ShowReply(reply);
      }
    }

    /** The status line while sending, then after the reply; a success resets the form. */
    method ShowReply(reply: EliteReply)
      modifies this
      ensures status == StatusAfter(reply)
      ensures inputs == (if reply.Replied? && reply.ok then defaults else old(inputs))
    {
      status := SendingText;
      status := StatusAfter(reply);
      if reply.Replied? && reply.ok {
        inputs := defaults;
      }
    }
  }
}
