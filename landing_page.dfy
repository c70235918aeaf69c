/**
 * The landing page under backend/staticfiles/new_landing: the registration
 * form's message composition, payload and required fields, the error text
 * of a failed registration, and the profit calculator's total pips.  The
 * form's values, the reply and parseFloat are inputs; getCookie is
 * Cookies.GetCookie.
 */
module LandingPage {
  import opened Wrappers
  import opened Text
  import opened Json

  /** `formData.get(key)?.toString().trim() || ''`. */
  function FormValue(v: Option<string>): (r: string)
    ensures IsTrimmed(r)
    ensures v.None? ==> r == ""
  {
    TrimSpec(v.GetOr(""));
    Trim(v.GetOr(""))
  }

  const PlanLabel: string := "الخطة المختارة: "
  const EmailLabel: string := "البريد الإلكتروني: "
  const DefaultMessage: string := "مهتم بالاشتراك في خدمات FX Global"

  /** The non-empty items of [notes, plan line, e-mail line], in that order. */
  function MessageParts(notes: string, plan: string, email: string): (r: seq<string>)
    ensures forall k :: 0 <= k < |r| ==> r[k] != ""
    ensures |r| == (if notes != "" then 1 else 0) + (if plan != "" then 1 else 0) + (if email != "" then 1 else 0)
  {
    (if notes != "" then [notes] else [])
    + (if plan != "" then [PlanLabel + plan] else [])
    + (if email != "" then [EmailLabel + email] else [])
  }

  /** composedMessageParts.join('\n'). */
  function ComposedMessage(notes: string, plan: string, email: string): string
  {
    Join(MessageParts(notes, plan, email), "\n")
  }

  /** A join starts with its first part. */
  lemma JoinStartsWithFirst(parts: seq<string>, sep: string)
    requires |parts| >= 1
    ensures |Join(parts, sep)| >= |parts[0]| && Join(parts, sep)[..|parts[0]|] == parts[0]
  {
  }

  /** The composed message is empty exactly when notes, plan and e-mail all are. */
  lemma ComposedMessageEmpty(notes: string, plan: string, email: string)
    ensures ComposedMessage(notes, plan, email) == "" <==> notes == "" && plan == "" && email == ""
  {
    var parts := MessageParts(notes, plan, email);
    if |parts| >= 1 {
      JoinStartsWithFirst(parts, "\n");
    }
  }

  /** Items without line breaks come back out of the message, split at '\n'. */
  lemma ComposedMessageSplits(notes: string, plan: string, email: string)
    requires notes != "" || plan != "" || email != ""
    requires forall i :: 0 <= i < |notes| ==> notes[i] != '\n'
    requires forall i :: 0 <= i < |plan| ==> plan[i] != '\n'
    requires forall i :: 0 <= i < |email| ==> email[i] != '\n'
    ensures SplitOn(ComposedMessage(notes, plan, email), "\n") == MessageParts(notes, plan, email)
  {
    var parts := MessageParts(notes, plan, email);
    forall k, i | 0 <= k < |parts| && 0 <= i < |parts[k]|
      ensures parts[k][i] != '\n'
    {
      var p := parts[k];
      if p != notes {
        if p == PlanLabel + plan {
          if i >= |PlanLabel| { assert p[i] == plan[i - |PlanLabel|]; }
        } else {
          assert p == EmailLabel + email;
          if i >= |EmailLabel| { assert p[i] == email[i - |EmailLabel|]; }
        }
      }
    }
    SplitJoin(parts, '\n');
  }

  /** window.LANDING_PAGE_CODE trimmed when it is a string, else ''. */
  function LandingCode(code: Option<string>): (r: string)
    ensures IsTrimmed(r)
  {
    FormValue(code)
  }

  /** The body posted to /api/contacts/register/; goal, address and city are null. */
  datatype LandingPayload = LandingPayload(
    name: string, phone: string, whatsapp: string, message: string,
    goal: Option<string>, address: Option<string>, city: Option<string>, landingCode: string)

  /** The form's fields, None where FormData has no entry. */
  datatype LandingInputs = LandingInputs(
    fullName: Option<string>, phone: Option<string>, plan: Option<string>, notes: Option<string>, email: Option<string>)

  const MissingFieldsText: string := "الرجاء إدخال الاسم ورقم الهاتف."

  function PayloadOf(f: LandingInputs, code: Option<string>): (p: LandingPayload)
    ensures p.name == FormValue(f.fullName) && p.phone == FormValue(f.phone) && p.whatsapp == p.phone
    ensures p.goal.None? && p.address.None? && p.city.None? && p.landingCode == LandingCode(code)
    ensures var composed := ComposedMessage(FormValue(f.notes), FormValue(f.plan), FormValue(f.email));
      (composed != "" ==> p.message == composed) && (composed == "" ==> p.message == DefaultMessage)
  {
    var phone := FormValue(f.phone);
    var composed := ComposedMessage(FormValue(f.notes), FormValue(f.plan), FormValue(f.email));
    LandingPayload(FormValue(f.fullName), phone, phone, if composed != "" then composed else DefaultMessage,
                   None, None, None, LandingCode(code))
  }

  /** A form with nothing but a name and a phone sends the default message. */
  lemma BareFormSendsDefaultMessage(f: LandingInputs, code: Option<string>)
    requires FormValue(f.notes) == "" && FormValue(f.plan) == "" && FormValue(f.email) == ""
    ensures PayloadOf(f, code).message == DefaultMessage
  {
    ComposedMessageEmpty(FormValue(f.notes), FormValue(f.plan), FormValue(f.email));
  }

  const FailedText: string := "فشل إرسال الطلب، حاول مرة أخرى."
  const SendErrorText: string := "حدث خطأ أثناء الإرسال، حاول مرة أخرى."
  const ReceivedText: string := "تم استلام طلبك! سيتواصل معك فريق FX Global خلال 24 ساعة."

  /** The registration call's reply: OK, not OK with its parsed body (None when not JSON), or a failed fetch. */
  datatype RegisterReply = RegisterOk | RegisterNotOk(body: Option<Json>) | NetworkFailure(message: string)

  /** submitRegistration's error for a failed reply: detail, else message, else the default. */
  function FailureText(body: Option<Json>): (r: string)
    ensures body.None? || !body.value.JObj? ==> r == FailedText
    ensures body.Some? && body.value.JObj? ==>
      r == OrText(Get(body.value.fields, "detail"), Get(body.value.fields, "message"), FailedText)
  {
    if body.None? || !body.value.JObj? then FailedText
    else OrText(Get(body.value.fields, "detail"), Get(body.value.fields, "message"), FailedText)
  }

  /** The required fields: a payload without a name or a phone is not sent. */
  function CheckedPayload(f: LandingInputs, code: Option<string>): (r: Option<LandingPayload>)
    ensures r.None? <==> PayloadOf(f, code).name == "" || PayloadOf(f, code).phone == ""
    ensures r.Some? ==> r.value == PayloadOf(f, code)
  {
    var p := PayloadOf(f, code);
    if p.name == "" || p.phone == "" then None else Some(p)
  }

  datatype Status = Hidden | Shown(text: string)

  /** The success and error lines after a reply: the received text, or the error's message, else the generic one. */
  function ReplyStatus(reply: RegisterReply): (r: (Status, Status))
    ensures reply.RegisterOk? ==> r == (Shown(ReceivedText), Hidden)
    ensures reply.RegisterNotOk? ==>
      var t := FailureText(reply.body);
      r == (Hidden, Shown(if t != "" then t else SendErrorText))
    ensures reply.NetworkFailure? ==> r == (Hidden, Shown(if reply.message != "" then reply.message else SendErrorText))
  {
    match reply
    case RegisterOk => (Shown(ReceivedText), Hidden)
    case RegisterNotOk(body) =>
      var t := FailureText(body);
      (Hidden, Shown(if t != "" then t else SendErrorText))
    case NetworkFailure(message) => (Hidden, Shown(if message != "" then message else SendErrorText))
  }

  /** The form: its fields, the success and error lines, and the values a reset restores. */
  class LandingForm {
    var inputs: LandingInputs
    var success: Status
    var error: Status
    const defaults: LandingInputs

    constructor(initial: LandingInputs)
      ensures inputs == initial && defaults == initial && success == Hidden && error == Hidden
    {
      inputs, defaults := initial, initial;
      success, error := Hidden, Hidden;
    }

    /**
     * The submit handler: without a name or a phone only the error line is
     * shown; otherwise the payload is posted, and the reply either resets
     * the form and shows the received line, or shows its error.
     */
    method Submit(code: Option<string>, reply: RegisterReply) returns (sent: Option<LandingPayload>)
      modifies this
      ensures sent == CheckedPayload(old(inputs), code)
      ensures sent.None? ==> (success, error, inputs) == (old(success), Shown(MissingFieldsText), old(inputs))
      ensures sent.Some? ==>
        (success, error) == ReplyStatus(reply) && inputs == (if reply.RegisterOk? then defaults else old(inputs))
    {
      sent := CheckedPayload(inputs, code);
      if sent.None? {
        ShowMissing();
      } else {
        ShowReply(reply);
      }
    }

    /** The required-fields error. */
    method ShowMissing()
      modifies this
      ensures error == Shown(MissingFieldsText) && success == old(success) && inputs == old(inputs)
    {
      error := Shown(MissingFieldsText);
    }

    /** The reply's lines; an accepted registration resets the form. */
    method ShowReply(reply: RegisterReply)
      modifies this
      ensures success == ReplyStatus(reply).0 && error == ReplyStatus(reply).1
      ensures inputs == (if reply.RegisterOk? then defaults else old(inputs))
    {
      var status := ReplyStatus(reply);
      success, error := status.0, status.1;
      if reply.RegisterOk? {
        inputs := defaults;
      }
    }
  }

  /** `value.replace(/,/g, '')`. */
  function WithoutCommas(s: string): (r: string)
    ensures forall i :: 0 <= i < |r| ==> r[i] != ','
    ensures |r| <= |s|
  {
    if |s| == 0 then ""
    else if s[0] == ',' then WithoutCommas(s[1..])
    else [s[0]] + WithoutCommas(s[1..])
  }

  lemma {:induction false} WithoutCommasAppend(a: string, b: string)
    ensures WithoutCommas(a + b) == WithoutCommas(a) + WithoutCommas(b)
    decreases |a|
  {
    if |a| > 0 {
      assert (a + b)[1..] == a[1..] + b;
      WithoutCommasAppend(a[1..], b);
    } else {
      assert a + b == b;
    }
  }

  /** Thousands separators make no difference: a comma anywhere is dropped. */
  lemma CommaIgnored(a: string, b: string)
    ensures WithoutCommas(a + "," + b) == WithoutCommas(a + b)
  {
    WithoutCommasAppend(a + ",", b);
    WithoutCommasAppend(a, ",");
    WithoutCommasAppend(a, b);
    assert WithoutCommas(",") == "";
  }

  const DefaultPips: real := 17782.0

  /**
   * getTotalPips: the input's value without commas through parseFloat
   * (None for NaN); NaN, zero or a missing input give 17782.
   */
  function TotalPips(input: Option<string>, parseFloat: string -> Option<real>): (r: real)
    ensures input.None? ==> r == DefaultPips
    ensures input.Some? ==>
      var v := parseFloat(WithoutCommas(input.value));
      r == (if v.Some? && v.value != 0.0 then v.value else DefaultPips)
    ensures r != 0.0
  {
    if input.None? then DefaultPips
    else
      var v := parseFloat(WithoutCommas(input.value));
      if v.Some? && v.value != 0.0 then v.value else DefaultPips
  }
}
