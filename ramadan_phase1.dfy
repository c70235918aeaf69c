/**
 * The Ramadan registration page (phase 1): the countdown to the start of
 * Ramadan, the registration payload posted to
 * /api/contacts/ramadan/register/, and the text alerted when the
 * registration fails.  The reply's status, its parsed body and the order of
 * the body's keys are inputs.
 */
module RamadanPhase1 {
  import opened Wrappers
  import opened Text
  import opened Json
  import opened Clock
  import LahzaCheckout

  /** `2026-03-01T00:00:00`, taken in UTC. */
  const RamadanStart: int := NewYear(2026) + (31 + 28) * DayMs

  /** The registration body: the three trimmed inputs and the phase. */
  datatype Registration = Registration(name: string, email: string, phone: string, phase: string)

  function RegistrationPayload(rawName: string, rawEmail: string, rawPhone: string): (r: Registration)
    ensures r.phase == "phase1"
    ensures IsTrimmed(r.name) && IsTrimmed(r.email) && IsTrimmed(r.phone)
    ensures OccursAt(rawName, r.name, |rawName| - |TrimStart(rawName)|)
    ensures OccursAt(rawEmail, r.email, |rawEmail| - |TrimStart(rawEmail)|)
    ensures OccursAt(rawPhone, r.phone, |rawPhone| - |TrimStart(rawPhone)|)
  {
    TrimSpec(rawName);
    TrimSpec(rawEmail);
    TrimSpec(rawPhone);
    Registration(Trim(rawName), Trim(rawEmail), Trim(rawPhone), "phase1")
  }

  /** Resubmitting the same inputs after trimming them posts the same body. */
  lemma PayloadStable(rawName: string, rawEmail: string, rawPhone: string)
    ensures var r := RegistrationPayload(rawName, rawEmail, rawPhone);
      RegistrationPayload(r.name, r.email, r.phone) == r
  {
    TrimIdempotent(rawName);
    TrimIdempotent(rawEmail);
    TrimIdempotent(rawPhone);
  }

  const RegisterFailedText: string := "حدث خطأ أثناء التسجيل. يرجى المحاولة مرة أخرى."

  /** `Array.isArray(v) ? v[0] : v`, as a template literal renders it. */
  function Shown(v: Json): string
  {
    if v.JArr? then (if |v.items| == 0 then "undefined" else JsString(v.items[0])) else JsString(v)
  }

  /** The body's keys in Object.keys order: exactly its fields, each once. */
  predicate KeysOf(d: Json, keys: seq<string>)
  {
    d.JObj? ==> (forall k :: k in keys ==> k in d.fields) && (forall k :: k in d.fields ==> k in keys) && (forall i, j :: 0 <= i < j < |keys| ==> keys[i] != keys[j])
  }

  /** A field error on e-mail, phone or name, in that order. */
  function ValidationText(d: Json): (r: Option<string>)
    ensures r.None? <==> !JsTruthy(LahzaCheckout.Field(d, "email")) && !JsTruthy(LahzaCheckout.Field(d, "phone"))
                         && !JsTruthy(LahzaCheckout.Field(d, "name"))
  {
    var email := LahzaCheckout.Field(d, "email");
    var phone := LahzaCheckout.Field(d, "phone");
    var name := LahzaCheckout.Field(d, "name");
    if JsTruthy(email) then Some("البريد الإلكتروني: " + Shown(email))
    else if JsTruthy(phone) then Some("رقم الواتساب: " + Shown(phone))
    else if JsTruthy(name) then Some("الاسم: " + Shown(name))
    else None
  }

  /** The first key's error: `key: value` for a non-empty object or array. */
  function FirstKeyText(d: Json, keys: seq<string>): (r: Option<string>)
    requires KeysOf(d, keys)
    ensures r.None? <==> !(d.JObj? && keys != []) && !(d.JArr? && d.items != [])
  {
    if d.JObj? && |keys| > 0 then Some(keys[0] + ": " + Shown(d.fields[keys[0]]))
    else if d.JArr? && |d.items| > 0 then Some("0: " + Shown(d.items[0]))
    else None
  }

  /** `data.message || data.error`. */
  function ServerText(d: Json): (r: Option<string>)
    ensures r.Some? ==> d.JObj? && ("message" in d.fields || "error" in d.fields)
  {
    var message := LahzaCheckout.Field(d, "message");
    var error := LahzaCheckout.Field(d, "error");
    if JsTruthy(message) then Some(JsString(message))
    else if JsTruthy(error) then Some(JsString(error))
    else None
  }

  /**
   * The alerted text as written: the body's message or error is computed
   * first and then overwritten by a field error, else by the first key's
   * error.  A body that is not JSON, or is null, ends in the catch and its
   * generic text.
   */
  function ErrorMessageAsWritten(data: Option<Json>, keys: seq<string>): string
    requires data.Some? ==> KeysOf(data.value, keys)
  {
    if data.None? || data.value == JNull then RegisterFailedText
    else
      var d := data.value;
      var base := ServerText(d).GetOr(RegisterFailedText);
      if ValidationText(d).Some? then ValidationText(d).value
      else if FirstKeyText(d, keys).Some? then FirstKeyText(d, keys).value
      else base
  }

  /**
   * As written, the server's message is never shown: any body that carries
   * one has a first key, and the first key's error wins.
   */
  lemma ServerTextNeverShown(d: Json, keys: seq<string>)
    requires d != JNull && KeysOf(d, keys)
    requires ValidationText(d).None? && ServerText(d).Some?
    ensures ErrorMessageAsWritten(Some(d), keys) == FirstKeyText(d, keys).value
  {
    assert "message" in keys || "error" in keys;
  }

  /** A rejection stating success false and a message shows `success: false`, not the message. */
  lemma ServerMessageHidden(message: string)
    requires message != ""
    ensures var d := JObj(map["success" := JBool(false), "message" := JStr(message)]);
      ErrorMessageAsWritten(Some(d), ["success", "message"]) == "success: false"
      && ErrorMessage(Some(d), ["success", "message"]) == message
  {
    var d := JObj(map["success" := JBool(false), "message" := JStr(message)]);
    assert LahzaCheckout.Field(d, "email") == JNull;
    assert LahzaCheckout.Field(d, "phone") == JNull;
    assert LahzaCheckout.Field(d, "name") == JNull;
    assert LahzaCheckout.Field(d, "message") == JStr(message);
    assert d.fields["success"] == JBool(false);
  }

  /**
   * The alerted text as evidently intended: field errors first, then the
   * server's message or error, then the first key's error, then the generic
   * text.
   */
  function ErrorMessage(data: Option<Json>, keys: seq<string>): (r: string)
    requires data.Some? ==> KeysOf(data.value, keys)
    ensures data.None? || data.value == JNull ==> r == RegisterFailedText
    ensures data.Some? && data.value != JNull && ValidationText(data.value).None? && ServerText(data.value).Some? ==>
      r == ServerText(data.value).value
  {
    if data.None? || data.value == JNull then RegisterFailedText
    else
      var d := data.value;
      if ValidationText(d).Some? then ValidationText(d).value
      else if ServerText(d).Some? then ServerText(d).value
      else FirstKeyText(d, keys).GetOr(RegisterFailedText)
  }

  /** The two differ only on bodies that carry a message or an error. */
  lemma CorrectedAgreesElsewhere(data: Option<Json>, keys: seq<string>)
    requires data.Some? ==> KeysOf(data.value, keys)
    requires data.Some? ==> ServerText(data.value).None? || ValidationText(data.value).Some?
    ensures ErrorMessage(data, keys) == ErrorMessageAsWritten(data, keys)
  {
  }

  datatype RegisterOutcome = Registered | Failed(text: string)

  /** `response.ok && data.success`, else the alerted text. */
  function RegisterOutcomeOf(ok: bool, data: Option<Json>, keys: seq<string>): (r: RegisterOutcome)
    requires data.Some? ==> KeysOf(data.value, keys)
    ensures r.Registered? <==> ok && data.Some? && JsTruthy(LahzaCheckout.Field(data.value, "success"))
    ensures r.Failed? ==> r.text == ErrorMessage(data, keys)
  {
    if ok && data.Some? && JsTruthy(LahzaCheckout.Field(data.value, "success")) then Registered
    else Failed(ErrorMessage(data, keys))
  }

  /** The registration form's three inputs. */
  class RegistrationForm {
    var name: string
    var email: string
    var phone: string

    constructor(name0: string, email0: string, phone0: string)
      ensures name == name0 && email == email0 && phone == phone0
    {
      name, email, phone := name0, email0, phone0;
    }

    /** The submit: posts the trimmed inputs; a registration clears all three inputs. */
    method Submit(ok: bool, data: Option<Json>, keys: seq<string>) returns (sent: Registration, outcome: RegisterOutcome)
      requires data.Some? ==> KeysOf(data.value, keys)
      modifies this
      ensures sent == RegistrationPayload(old(name), old(email), old(phone))
      ensures outcome == RegisterOutcomeOf(ok, data, keys)
      ensures (name, email, phone) == if outcome.Registered? then ("", "", "") else old((name, email, phone))
    {
      sent := RegistrationPayload(name, email, phone);
      outcome := RegisterOutcomeOf(ok, data, keys);
      ClearIf(outcome.Registered?);
    }

    /** form.reset() after a registration. */
    method ClearIf(registered: bool)
      modifies this
      ensures (name, email, phone) == if registered then ("", "", "") else old((name, email, phone))
    {
      name, email, phone := if registered then "" else name, if registered then "" else email,
                            if registered then "" else phone;
    }
  }
}
