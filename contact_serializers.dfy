/** CustomerContactCreateSerializer: the public contact form's accepted fields and WhatsApp rule. */
module ContactSerializers {
  import opened Text

  /** Meta.fields of the create serializer. */
  const CreateFields: seq<string> := ["name", "whatsapp", "goal", "city"]

  /** The two validation errors of validate_whatsapp. */
  datatype WhatsappError = WhatsappRequired | WhatsappInvalid
  {
    function Message(): string
    {
      match this
      case WhatsappRequired => "رقم الواتساب مطلوب"
      case WhatsappInvalid => "رقم الواتساب غير صحيح"
    }
  }

  datatype WhatsappResult = Accepted(number: string) | Rejected(error: WhatsappError)

  /**
   * Python's str.isdigit on the digit blocks a phone number is typed in here:
   * ASCII, Arabic-Indic, extended Arabic-Indic and full-width digits.
   */
  predicate PyIsDigit(c: char)
  {
    || '0' <= c <= '9'
    || '\U{0660}' <= c <= '\U{0669}'
    || '\U{06F0}' <= c <= '\U{06F9}'
    || '\U{FF10}' <= c <= '\U{FF19}'
  }

  predicate AllPyDigits(s: string) { forall i :: 0 <= i < |s| ==> PyIsDigit(s[i]) }

  /** ''.join(filter(str.isdigit, s)): the digits of s in their original order. */
  function PyDigits(s: string): (r: string)
    ensures AllPyDigits(r)
    ensures |r| <= |s|
  {
    if |s| == 0 then ""
    else if PyIsDigit(s[0]) then [s[0]] + PyDigits(s[1..])
    else PyDigits(s[1..])
  }

  lemma {:induction false} PyDigitsOfDigits(s: string)
    requires AllPyDigits(s)
    ensures PyDigits(s) == s
  {
    if |s| > 0 {
      PyDigitsOfDigits(s[1..]);
    }
  }

  /** On ASCII text the Python filter and the JavaScript `\D` removal agree. */
  lemma {:induction false} PyDigitsOfAscii(s: string)
    requires forall i :: 0 <= i < |s| ==> s[i] < '\U{0080}'
    ensures PyDigits(s) == Digits(s)
  {
    if |s| > 0 {
      PyDigitsOfAscii(s[1..]);
    }
  }

  /**
   * validate_whatsapp: an empty value is required-error; otherwise the digits
   * are kept in order and at least eight of them are needed.
   */
  function ValidateWhatsapp(value: string): (r: WhatsappResult)
    ensures r == Rejected(WhatsappRequired) <==> value == ""
    ensures r == Rejected(WhatsappInvalid) <==> value != "" && |PyDigits(value)| < 8
    ensures r.Accepted? ==> AllPyDigits(r.number) && |r.number| >= 8 && r.number == PyDigits(value)
  {
    if value == "" then Rejected(WhatsappRequired)
    else
      var cleaned := PyDigits(value);
      if |cleaned| < 8 then Rejected(WhatsappInvalid) else Accepted(cleaned)
  }

  /** An accepted number fed back in is accepted unchanged. */
  lemma ValidateWhatsappIdempotent(value: string)
    requires ValidateWhatsapp(value).Accepted?
    ensures ValidateWhatsapp(ValidateWhatsapp(value).number) == ValidateWhatsapp(value)
  {
    PyDigitsOfDigits(PyDigits(value));
  }

  /** Formatting never changes the outcome: inputs with the same digits are treated alike once non-empty. */
  lemma ValidateWhatsappIgnoresFormatting(a: string, b: string)
    requires a != "" && b != "" && PyDigits(a) == PyDigits(b)
    ensures ValidateWhatsapp(a) == ValidateWhatsapp(b)
  {
  }

  /** A number typed in Arabic-Indic digits is accepted as those same digits. */
  lemma ArabicIndicNumberAccepted(value: string)
    requires |value| >= 8
    requires forall i :: 0 <= i < |value| ==> '\U{0660}' <= value[i] <= '\U{0669}'
    ensures ValidateWhatsapp(value) == Accepted(value)
  {
    PyDigitsOfDigits(value);
  }
}
