/**
 * The client-side form rules shared by the payment, contact and registration
 * pages: the e-mail pattern /^[^\s@]+@[^\s@]+\.[^\s@]+$/, the two-character
 * name rule and the eight-digit mobile rule, and the order in which the
 * payment pages check them.
 */
module FormRules {
  import opened Wrappers
  import opened Text

  /** One `[^\s@]+` run. */
  predicate EmailSegment(s: string)
  {
    |s| > 0 && forall i :: 0 <= i < |s| ==> !IsSpace(s[i]) && s[i] != '@'
  }

  /** s splits as local@middle.last with '@' at index at and the '.' at index dot. */
  predicate EmailSplitAt(s: string, at: int, dot: int)
  {
    0 <= at < dot < |s| && s[at] == '@' && s[dot] == '.'
    && EmailSegment(s[..at]) && EmailSegment(s[at + 1..dot]) && EmailSegment(s[dot + 1..])
  }

  /** The regular expression /^[^\s@]+@[^\s@]+\.[^\s@]+$/ accepts s. */
  predicate EmailMatches(s: string)
  {
    exists at, dot :: 0 <= at < dot < |s| && EmailSplitAt(s, at, dot)
  }

  /** A matching address has no whitespace and exactly one '@', preceded by at least one character. */
  lemma EmailShape(s: string)
    requires EmailMatches(s)
    ensures NoSpace(s)
    ensures exists at :: 0 < at < |s| && s[at] == '@'
    ensures forall i, j :: 0 <= i < |s| && 0 <= j < |s| && s[i] == '@' && s[j] == '@' ==> i == j
  {
    var at, dot :| 0 <= at < dot < |s| && EmailSplitAt(s, at, dot);
    var l, m, r := s[..at], s[at + 1..dot], s[dot + 1..];
    assert forall i :: 0 <= i < at ==> s[i] == l[i];
    assert forall i :: at < i < dot ==> s[i] == m[i - at - 1];
    assert forall i :: dot < i < |s| ==> s[i] == r[i - dot - 1];
    assert forall i :: 0 <= i < |s| && s[i] == '@' ==> i == at;
  }

  /** Two concrete readings of the pattern. */
  lemma EmailExamples()
    ensures EmailMatches("trader@fx.global")
    ensures !EmailMatches("trader@fxglobal")
  {
    var s := "trader@fx.global";
    assert EmailSplitAt(s, 6, 9) by {
      assert s[..6] == "trader" && s[7..9] == "fx" && s[10..] == "global";
    }
    var t := "trader@fxglobal";
    assert forall i :: 0 <= i < |t| ==> t[i] != '.';
  }

  /** `!x || x.length < 2` fails: at least two characters. */
  predicate NameOk(s: string) { |s| >= 2 }

  /** At least eight digits once every non-digit is removed. */
  predicate MobileDigitsOk(s: string) { |Digits(s)| >= 8 }

  /** The rules a payment form checks, in the order it checks them. */
  datatype PaymentFieldError = FirstNameInvalid | LastNameInvalid | MobileInvalid | EmailInvalid
  {
    function Rank(): nat
    {
      match this
      case FirstNameInvalid => 0
      case LastNameInvalid => 1
      case MobileInvalid => 2
      case EmailInvalid => 3
    }
  }

  predicate Fails(e: PaymentFieldError, first: string, last: string, mobile: string, email: string)
  {
    match e
    case FirstNameInvalid => !NameOk(first)
    case LastNameInvalid => !NameOk(last)
    case MobileInvalid => !MobileDigitsOk(mobile)
    case EmailInvalid => !EmailMatches(email)
  }

  /**
   * The alert a payment form shows for trimmed inputs, or None when the form
   * goes on to initialise the payment.
   */
  function FirstPaymentFieldError(first: string, last: string, mobile: string, email: string): (r: Option<PaymentFieldError>)
    ensures r.None? <==> NameOk(first) && NameOk(last) && MobileDigitsOk(mobile) && EmailMatches(email)
    ensures r.Some? ==> Fails(r.value, first, last, mobile, email)
    ensures r.Some? ==> forall e: PaymentFieldError :: e.Rank() < r.value.Rank() ==> !Fails(e, first, last, mobile, email)
  {
    if !NameOk(first) then Some(FirstNameInvalid)
    else if !NameOk(last) then Some(LastNameInvalid)
    else if !MobileDigitsOk(mobile) then Some(MobileInvalid)
    else if !EmailMatches(email) then Some(EmailInvalid)
    else None
  }
}
