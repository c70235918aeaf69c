/**
 * The Lahza popup shared by the payment and packages pages: the body they
 * post to their initialise endpoint, and the status polling they run while
 * the checkout is open in their iframe.  Every tick increments the poll
 * count and asks the back end for the payment's status; a paid reply
 * redirects to the success page, a failed or cancelled one closes the popup,
 * and after sixty ticks the polling gives up.  Each tick's reply is an input;
 * the replies end early when the popup is closed, which clears the interval.
 */
module PaymentPolling {
  import opened Wrappers
  import opened Json
  import opened FormRules

  /** The JSON body posted to an initialise endpoint; address is absent from the packages popup's body. */
  datatype InitializeRequest = InitializeRequest(
    email: string, amount: int, currency: string, firstName: string, lastName: string, mobile: string,
    address: Option<string>, offerType: string, offerName: string, source: string, recaptchaToken: string)

  /** The initialise reply: unreachable, not OK, or the JSON's success flag, checkout URL and reference. */
  datatype InitReply = InitUnreachable | InitNotOk | InitData(success: bool, authorizationUrl: string, reference: string)

  /** `data.success && data.authorization_url && data.reference`. */
  predicate InitSucceeded(reply: InitReply)
  {
    reply.InitData? && reply.success && reply.authorizationUrl != "" && reply.reference != ""
  }

  datatype SubmitResult =
    | FieldRejected(error: PaymentFieldError)
    | InitFailed(body: InitializeRequest)
    | IframeOpened(body: InitializeRequest, url: string, reference: string)

  /**
   * The user form's submit: a failing field alerts and sends nothing;
   * otherwise the body is posted, and a successful reply opens its checkout
   * URL in the iframe and yields the reference to monitor, while any other
   * reply restores the button after a generic alert.
   */
  function SubmitOutcome(fieldError: Option<PaymentFieldError>, body: InitializeRequest, reply: InitReply): (r: SubmitResult)
    ensures r.FieldRejected? <==> fieldError.Some?
    ensures r.FieldRejected? ==> r.error == fieldError.value
    ensures r.IframeOpened? <==> fieldError.None? && InitSucceeded(reply)
    ensures !r.FieldRejected? ==> r.body == body
    ensures r.IframeOpened? ==> r.url == reply.authorizationUrl && r.reference == reply.reference && r.reference != ""
  {
    if fieldError.Some? then FieldRejected(fieldError.value)
    else if InitSucceeded(reply) then IframeOpened(body, reply.authorizationUrl, reply.reference)
    else InitFailed(body)
  }

  const MaxPolls: nat := 60

  /** One verify reply: unreachable (fetch or JSON parsing threw), not OK, or the JSON's success and status. */
  datatype PollReply = PollUnreachable | PollNotOk | PollData(success: Json, status: Json)

  datatype PollVerdict = KeepPolling | PaidVerdict | FailedVerdict

  /** `data.success && data.status === 'success'`, else `status === 'failed' || 'cancelled'`. */
  function Verdict(reply: PollReply): PollVerdict
  {
    match reply
    case PollData(success, status) =>
      if JsTruthy(success) && status == JStr("success") then PaidVerdict
      else if status == JStr("failed") || status == JStr("cancelled") then FailedVerdict
      else KeepPolling
    case _ => KeepPolling
  }

  /** The index of the first reply that ends the polling, or |replies| when none does. */
  function FirstDecisive(replies: seq<PollReply>): (i: nat)
    ensures i <= |replies|
    ensures forall j :: 0 <= j < i ==> Verdict(replies[j]) == KeepPolling
    ensures i < |replies| ==> Verdict(replies[i]) != KeepPolling
  {
    if |replies| == 0 then 0
    else if Verdict(replies[0]) != KeepPolling then 0
    else 1 + FirstDecisive(replies[1..])
  }

  datatype MonitorOutcome =
    | NotMonitored
    | Paid(polls: nat, redirect: string)
    | PaymentFailed(polls: nat)
    | TimedOut
    | PopupClosed(polls: nat)

  /**
   * What the polling ends in for the replies its ticks receive: the first
   * decisive reply within sixty ticks, else the timeout, else (the replies
   * having run out first) the popup's closing.
   */
  function MonitorSpec(replies: seq<PollReply>, reference: string, successPrefix: string): (o: MonitorOutcome)
    ensures o.Paid? || o.PaymentFailed? ==> 1 <= o.polls <= MaxPolls && o.polls <= |replies|
    ensures o.Paid? <==> FirstDecisive(replies) < MaxPolls && FirstDecisive(replies) < |replies|
                         && Verdict(replies[FirstDecisive(replies)]) == PaidVerdict
    ensures o.PopupClosed? ==> o.polls == |replies| < MaxPolls
    ensures o.TimedOut? ==> |replies| >= MaxPolls
    ensures !o.NotMonitored?
  {
    var i := FirstDecisive(replies);
    if i < MaxPolls && i < |replies| then
      if Verdict(replies[i]) == PaidVerdict then Paid(i + 1, successPrefix + reference + "/") else PaymentFailed(i + 1)
    else if |replies| >= MaxPolls then TimedOut
    else PopupClosed(|replies|)
  }

  /**
   * startIframeMonitoring's interval: nothing without a reference; otherwise
   * one verify request per tick until a decisive reply, sixty ticks, or the
   * popup's closing.
   */
  method MonitorPayment(reference: string, replies: seq<PollReply>, successPrefix: string) returns (outcome: MonitorOutcome)
    ensures reference == "" ==> outcome == NotMonitored
    ensures reference != "" ==> outcome == MonitorSpec(replies, reference, successPrefix)
  {
    if reference == "" {
      return NotMonitored;
    }
    var pollCount := 0;
    while pollCount < |replies|
      invariant 0 <= pollCount <= |replies| && pollCount < MaxPolls
      invariant forall j :: 0 <= j < pollCount ==> Verdict(replies[j]) == KeepPolling
    {
      var verdict := Verdict(replies[pollCount]);
      pollCount := pollCount + 1;
      if verdict == PaidVerdict {
        assert FirstDecisive(replies) == pollCount - 1;
        return Paid(pollCount, successPrefix + reference + "/");
      } else if verdict == FailedVerdict {
        assert FirstDecisive(replies) == pollCount - 1;
        return PaymentFailed(pollCount);
      }
      if pollCount >= MaxPolls {
        assert FirstDecisive(replies) >= MaxPolls;
        return TimedOut;
      }
    }
    assert FirstDecisive(replies) == |replies|;
    return PopupClosed(pollCount);
  }

  /** A tick whose request fails behaves like any undecided reply: network errors never stop the polling. */
  lemma {:induction false} UnreachableIsUndecided(replies: seq<PollReply>, k: nat)
    requires k < |replies| && Verdict(replies[k]) == KeepPolling
    ensures FirstDecisive(replies[k := PollUnreachable]) == FirstDecisive(replies)
  {
    var changed := replies[k := PollUnreachable];
    if Verdict(replies[0]) != KeepPolling {
      assert k != 0;
    } else if k > 0 {
      assert changed[1..] == replies[1..][k - 1 := PollUnreachable];
      UnreachableIsUndecided(replies[1..], k - 1);
    } else {
      assert changed[1..] == replies[1..];
    }
  }

  /** So replacing an undecided reply by a network error never changes how the polling ends. */
  lemma UnreachableSameOutcome(replies: seq<PollReply>, k: nat, reference: string, successPrefix: string)
    requires k < |replies| && Verdict(replies[k]) == KeepPolling
    ensures MonitorSpec(replies[k := PollUnreachable], reference, successPrefix) == MonitorSpec(replies, reference, successPrefix)
  {
    UnreachableIsUndecided(replies, k);
  }

  /** Sixty unreachable ticks end in the timeout. */
  lemma {:induction false} AllUnreachableTimesOut(replies: seq<PollReply>, reference: string, successPrefix: string)
    requires |replies| >= MaxPolls
    requires forall j :: 0 <= j < |replies| ==> replies[j] == PollUnreachable
    ensures MonitorSpec(replies, reference, successPrefix) == TimedOut
  {
    assert Verdict(PollUnreachable) == KeepPolling;
    var i := FirstDecisive(replies);
    assert i == |replies|;
  }
}
