/**
 * The pricing page (new_pac): the New Year countdown that rewrites only the
 * parts that changed, the payment modal and its submit checks, the
 * carousels with one shared fallback index and a lazily created state per
 * container, and the image lightbox.  Clock readings, DOM lookups and touch
 * coordinates are inputs; a carousel container is named by a number.
 */
module PricingPage {
  import opened Wrappers
  import opened Text
  import opened Clock
  import opened FormRules
  import opened Arith

  /** `new Date("2026-01-01T00:00:00")`, taken in UTC. */
  const SaleEnd: int := NewYear(2026)

  /** JavaScript's % for a positive divisor: the remainder takes the dividend's sign. */
  function JsRem(a: int, b: int): (r: int)
    requires b > 0
    ensures a >= 0 ==> r == a % b
    ensures a < 0 ==> -b < r <= 0 && r == a + b * ((-a) / b)
  {
    if a >= 0 then a % b
    else
      assert -a == b * ((-a) / b) + (-a) % b;
      -((-a) % b)
  }

  /** initCountdown's closure: the texts of the four boxes and the parts last written. */
  class PricingCountdown {
    var daysText: string
    var hoursText: string
    var minutesText: string
    var secondsText: string
    var prevDays: int
    var prevHours: int
    var prevMinutes: int
    var prevSeconds: int

    /** Every box whose part was written shows that part, padded. */
    predicate Synced()
      reads this
    {
      (prevDays < 0 || daysText == Pad2(prevDays)) && (prevHours < 0 || hoursText == Pad2(prevHours))
      && (prevMinutes < 0 || minutesText == Pad2(prevMinutes)) && (prevSeconds < 0 || secondsText == Pad2(prevSeconds))
    }

    /** prevValues starts at -1 for every part, so the first tick writes all four boxes. */
    constructor(days: string, hours: string, minutes: string, seconds: string)
      ensures prevDays == -1 && prevHours == -1 && prevMinutes == -1 && prevSeconds == -1
      ensures daysText == days && hoursText == hours && minutesText == minutes && secondsText == seconds
      ensures Synced()
    {
      daysText, hoursText, minutesText, secondsText := days, hours, minutes, seconds;
      prevDays, prevHours, prevMinutes, prevSeconds := -1, -1, -1, -1;
    }

    /**
     * updateTimer: before the end, each part that differs from the last one
     * written is rewritten and all four are remembered; from the end on,
     * every box reads '00' and nothing is remembered.  A synced display then
     * shows exactly the remaining time.
     */
    method Tick(now: int)
      modifies this
      ensures SaleEnd - now > 0 ==>
        var p := Breakdown(SaleEnd - now);
        prevDays == p.days && prevHours == p.hours && prevMinutes == p.minutes && prevSeconds == p.seconds
        && daysText == (if p.days != old(prevDays) then Pad2(p.days) else old(daysText))
        && hoursText == (if p.hours != old(prevHours) then Pad2(p.hours) else old(hoursText))
        && minutesText == (if p.minutes != old(prevMinutes) then Pad2(p.minutes) else old(minutesText))
        && secondsText == (if p.seconds != old(prevSeconds) then Pad2(p.seconds) else old(secondsText))
      ensures SaleEnd - now > 0 && old(Synced()) ==>
        var p := Breakdown(SaleEnd - now);
        Synced() && daysText == Pad2(p.days) && hoursText == Pad2(p.hours)
        && minutesText == Pad2(p.minutes) && secondsText == Pad2(p.seconds)
      ensures SaleEnd - now <= 0 ==>
        daysText == "00" && hoursText == "00" && minutesText == "00" && secondsText == "00"
        && prevDays == old(prevDays) && prevHours == old(prevHours)
        && prevMinutes == old(prevMinutes) && prevSeconds == old(prevSeconds)
    {
      var distance := SaleEnd - now;
      if distance > 0 {
        var p := Breakdown(distance);
        if p.days != prevDays { daysText := Pad2(p.days); }
        if p.hours != prevHours { hoursText := Pad2(p.hours); }
        if p.minutes != prevMinutes { minutesText := Pad2(p.minutes); }
        if p.seconds != prevSeconds { secondsText := Pad2(p.seconds); }
        prevDays, prevHours, prevMinutes, prevSeconds := p.days, p.hours, p.minutes, p.seconds;
      } else {
        daysText, hoursText, minutesText, secondsText := "00", "00", "00", "00";
      }
    }
  }

  /** selectedPlan: type, amount and name, each null until a plan is opened. */
  datatype SelectedPlan = SelectedPlan(planType: Option<string>, amount: Option<int>, name: Option<string>)

  const NoPlan: SelectedPlan := SelectedPlan(None, None, None)

  /** `selectedPlan.type && selectedPlan.amount`. */
  predicate PlanChosen(p: SelectedPlan)
  {
    p.planType.Some? && p.planType.value != "" && p.amount.Some? && p.amount.value != 0
  }

  /** The body posted to /pricing/payment/initialize/; mobile is null for an empty phone. */
  datatype PricingRequest = PricingRequest(
    email: string, amount: int, fullName: string, mobile: Option<string>,
    offerType: string, offerName: Option<string>, source: string, currency: string)

  datatype PricingCheck = NoPlanChosen | NameRejected | EmailRejected | SendRequest(request: PricingRequest)

  /** handlePaymentSubmit's checks, in order: a chosen plan, a name of two characters, a matching e-mail. */
  function PricingSubmit(plan: SelectedPlan, fullName: string, email: string, phone: string): (r: PricingCheck)
    ensures r.NoPlanChosen? <==> !PlanChosen(plan)
    ensures r.NameRejected? <==> PlanChosen(plan) && !NameOk(Trim(fullName))
    ensures r.EmailRejected? <==> PlanChosen(plan) && NameOk(Trim(fullName)) && !EmailMatches(Trim(email))
    ensures r.SendRequest? ==>
      r.request.email == Trim(email) && r.request.fullName == Trim(fullName)
      && r.request.amount == plan.amount.value && r.request.offerType == plan.planType.value && r.request.offerName == plan.name
      && (r.request.mobile.None? <==> Trim(phone) == "") && (r.request.mobile.Some? ==> r.request.mobile.value == Trim(phone))
      && r.request.source == "pricing" && r.request.currency == "ILS"
  {
    if !PlanChosen(plan) then NoPlanChosen
    else if !NameOk(Trim(fullName)) then NameRejected
    else if !EmailMatches(Trim(email)) then EmailRejected
    else
      var mobile := if Trim(phone) == "" then None else Some(Trim(phone));
      SendRequest(PricingRequest(Trim(email), plan.amount.value, Trim(fullName), mobile,
                                 plan.planType.value, plan.name, "pricing", "ILS"))
  }

  /** The payment modal and the plan it was opened for. */
  class PaymentModal {
    var selectedPlan: SelectedPlan
    var active: bool

    constructor()
      ensures selectedPlan == NoPlan && !active
    {
      selectedPlan, active := NoPlan, false;
    }

    /** openPayment; the page's default arguments are the bundle at 666 shekels. */
    method Open(planType: string, amount: int, planName: string, modalPresent: bool)
      modifies this
      ensures selectedPlan == SelectedPlan(Some(planType), Some(amount), Some(planName))
      ensures active == (modalPresent || old(active))
    {
      selectedPlan := SelectedPlan(Some(planType), Some(amount), Some(planName));
      if modalPresent {
        active := true;
      }
    }

    /** closePaymentModal: the plan is forgotten even when the modal element is missing. */
    method Close()
      modifies this
      ensures selectedPlan == NoPlan && !active
    {
      active := false;
      selectedPlan := NoPlan;
    }

    method Submit(fullName: string, email: string, phone: string) returns (check: PricingCheck)
      ensures check == PricingSubmit(selectedPlan, fullName, email, phone)
    {
      check := PricingSubmit(selectedPlan, fullName, email, phone);
    }
  }

  /** After the modal is closed, a submit only asks for a plan; the default opening is a chosen plan. */
  lemma ClosedModalAsksForPlan(fullName: string, email: string, phone: string)
    ensures PricingSubmit(NoPlan, fullName, email, phone) == NoPlanChosen
    ensures PlanChosen(SelectedPlan(Some("bundle"), Some(666), Some("الباقة الأقوى")))
  {
  }

  /** The global carousel's fixed slide count. */
  const TotalSlides: nat := 3

  /** A container's carousel state; None stands for NaN, what % by zero slides leaves behind. */
  datatype CarouselState = CarouselState(currentSlide: Option<int>, totalSlides: nat)

  function NextIndex(c: int, total: nat): (r: Option<int>)
    ensures r.None? <==> total == 0
    ensures r.Some? && c >= -1 ==> 0 <= r.value < total
  {
    if total == 0 then None else Some(JsRem(c + 1, total))
  }

  function PrevIndex(c: int, total: nat): (r: Option<int>)
    ensures r.None? <==> total == 0
    ensures r.Some? && c >= 1 - total ==> 0 <= r.value < total
  {
    if total == 0 then None else Some(JsRem(c - 1 + total, total))
  }

  /** Inside the range, prev undoes next. */
  lemma PrevUndoesNext(c: int, total: nat)
    requires 0 <= c < total
    ensures PrevIndex(NextIndex(c, total).value, total) == Some(c)
  {
    if c + 1 < total {
      DivModUnique(c + 1, total, 0, c + 1);
      DivModUnique(c + total, total, 1, c);
    } else {
      DivModUnique(c + 1, total, 1, 0);
      DivModUnique(total - 1, total, 0, total - 1);
    }
  }

  /** Inside the range, next undoes prev. */
  lemma NextUndoesPrev(c: int, total: nat)
    requires 0 <= c < total
    ensures NextIndex(PrevIndex(c, total).value, total) == Some(c)
  {
    if c > 0 {
      DivModUnique(c - 1 + total, total, 1, c - 1);
      DivModUnique(c, total, 0, c);
    } else {
      DivModUnique(total - 1, total, 0, total - 1);
      DivModUnique(total, total, 1, 0);
    }
  }

  /** goToSlide checks no bound, and JavaScript's % keeps a far negative index negative after prev. */
  lemma PrevAfterFarGoTo(total: nat)
    requires total >= 3
    ensures PrevIndex(-(total as int) - 1, total) == Some(-2)
  {
    DivModUnique(2, total, 0, 2);
  }

  function Advance(s: CarouselState, forward: bool): (r: CarouselState)
    ensures r.totalSlides == s.totalSlides
    ensures s.currentSlide.None? ==> r.currentSlide.None?
    ensures s.currentSlide.Some? ==>
      r.currentSlide == (if forward then NextIndex(s.currentSlide.value, s.totalSlides) else PrevIndex(s.currentSlide.value, s.totalSlides))
  {
    match s.currentSlide
    case None => s
    case Some(c) => CarouselState(if forward then NextIndex(c, s.totalSlides) else PrevIndex(c, s.totalSlides), s.totalSlides)
  }

  /** A carousel's target: a container and its slide count, or None for the global fallback. */
  type Target = Option<(nat, nat)>

  /** The global index and the per-container states. */
  class Carousels {
    var currentSlide: int
    var states: map<nat, CarouselState>

    constructor()
      ensures currentSlide == 0 && states == map[]
    {
      currentSlide, states := 0, map[];
    }

    /** getCarouselState: a container seen for the first time starts at slide 0 of its slide count. */
    method StateOf(container: nat, slideCount: nat) returns (state: CarouselState)
      modifies this
      ensures container in old(states) ==> state == old(states)[container] && states == old(states)
      ensures container !in old(states) ==> state == CarouselState(Some(0), slideCount) && states == old(states)[container := state]
      ensures container in states && states[container] == state
      ensures currentSlide == old(currentSlide)
    {
      if container !in states {
        states := states[container := CarouselState(Some(0), slideCount)];
      }
      state := states[container];
    }

    /** nextSlide / prevSlide: the global index cycles through three slides; a container's state through its own. */
    method Step(target: Target, forward: bool)
      modifies this
      ensures target.None? ==>
        Some(currentSlide) == (if forward then NextIndex(old(currentSlide), TotalSlides) else PrevIndex(old(currentSlide), TotalSlides))
        && states == old(states)
      ensures target.Some? ==>
        var (id, count) := target.value;
        var before := if id in old(states) then old(states)[id] else CarouselState(Some(0), count);
        states == old(states)[id := Advance(before, forward)] && currentSlide == old(currentSlide)
    {
      if target.None? {
        if forward {
          currentSlide := JsRem(currentSlide + 1, TotalSlides);
        } else {
          currentSlide := JsRem(currentSlide - 1 + TotalSlides, TotalSlides);
        }
      } else {
        var (id, count) := target.value;
        var state := StateOf(id, count);
        states := states[id := Advance(state, forward)];
      }
    }

    /** goToSlide: the index is taken as given, with no bound check. */
    method GoTo(index: int, target: Target)
      modifies this
      ensures target.None? ==> currentSlide == index && states == old(states)
      ensures target.Some? ==>
        var (id, count) := target.value;
        var before := if id in old(states) then old(states)[id] else CarouselState(Some(0), count);
        states == old(states)[id := CarouselState(Some(index), before.totalSlides)] && currentSlide == old(currentSlide)
    {
      if target.None? {
        currentSlide := index;
      } else {
        var (id, count) := target.value;
        var state := StateOf(id, count);
        states := states[id := CarouselState(Some(index), state.totalSlides)];
      }
    }

    /**
     * handleSwipe on the global carousel: a swipe of more than 75 pixels to
     * the left moves to the next slide, one to the right to the previous
     * one, anything shorter changes nothing.
     */
    method Swipe(startX: int, endX: int)
      modifies this
      ensures states == old(states)
      ensures startX - endX > 75 ==> Some(currentSlide) == NextIndex(old(currentSlide), TotalSlides)
      ensures startX - endX < -75 ==> Some(currentSlide) == PrevIndex(old(currentSlide), TotalSlides)
      ensures -75 <= startX - endX <= 75 ==> currentSlide == old(currentSlide)
      ensures 0 <= old(currentSlide) < TotalSlides ==> 0 <= currentSlide < TotalSlides
      ensures 0 <= old(currentSlide) < TotalSlides && startX - endX < -75 ==> (currentSlide + 1) % TotalSlides == old(currentSlide)
    {
      ghost var before := currentSlide;
      if startX - endX > 75 {
        Step(None, true);
      }
      if startX - endX < -75 {
        Step(None, false);
        if 0 <= before < TotalSlides {
          NextUndoesPrev(before, TotalSlides);
        }
      }
    }
  }

  /** The distinct elements of s, in order of first occurrence (`[...new Set(s)]`). */
  function Dedup(s: seq<string>): (r: seq<string>)
    ensures |r| <= |s|
    ensures forall x :: x in r <==> x in s
    ensures forall i, j :: 0 <= i < j < |r| ==> r[i] != r[j]
  {
    if |s| == 0 then []
    else
      var d := Dedup(s[..|s| - 1]);
      assert s == s[..|s| - 1] + [s[|s| - 1]];
      if s[|s| - 1] in d then d else d + [s[|s| - 1]]
  }

  /** A dedup that drops nothing is the identity. */
  lemma {:induction false} DedupKeepingAllIsIdentity(s: seq<string>)
    requires |Dedup(s)| == |s|
    ensures Dedup(s) == s
  {
    if |s| > 0 {
      var init := s[..|s| - 1];
      var d := Dedup(init);
      if s[|s| - 1] !in d {
        DedupKeepingAllIsIdentity(init);
        assert s == init + [s[|s| - 1]];
      }
    }
  }

  /**
   * getCarouselImages: the sources of the first three clickable images of
   * the educational carousel, deduplicated when that still leaves three.
   */
  function CarouselImages(sources: Option<seq<string>>): seq<string>
  {
    if sources.None? || |sources.value| == 0 then []
    else
      var images := sources.value[..if |sources.value| < 3 then |sources.value| else 3];
      var unique := Dedup(images);
      if |unique| == 3 then unique else images
  }

  /** The deduplication never removes anything: the lightbox gets the first three sources, repeats included. */
  lemma CarouselImagesAreFirstThree(sources: seq<string>)
    ensures CarouselImages(Some(sources)) == sources[..if |sources| < 3 then |sources| else 3]
  {
    if |sources| > 0 {
      var images := sources[..if |sources| < 3 then |sources| else 3];
      if |Dedup(images)| == 3 {
        DedupKeepingAllIsIdentity(images);
      }
    }
  }

  /** The lightbox's index and visibility. */
  class Lightbox {
    var currentImageIndex: int
    var active: bool

    /** Every way of setting the index leaves it non-negative. */
    predicate Valid()
      reads this
    {
      currentImageIndex >= 0
    }

    constructor()
      ensures currentImageIndex == 0 && !active && Valid()
    {
      currentImageIndex, active := 0, false;
    }

    /** openLightbox: only an index inside the images is taken; the overlay shows when its elements exist. */
    method Open(index: int, images: seq<string>, elementsPresent: bool)
      modifies this
      ensures old(Valid()) ==> Valid()
      ensures 0 <= index < |images| ==> currentImageIndex == index && active == (elementsPresent || old(active))
      ensures !(0 <= index < |images|) ==> currentImageIndex == old(currentImageIndex) && active == old(active)
    {
      if |images| > 0 && index >= 0 && index < |images| {
        currentImageIndex := index;
        if elementsPresent {
          active := true;
        }
      }
    }

    method Close()
      modifies this
      ensures !active && currentImageIndex == old(currentImageIndex)
    {
      active := false;
    }

    /** updateLightbox's clamp: an index past the end goes to 0, a negative one to the last image. */
    method Clamp(images: seq<string>, elementsPresent: bool)
      modifies this
      ensures old(Valid()) ==> Valid()
      ensures elementsPresent && |images| > 0 ==>
        currentImageIndex == (if old(currentImageIndex) >= |images| then 0
                              else if old(currentImageIndex) < 0 then |images| - 1
                              else old(currentImageIndex))
      ensures !(elementsPresent && |images| > 0) ==> currentImageIndex == old(currentImageIndex)
      ensures active == old(active)
    {
      if elementsPresent && |images| > 0 {
        if currentImageIndex >= |images| {
          currentImageIndex := 0;
        }
        if currentImageIndex < 0 {
          currentImageIndex := |images| - 1;
        }
      }
    }

    /**
     * lightboxNext / lightboxPrev: with images, the index wraps modulo their
     * number; from a non-negative index the clamp never has anything to do.
     */
    method Step(images: seq<string>, elementsPresent: bool, forward: bool)
      requires Valid()
      modifies this
      ensures |images| > 0 && forward ==> currentImageIndex == (old(currentImageIndex) + 1) % |images|
      ensures |images| > 0 && !forward ==> currentImageIndex == (old(currentImageIndex) - 1 + |images|) % |images|
      ensures |images| == 0 ==> currentImageIndex == old(currentImageIndex)
      ensures Valid() && active == old(active)
    {
      if |images| > 0 {
        if forward {
          currentImageIndex := JsRem(currentImageIndex + 1, |images|);
        } else {
          currentImageIndex := JsRem(currentImageIndex - 1 + |images|, |images|);
        }
        Clamp(images, elementsPresent);
      }
    }

    /** handleLightboxSwipe: more than 75 pixels moves one image. */
    method Swipe(startX: int, endX: int, images: seq<string>, elementsPresent: bool)
      requires Valid()
      modifies this
      ensures |images| > 0 && startX - endX > 75 ==> currentImageIndex == (old(currentImageIndex) + 1) % |images|
      ensures |images| > 0 && startX - endX < -75 ==> currentImageIndex == (old(currentImageIndex) - 1 + |images|) % |images|
      ensures -75 <= startX - endX <= 75 || |images| == 0 ==> currentImageIndex == old(currentImageIndex)
      ensures Valid() && active == old(active)
    {
      if startX - endX > 75 {
        Step(images, elementsPresent, true);
      }
      if startX - endX < -75 {
        Step(images, elementsPresent, false);
      }
    }
  }
}
