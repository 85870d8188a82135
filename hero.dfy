/** The hero banner of src/components/hero-video-with-promotions.tsx: every five
    seconds it alternates between the restaurant slide and the promotion slides. */
module HeroCarousel {
  import opened Common
  import opened Promotions

  /** The two pieces of component state the rotation drives. */
  datatype CarouselState = CarouselState(isPromotion: bool, currentIndex: nat)

  const Start := CarouselState(false, 0)

  /** One interval tick with `n` promotions loaded. From the restaurant slide it moves
      to the first promotion; from a promotion it moves to the next one, and after the
      last one back to the restaurant slide with the index reset. */
  function Step(s: CarouselState, n: nat): (t: CarouselState)
    ensures !s.isPromotion ==> t == CarouselState(true, 0)
    ensures s.isPromotion && s.currentIndex + 1 < n ==> t == CarouselState(true, s.currentIndex + 1)
    ensures s.isPromotion && s.currentIndex + 1 >= n ==> t == Start
    ensures n > 0 && t.isPromotion ==> 0 <= t.currentIndex < n
  {
    if s.isPromotion then
      var next := s.currentIndex + 1;
      CarouselState(next < n, if next >= n then 0 else next)
    else
      CarouselState(true, 0)
  }

  /** `k` ticks in a row. */
  function Iterate(s: CarouselState, k: nat, n: nat): CarouselState
    decreases k
  {
    if k == 0 then s else Iterate(Step(s, n), k - 1, n)
  }

  /** After any number of ticks, a promotion slide always points at a loaded promotion. */
  lemma {:induction false} IterateInRange(s: CarouselState, k: nat, n: nat)
    requires n > 0 && k > 0
    ensures Iterate(s, k, n).isPromotion ==> 0 <= Iterate(s, k, n).currentIndex < n
    decreases k
  {
    if k > 1 {
      IterateInRange(Step(s, n), k - 1, n);
    }
  }

  /** From promotion `i`, `k` more ticks that stay within the list show promotion `i + k`. */
  lemma {:induction false} WalkPromotions(i: nat, k: nat, n: nat)
    requires i + k < n
    ensures Iterate(CarouselState(true, i), k, n) == CarouselState(true, i + k)
    decreases k
  {
    if k > 0 {
      WalkPromotions(i + 1, k - 1, n);
    }
  }

  /** Starting on the restaurant slide, tick `k` (for 1 <= k <= n) shows promotion k - 1. */
  lemma ShowsEachPromotion(k: nat, n: nat)
    requires 1 <= k <= n
    ensures Iterate(Start, k, n) == CarouselState(true, k - 1)
  {
    WalkPromotions(0, k - 1, n);
  }

  /** One full cycle takes n + 1 ticks: the restaurant slide and each promotion once. */
  lemma CycleReturnsToStart(n: nat)
    requires n > 0
    ensures Iterate(Start, n + 1, n) == Start
  {
    WalkPromotions(0, n - 1, n);
    assert Iterate(Start, n, n) == CarouselState(true, n - 1);
    IterateSplit(Start, n, 1, n);
  }

  lemma {:induction false} IterateSplit(s: CarouselState, a: nat, b: nat, n: nat)
    ensures Iterate(s, a + b, n) == Iterate(Iterate(s, a, n), b, n)
    decreases a
  {
    if a > 0 {
      IterateSplit(Step(s, n), a - 1, b, n);
    }
  }

  /** What the banner shows: the restaurant text, a promotion, or (when the index is
      past the list) nothing in the text column. */
  datatype Slide = RestaurantSlide | PromotionSlide(promotion: Promotion) | EmptySlide

  function Shown(s: CarouselState, promos: seq<Promotion>): (r: Slide)
    ensures !s.isPromotion <==> r == RestaurantSlide
    ensures r.PromotionSlide? ==> 0 <= s.currentIndex < |promos| && r.promotion == promos[s.currentIndex]
  {
    if !s.isPromotion then RestaurantSlide
    else if 0 <= s.currentIndex < |promos| then PromotionSlide(promos[s.currentIndex])
    else EmptySlide
  }

  /** With promotions loaded, the slide after a tick is never empty. */
  lemma TickNeverEmpty(s: CarouselState, promos: seq<Promotion>)
    requires promos != []
    ensures Shown(Step(s, |promos|), promos) != EmptySlide
  {
  }

  /** The big discount label: the value followed by '%' for a percentage promotion and
      by '€' otherwise. `show` is JavaScript's number-to-text conversion. */
  function DiscountLabel(p: Promotion, show: real -> string): (r: string)
    ensures |r| == |show(p.discountValue)| + 1
    ensures r[..|r| - 1] == show(p.discountValue)
    ensures r[|r| - 1] == '%' <==> p.discountType == Percentage
    ensures r[|r| - 1] == '€' <==> p.discountType != Percentage
  {
    show(p.discountValue) + (if p.discountType == Percentage then "%" else "€")
  }

  /** The promotion title in the current language. */
  function PromotionTitle(p: Promotion, finnish: bool): (r: string)
    ensures finnish ==> r == p.name
    ensures !finnish ==> r == p.nameEn
  {
    if finnish then p.name else p.nameEn
  }

  /** The rotation as the component holds it: the state, the list the effect last saw,
      and whether its interval is running. */
  class HeroRotation {
    var isPromotion: bool
    var currentIndex: nat
    var promotions: seq<Promotion>
    var timerRunning: bool

    function State(): CarouselState
      reads this
    {
      CarouselState(isPromotion, currentIndex)
    }

    constructor ()
      ensures State() == Start && promotions == [] && !timerRunning
    {
      isPromotion := false;
      currentIndex := 0;
      promotions := [];
      timerRunning := false;
    }

    /** The effect run when the promotion list changes: without promotions the restaurant
        slide is forced and no interval runs; otherwise an interval starts. The index is
        left as it was. */
    method SetPromotions(data: Option<seq<Promotion>>)
      modifies this
      ensures data.None? || data.value == [] ==>
        !isPromotion && !timerRunning && currentIndex == old(currentIndex) && promotions == []
      ensures data.Some? && data.value != [] ==>
        State() == old(State()) && timerRunning && promotions == data.value
    {
      if data.None? || |data.value| == 0 {
        isPromotion := false;
        timerRunning := false;
        promotions := [];
        return;
      }
      promotions := data.value;
      timerRunning := true;
    }

    /** One five-second tick of the interval. */
    method Tick()
      requires timerRunning
      modifies this`isPromotion, this`currentIndex
      ensures State() == Step(old(State()), |promotions|)
    {
      if isPromotion {
        var next := currentIndex + 1;
        isPromotion := next < |promotions|;
        currentIndex := if next >= |promotions| then 0 else next;
      } else {
        currentIndex := 0;
        isPromotion := true;
      }
    }
  }
}
