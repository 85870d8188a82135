/** The menu page of src/pages/menu.tsx: which promotion an item gets, which items
    are listed, how they are grouped, and the ordering gate with the handlers it blocks. */
module MenuPage {
  import opened Common
  import opened Text
  import opened Promotions
  import opened RestaurantSettings

  /** Fields a promotion adds to an item (the source renders the two prices with
      `toFixed(2)`; here they stay exact). */
  datatype PromotionFields = PromotionFields(
    promotionalPrice: real,
    promotionDiscount: real,
    promotionPercentage: int,
    activePromotion: Promotion)

  /** A menu item; `offerPrice` is present when its column holds a non-empty price. */
  datatype MenuItem = MenuItem(
    id: int,
    name: string,
    nameEn: Option<string>,
    categoryId: Option<int>,
    price: real,
    offerPrice: Option<real>,
    isAvailable: bool,
    branchId: Option<int>,
    promotion: Option<PromotionFields>)

  datatype Branch = Branch(id: int, name: string)

  datatype Category = Category(id: int, name: string)

  /** The category selector: "all", or one category id. */
  datatype CategoryFilter = AllCategories | OnlyCategory(id: int)

  // ---------------------------------------------------------------------------
  // Promotions on items
  // ---------------------------------------------------------------------------

  /** A promotion applies to an item when its category is unset or the item's, and
      its branch is unset, no branch is selected, or it is the selected branch. */
  predicate PromotionApplies(p: Promotion, item: MenuItem, selectedBranch: Option<int>)
  {
    && (!IntTruthy(p.categoryId) || p.categoryId == item.categoryId)
    && (!IntTruthy(p.branchId) || !IntTruthy(selectedBranch) || p.branchId == selectedBranch)
  }

  /** The promotions that apply to an item, in list order. The first one is the first
      applicable promotion of the list. */
  function Applicable(promos: seq<Promotion>, item: MenuItem, selectedBranch: Option<int>): (r: seq<Promotion>)
    ensures |r| <= |promos|
    ensures forall p :: p in r <==> p in promos && PromotionApplies(p, item, selectedBranch)
    ensures r != [] ==> exists k :: (0 <= k < |promos| && promos[k] == r[0]
      && forall j | 0 <= j < k :: !PromotionApplies(promos[j], item, selectedBranch))
    ensures r == [] ==> forall j | 0 <= j < |promos| :: !PromotionApplies(promos[j], item, selectedBranch)
  {
    if promos == [] then []
    else
      var rest := Applicable(promos[1..], item, selectedBranch);
      if PromotionApplies(promos[0], item, selectedBranch) then
        [promos[0]] + rest
      else
        assert rest != [] ==> exists k :: (1 <= k < |promos| && promos[k] == rest[0]
          && forall j | 0 <= j < k :: !PromotionApplies(promos[j], item, selectedBranch)) by {
          if rest != [] {
            var k :| 0 <= k < |promos[1..]| && promos[1..][k] == rest[0]
              && forall j | 0 <= j < k :: !PromotionApplies(promos[1..][j], item, selectedBranch);
            assert promos[k + 1] == rest[0];
            assert forall j | 0 <= j < k + 1 :: !PromotionApplies(promos[j], item, selectedBranch) by {
              forall j | 0 <= j < k + 1 ensures !PromotionApplies(promos[j], item, selectedBranch) {
                if j > 0 { assert promos[j] == promos[1..][j - 1]; }
              }
            }
          }
        }
        rest
  }

  /** Filtering keeps the descending `discount_value` order. */
  lemma {:induction false} ApplicableSorted(promos: seq<Promotion>, item: MenuItem, selectedBranch: Option<int>)
    requires SortedByValueDesc(promos)
    ensures SortedByValueDesc(Applicable(promos, item, selectedBranch))
  {
    if promos != [] {
      assert SortedByValueDesc(promos[1..]);
      ApplicableSorted(promos[1..], item, selectedBranch);
      var rest := Applicable(promos[1..], item, selectedBranch);
      if PromotionApplies(promos[0], item, selectedBranch) {
        var r := [promos[0]] + rest;
        forall i, j | 0 <= i < j < |r| ensures r[i].discountValue >= r[j].discountValue {
          if i == 0 {
            assert r[j] in promos[1..];
          }
        }
      }
    }
  }

  /** Since the list arrives sorted by `discount_value` descending, taking the first
      applicable promotion takes one with the largest value among the applicable ones. */
  lemma BestPromotionIsLargest(promos: seq<Promotion>, item: MenuItem, selectedBranch: Option<int>, q: Promotion)
    requires SortedByValueDesc(promos)
    requires q in promos && PromotionApplies(q, item, selectedBranch)
    ensures Applicable(promos, item, selectedBranch) != []
    ensures Applicable(promos, item, selectedBranch)[0].discountValue >= q.discountValue
  {
    var r := Applicable(promos, item, selectedBranch);
    ApplicableSorted(promos, item, selectedBranch);
    assert q in r;
  }

  /** `parseFloat(item.offerPrice || item.price)`. */
  function BasePrice(item: MenuItem): real
  {
    if item.offerPrice.Some? then item.offerPrice.value else item.price
  }

  /** `Math.round`: nearest integer, halves rounded up. */
  function Round(x: real): (n: int)
    ensures x - 0.5 < n as real <= x + 0.5
  {
    (x + 0.5).Floor
  }

  lemma RatioInUnit(a: real, b: real)
    requires 0.0 < a <= b
    ensures 0.0 < a / b <= 1.0
  {
    var q := a / b;
    assert q * b == a;
  }

  /** One item of `itemsWithPromotions`: the first applicable promotion is priced on the
      item's base price without an order total; the item gains the promotion fields
      only when that discount is positive, and is otherwise returned unchanged. */
  function WithPromotion(item: MenuItem, promos: seq<Promotion>, selectedBranch: Option<int>): (r: MenuItem)
    ensures r.(promotion := item.promotion) == item
    ensures r.promotion.None? ==> r == item
    ensures r != item ==>
      var applicable := Applicable(promos, item, selectedBranch);
      var f := r.promotion.value;
      && applicable != []
      && f.activePromotion == applicable[0]
      && f.promotionDiscount == CalculateDiscount(BasePrice(item), applicable[0], None)
      && 0.0 < f.promotionDiscount <= BasePrice(item)
      && f.promotionalPrice == BasePrice(item) - f.promotionDiscount
      && 0.0 <= f.promotionalPrice < BasePrice(item)
      && 0 <= f.promotionPercentage <= 100
      && f.promotionPercentage == Round(f.promotionDiscount / BasePrice(item) * 100.0)
    ensures var applicable := Applicable(promos, item, selectedBranch);
      (applicable == [] || CalculateDiscount(BasePrice(item), applicable[0], None) <= 0.0) ==> r == item
    ensures var applicable := Applicable(promos, item, selectedBranch);
      (applicable != [] && CalculateDiscount(BasePrice(item), applicable[0], None) > 0.0) ==> r.promotion.Some?
  {
    var applicable := Applicable(promos, item, selectedBranch);
    if applicable == [] then item
    else
      var best := applicable[0];
      var base := BasePrice(item);
      var discount := CalculateDiscount(base, best, None);
      if discount > 0.0 then
        assert !BelowMinimumOrder(best, None);
        assert base > 0.0;
        var ratio := discount / base;
        RatioInUnit(discount, base);
        item.(promotion := Some(PromotionFields(base - discount, discount, Round(ratio * 100.0), best)))
      else item
  }

  /** `itemsWithPromotions`: no items gives none; no promotion list leaves the items
      as they are; otherwise each item in place gets at most one promotion (no stacking). */
  function ItemsWithPromotions(items: Option<seq<MenuItem>>, promos: Option<seq<Promotion>>, selectedBranch: Option<int>)
    : (r: seq<MenuItem>)
    ensures items.None? ==> r == []
    ensures items.Some? && promos.None? ==> r == items.value
    ensures items.Some? ==> |r| == |items.value|
    ensures items.Some? ==> forall i | 0 <= i < |r| :: r[i].(promotion := items.value[i].promotion) == items.value[i]
    ensures items.Some? && promos.Some? ==> forall i | 0 <= i < |r| ::
      r[i] == WithPromotion(items.value[i], promos.value, selectedBranch)
  {
    if items.None? then []
    else if promos.None? then items.value
    else
      var xs := items.value;
      seq(|xs|, i requires 0 <= i < |xs| => WithPromotion(xs[i], promos.value, selectedBranch))
  }

  /** An item the popular strip may show: available, with a promotional or an offer price. */
  predicate Qualifies(x: MenuItem)
  {
    x.isAvailable && (x.promotion.Some? || x.offerPrice.Some?)
  }

  /** `popularItems`: the first four qualifying items, in list order. */
  function PopularItems(items: seq<MenuItem>): (r: seq<MenuItem>)
    ensures |r| == if |Popular(items)| < 4 then |Popular(items)| else 4
    ensures r == Popular(items)[..|r|]
    ensures forall x | x in r :: x in items && Qualifies(x)
  {
    var popular := Popular(items);
    if |popular| <= 4 then popular else popular[..4]
  }

  /** The qualifying items, in list order. */
  function Popular(items: seq<MenuItem>): (r: seq<MenuItem>)
    ensures |r| <= |items|
    ensures forall x :: x in r <==> x in items && Qualifies(x)
  {
    if items == [] then []
    else if Qualifies(items[0]) then [items[0]] + Popular(items[1..])
    else Popular(items[1..])
  }

  /** The qualifying items of a concatenation are those of each part, in order. */
  lemma {:induction false} PopularAppend(a: seq<MenuItem>, b: seq<MenuItem>)
    ensures Popular(a + b) == Popular(a) + Popular(b)
  {
    if a == [] {
      assert a + b == b;
    } else {
      assert (a + b)[0] == a[0];
      assert (a + b)[1..] == a[1..] + b;
      PopularAppend(a[1..], b);
    }
  }

  /** Once four qualifying items have been seen, later items never reach the strip. */
  lemma LaterItemsDoNotDisplace(a: seq<MenuItem>, b: seq<MenuItem>)
    requires |Popular(a)| >= 4
    ensures PopularItems(a + b) == PopularItems(a)
  {
    PopularAppend(a, b);
    assert (Popular(a) + Popular(b))[..4] == Popular(a)[..4];
  }

  // ---------------------------------------------------------------------------
  // Filtering and grouping
  // ---------------------------------------------------------------------------

  predicate MatchesCategory(item: MenuItem, selected: CategoryFilter)
  {
    selected.AllCategories? || item.categoryId == Some(selected.id)
  }

  /** Case-insensitive substring search on the Finnish and the English name. */
  predicate MatchesSearch(item: MenuItem, term: string)
  {
    || term == ""
    || Contains(Lower(item.name), Lower(term))
    || (item.nameEn.Some? && Contains(Lower(item.nameEn.value), Lower(term)))
  }

  /** `branches?.find(b => b.id === id)`. */
  function FindBranch(branches: Option<seq<Branch>>, id: int): (r: Option<Branch>)
    ensures r.Some? ==> branches.Some? && r.value in branches.value && r.value.id == id
    ensures r.None? && branches.Some? ==> forall b | b in branches.value :: b.id != id
  {
    if branches.None? then None else Find(branches.value, id)
  }

  function Find(bs: seq<Branch>, id: int): (r: Option<Branch>)
    ensures r.Some? ==> r.value in bs && r.value.id == id
    ensures r.None? ==> forall b | b in bs :: b.id != id
    ensures r.Some? ==> exists k :: (0 <= k < |bs| && bs[k] == r.value && forall j | 0 <= j < k :: bs[j].id != id)
  {
    if bs == [] then None
    else if bs[0].id == id then Some(bs[0])
    else
      var r := Find(bs[1..], id);
      assert r.Some? ==> exists k :: (0 <= k < |bs| && bs[k] == r.value && forall j | 0 <= j < k :: bs[j].id != id) by {
        if r.Some? {
          var k :| 0 <= k < |bs[1..]| && bs[1..][k] == r.value && forall j | 0 <= j < k :: bs[1..][j].id != id;
          assert bs[k + 1] == r.value;
          assert forall j | 0 <= j < k + 1 :: bs[j].id != id by {
            forall j | 0 <= j < k + 1 ensures bs[j].id != id {
              if j > 0 { assert bs[j] == bs[1..][j - 1]; }
            }
          }
        }
      }
      r
  }

  /** The branch rule of `filteredItems`. With no branch selected, an item of a branch
      is listed only when that branch is known and taking orders. */
  predicate MatchesBranch(item: MenuItem, selectedBranch: Option<int>, branches: Option<seq<Branch>>,
                          orderingAvailable: Branch -> bool)
  {
    if selectedBranch.None? then
      item.branchId.None?
      || (FindBranch(branches, item.branchId.value).Some?
          && orderingAvailable(FindBranch(branches, item.branchId.value).value))
    else
      item.branchId.None? || item.branchId == selectedBranch
  }

  predicate Listed(item: MenuItem, selected: CategoryFilter, term: string, selectedBranch: Option<int>,
                   branches: Option<seq<Branch>>, orderingAvailable: Branch -> bool)
  {
    && item.isAvailable
    && MatchesCategory(item, selected)
    && MatchesSearch(item, term)
    && MatchesBranch(item, selectedBranch, branches, orderingAvailable)
  }

  /** `filteredItems`: exactly the listed items, in their order. */
  function FilteredItems(items: seq<MenuItem>, selected: CategoryFilter, term: string, selectedBranch: Option<int>,
                         branches: Option<seq<Branch>>, orderingAvailable: Branch -> bool): (r: seq<MenuItem>)
    ensures |r| <= |items|
    ensures forall x :: x in r <==> x in items && Listed(x, selected, term, selectedBranch, branches, orderingAvailable)
    ensures forall x | x in r :: x.isAvailable && MatchesCategory(x, selected) && MatchesSearch(x, term)
  {
    if items == [] then []
    else
      var rest := FilteredItems(items[1..], selected, term, selectedBranch, branches, orderingAvailable);
      if Listed(items[0], selected, term, selectedBranch, branches, orderingAvailable) then [items[0]] + rest
      else rest
  }

  /** Filtering a concatenation filters each part and keeps their order. */
  lemma {:induction false} FilteredItemsAppend(a: seq<MenuItem>, b: seq<MenuItem>, selected: CategoryFilter, term: string,
                                               selectedBranch: Option<int>, branches: Option<seq<Branch>>,
                                               orderingAvailable: Branch -> bool)
    ensures FilteredItems(a + b, selected, term, selectedBranch, branches, orderingAvailable)
      == FilteredItems(a, selected, term, selectedBranch, branches, orderingAvailable)
         + FilteredItems(b, selected, term, selectedBranch, branches, orderingAvailable)
  {
    if a == [] {
      assert a + b == b;
    } else {
      assert (a + b)[0] == a[0];
      assert (a + b)[1..] == a[1..] + b;
      FilteredItemsAppend(a[1..], b, selected, term, selectedBranch, branches, orderingAvailable);
    }
  }

  /** The branch rule, read off the filtered list: with no branch selected an item of a
      branch survives only if that branch exists and takes orders; with a branch
      selected, only items of no branch or of that branch survive. */
  lemma FilteredBranchRule(items: seq<MenuItem>, selected: CategoryFilter, term: string, selectedBranch: Option<int>,
                           branches: Option<seq<Branch>>, orderingAvailable: Branch -> bool, x: MenuItem)
    requires x in FilteredItems(items, selected, term, selectedBranch, branches, orderingAvailable)
    ensures selectedBranch.None? && x.branchId.Some? ==>
      exists b :: branches.Some? && b in branches.value && b.id == x.branchId.value && orderingAvailable(b)
    ensures selectedBranch.Some? ==> x.branchId.None? || x.branchId == selectedBranch
  {
    if selectedBranch.None? && x.branchId.Some? {
      var b := FindBranch(branches, x.branchId.value).value;
      assert b in branches.value && b.id == x.branchId.value && orderingAvailable(b);
    }
  }

  /** The filtered items of one category, in order. */
  function InCategory(items: seq<MenuItem>, id: int): (r: seq<MenuItem>)
    ensures forall x :: x in r <==> x in items && x.categoryId == Some(id)
    ensures r == [] <==> forall x | x in items :: x.categoryId != Some(id)
  {
    if items == [] then []
    else if items[0].categoryId == Some(id) then [items[0]] + InCategory(items[1..], id)
    else InCategory(items[1..], id)
  }

  /** `itemsByCategory`. In "all" mode each known category that has items gets exactly
      its items and no group is empty; otherwise the one selected key holds all items. */
  method ItemsByCategory(categories: Option<seq<Category>>, filtered: seq<MenuItem>, selected: CategoryFilter)
    returns (grouped: map<int, seq<MenuItem>>)
    ensures categories.None? ==> grouped == map[]
    ensures categories.Some? && selected.OnlyCategory? ==> grouped == map[selected.id := filtered]
    ensures categories.Some? && selected.AllCategories? ==>
      && (forall k :: k in grouped <==>
            (exists c :: c in categories.value && c.id == k) && InCategory(filtered, k) != [])
      && (forall k | k in grouped :: grouped[k] == InCategory(filtered, k) && grouped[k] != [])
  {
    grouped := map[];
    if categories.None? {
      return;
    }
    var cats := categories.value;
    if selected.AllCategories? {
      for i := 0 to |cats|
        invariant forall k :: k in grouped <==>
          (exists c :: c in cats[..i] && c.id == k) && InCategory(filtered, k) != []
        invariant forall k | k in grouped :: grouped[k] == InCategory(filtered, k)
      {
        var items := InCategory(filtered, cats[i].id);
        if |items| > 0 {
          grouped := grouped[cats[i].id := items];
        }
        assert cats[..i + 1] == cats[..i] + [cats[i]];
      }
      assert cats[..|cats|] == cats;
    } else {
      grouped := grouped[selected.id := filtered];
    }
  }

  // ---------------------------------------------------------------------------
  // Ordering gate
  // ---------------------------------------------------------------------------

  /** What one run of `checkOrderingStatus` decides. */
  datatype Gate = Gate(available: bool, showClosedModal: bool)

  /** `checkOrderingStatus`: the admin open flag wins, then the busy flag, then whether
      any branch is open; with no branches ordering is available. `anyBranchOpen` is
      the business-hours predicate. */
  function OrderingGate(config: Option<MergedConfig>, branches: Option<seq<Branch>>,
                        anyBranchOpen: seq<Branch> -> bool, showClosedModal: bool): (g: Gate)
    ensures config.Some? && config.value.isOpen ==> g == Gate(true, false)
    ensures (config.Some? && !config.value.isOpen && config.value.isBusy) ==> g == Gate(false, true)
    ensures (config.None? || (!config.value.isOpen && !config.value.isBusy)) ==>
      if branches.Some? && branches.value != [] then
        g.available == anyBranchOpen(branches.value)
        && g.showClosedModal == (showClosedModal || !anyBranchOpen(branches.value))
      else g == Gate(true, showClosedModal)
    ensures !g.available ==> g.showClosedModal
  {
    if config.Some? && config.value.isOpen then Gate(true, false)
    else if config.Some? && config.value.isBusy then Gate(false, true)
    else if branches.Some? && |branches.value| > 0 then
      var open := anyBranchOpen(branches.value);
      Gate(open, if !open && !showClosedModal then true else showClosedModal)
    else Gate(true, showClosedModal)
  }

  /** Ordering is unavailable exactly when the admin flag is off and either the
      restaurant is busy or there are branches and none is open. */
  lemma UnavailableWhen(config: Option<MergedConfig>, branches: Option<seq<Branch>>,
                        anyBranchOpen: seq<Branch> -> bool, showClosedModal: bool)
    ensures !OrderingGate(config, branches, anyBranchOpen, showClosedModal).available <==>
      !(config.Some? && config.value.isOpen)
      && ((config.Some? && config.value.isBusy)
          || (branches.Some? && branches.value != [] && !anyBranchOpen(branches.value)))
  {
  }

  /** An `addItem` request passed to the cart. */
  datatype CartRequest = CartRequest(
    item: MenuItem, quantity: int, size: Option<string>, toppings: seq<string>,
    specialInstructions: Option<string>, toppingsPrice: Option<real>, sizePrice: Option<real>)

  /** The page's modal and ordering state. */
  class MenuState {
    var isOrderingAvailable: bool
    var showClosedModal: bool
    var isCartOpen: bool
    var isCheckoutOpen: bool
    var showItemModal: bool
    var selectedItem: Option<MenuItem>
    /** The `addItem` calls made so far. */
    var cartRequests: seq<CartRequest>

    constructor ()
      ensures isOrderingAvailable && !showClosedModal && !isCartOpen && !isCheckoutOpen && !showItemModal
      ensures selectedItem == None && cartRequests == []
    {
      isOrderingAvailable := true;
      showClosedModal := false;
      isCartOpen := false;
      isCheckoutOpen := false;
      showItemModal := false;
      selectedItem := None;
      cartRequests := [];
    }

    /** One run of `checkOrderingStatus` (on mount, on a dependency change, or every minute). */
    method CheckOrderingStatus(config: Option<MergedConfig>, branches: Option<seq<Branch>>,
                               anyBranchOpen: seq<Branch> -> bool)
      modifies this`isOrderingAvailable, this`showClosedModal
      ensures Gate(isOrderingAvailable, showClosedModal)
        == OrderingGate(config, branches, anyBranchOpen, old(showClosedModal))
    {
      var g := OrderingGate(config, branches, anyBranchOpen, showClosedModal);
      isOrderingAvailable := g.available;
      showClosedModal := g.showClosedModal;
    }

    /** `handleCartOpen`: blocked while ordering is unavailable. */
    method HandleCartOpen()
      modifies this`showClosedModal, this`isCartOpen
      ensures !isOrderingAvailable ==> showClosedModal && isCartOpen == old(isCartOpen)
      ensures isOrderingAvailable ==> isCartOpen && showClosedModal == old(showClosedModal)
    {
      if !isOrderingAvailable {
        showClosedModal := true;
        return;
      }
      isCartOpen := true;
    }

    method HandleCartClose()
      modifies this`isCartOpen
      ensures !isCartOpen
    {
      isCartOpen := false;
    }

    /** `handleCheckoutOpen`: blocked while ordering is unavailable. */
    method HandleCheckoutOpen()
      modifies this`showClosedModal, this`isCheckoutOpen
      ensures !isOrderingAvailable ==> showClosedModal && isCheckoutOpen == old(isCheckoutOpen)
      ensures isOrderingAvailable ==> isCheckoutOpen && showClosedModal == old(showClosedModal)
    {
      if !isOrderingAvailable {
        showClosedModal := true;
        return;
      }
      isCheckoutOpen := true;
    }

    method HandleCheckoutClose()
      modifies this`isCheckoutOpen
      ensures !isCheckoutOpen
    {
      isCheckoutOpen := false;
    }

    method HandleBackToCart()
      modifies this`isCheckoutOpen, this`isCartOpen
      ensures !isCheckoutOpen && isCartOpen
    {
      isCheckoutOpen := false;
      isCartOpen := true;
    }

    /** `handleItemClick`: blocked while ordering is unavailable. */
    method HandleItemClick(item: MenuItem)
      modifies this`showClosedModal, this`selectedItem, this`showItemModal
      ensures !isOrderingAvailable ==>
        showClosedModal && selectedItem == old(selectedItem) && showItemModal == old(showItemModal)
      ensures isOrderingAvailable ==>
        selectedItem == Some(item) && showItemModal && showClosedModal == old(showClosedModal)
    {
      if !isOrderingAvailable {
        showClosedModal := true;
        return;
      }
      selectedItem := Some(item);
      showItemModal := true;
    }

    /** `handleAddToCart`: blocked while ordering is unavailable; otherwise the item goes
        to the cart and the item modal closes. */
    method HandleAddToCart(request: CartRequest)
      modifies this`showClosedModal, this`cartRequests, this`showItemModal
      ensures !isOrderingAvailable ==>
        showClosedModal && cartRequests == old(cartRequests) && showItemModal == old(showItemModal)
      ensures isOrderingAvailable ==>
        cartRequests == old(cartRequests) + [request] && !showItemModal && showClosedModal == old(showClosedModal)
    {
      if !isOrderingAvailable {
        showClosedModal := true;
        return;
      }
      cartRequests := cartRequests + [request];
      showItemModal := false;
    }
  }
}
