/**
 * Menu items of the canteen: stock bookkeeping, availability, the special
 * offer price, the running-average rating with its star breakdown, and the
 * per-day overrides of a daily menu.
 *
 * Money is an exact `real` (the source uses Decimal); time is seconds as an
 * `int` supplied by the caller; a nullable column whose falsy value is treated
 * like a missing one is an `Option` read through `Truthy`.
 */
module Menu {
  import opened Common

  /** The columns of a menu item that the rules below read or write. */
  datatype ItemState = ItemState(
    price: real,
    isAvailable: bool,
    dailyLimit: nat,          // 0 means unlimited
    currentStock: int,
    lowStockThreshold: nat,
    totalOrders: int,
    averageRating: real,
    totalReviews: nat,
    isSpecial: bool,
    specialPrice: Option<real>,
    specialUntil: Option<int>)

  /** Python truthiness of a nullable Decimal: None and 0 are both false. */
  predicate Truthy(o: Option<real>) { o.Some? && o.value != 0.0 }

  // ---------------------------------------------------------------------
  // Price
  // ---------------------------------------------------------------------

  /** A special offer is running while the flag is set and `now` has not passed its end. */
  predicate IsSpecialActive(s: ItemState, now: int)
  {
    s.isSpecial && s.specialUntil.Some? && now <= s.specialUntil.value
  }

  /** The price shown to customers: the special price while the offer runs, else the list price. */
  function DisplayPrice(s: ItemState, now: int): (r: real)
    ensures r == s.price || (IsSpecialActive(s, now) && Truthy(s.specialPrice) && r == s.specialPrice.value)
  {
    if IsSpecialActive(s, now) && Truthy(s.specialPrice) then s.specialPrice.value else s.price
  }

  /**
   * Over time: with no offer, or once its end time has passed, the list price is
   * shown; up to and including the end time a non-zero special price is shown.
   */
  lemma SpecialPriceWindow(s: ItemState, now: int)
    ensures !s.isSpecial || s.specialUntil.None? ==> DisplayPrice(s, now) == s.price
    ensures s.specialUntil.Some? && now > s.specialUntil.value ==> DisplayPrice(s, now) == s.price
    ensures s.isSpecial && s.specialUntil.Some? && now <= s.specialUntil.value && Truthy(s.specialPrice)
            ==> DisplayPrice(s, now) == s.specialPrice.value
    ensures !Truthy(s.specialPrice) ==> DisplayPrice(s, now) == s.price
  {
  }

  // ---------------------------------------------------------------------
  // Stock predicates
  // ---------------------------------------------------------------------

  /**
   * In stock: some stock left and, when a daily limit is set, fewer units
   * ordered today than the limit. `orderedToday` is the count the ORM sums.
   */
  predicate IsInStock(s: ItemState, orderedToday: nat)
  {
    if s.dailyLimit == 0 then s.currentStock > 0
    else s.currentStock > 0 && orderedToday < s.dailyLimit
  }

  lemma InStockSpec(s: ItemState, orderedToday: nat)
    ensures IsInStock(s, orderedToday) ==> s.currentStock > 0
    ensures s.dailyLimit == 0 ==> (IsInStock(s, orderedToday) <==> s.currentStock > 0)
    ensures s.dailyLimit != 0 ==>
              (IsInStock(s, orderedToday) <==> s.currentStock > 0 && orderedToday < s.dailyLimit)
    ensures s.dailyLimit != 0 && orderedToday >= s.dailyLimit ==> !IsInStock(s, orderedToday)
  {
  }

  predicate IsLowStock(s: ItemState)
  {
    s.currentStock <= s.lowStockThreshold
  }

  // ---------------------------------------------------------------------
  // State changes, as functions of the prior state
  // ---------------------------------------------------------------------

  /** `update_stock(q)`: the new state and whether stock was taken. */
  function StockUsed(s: ItemState, q: int): (r: (ItemState, bool))
    ensures r.1 <==> s.currentStock >= q
    ensures r.1 ==> r.0 == s.(currentStock := s.currentStock - q) && r.0.currentStock >= 0
    ensures !r.1 ==> r.0 == s
  {
    if s.currentStock >= q then (s.(currentStock := s.currentStock - q), true) else (s, false)
  }

  function Restocked(s: ItemState, q: int): ItemState
  {
    s.(currentStock := s.currentStock + q)
  }

  /** A successful `update_stock(q)` followed by `restock(q)` gives back the original item. */
  lemma UseThenRestock(s: ItemState, q: int)
    requires StockUsed(s, q).1
    ensures Restocked(StockUsed(s, q).0, q) == s
    ensures IsLowStock(s) ==> IsLowStock(StockUsed(s, q).0) || q < 0
  {
  }

  /** After a successful use, stock only fell; a refused use changes nothing. */
  lemma StockNeverNegative(s: ItemState, q: int)
    ensures StockUsed(s, q).0.currentStock >= 0 || s.currentStock < 0
    ensures StockUsed(s, q).1 ==> StockUsed(s, q).0.currentStock >= 0
    ensures q >= 0 && StockUsed(s, q).1 ==> StockUsed(s, q).0.currentStock <= s.currentStock
  {
  }

  /** `update_rating(r)`: one more review folded into the running average. */
  function Rated(s: ItemState, rating: real): (r: ItemState)
    ensures r.totalReviews == s.totalReviews + 1
    ensures r.averageRating * (r.totalReviews as real)
            == s.averageRating * (s.totalReviews as real) + rating
  {
    var total := s.averageRating * (s.totalReviews as real);
    var n := s.totalReviews + 1;
    s.(totalReviews := n, averageRating := (total + rating) / (n as real))
  }

  /** A rating in [1, 5] keeps an average in [0, 5] inside [0, 5]. */
  lemma {:induction false} RatingStaysInRange(s: ItemState, rating: real)
    requires 0.0 <= s.averageRating <= 5.0
    requires 1.0 <= rating <= 5.0
    ensures 0.0 <= Rated(s, rating).averageRating <= 5.0
  {
    var n := s.totalReviews as real;
    var d := (s.totalReviews + 1) as real;
    var total := s.averageRating * n;
    ScaleBounds(s.averageRating, n);
    assert d == n + 1.0;
    assert 5.0 * d == 5.0 * n + 5.0;
    QuotientBounds(total + rating, d);
  }

  lemma QuotientBounds(t: real, d: real)
    requires d > 0.0 && 0.0 <= t <= 5.0 * d
    ensures 0.0 <= t / d <= 5.0
  {
    var q := t / d;
    assert q * d == t;
    if q > 5.0 {
      PositiveProduct(q - 5.0, d);
    }
    if q < 0.0 {
      PositiveProduct(0.0 - q, d);
    }
  }

  lemma PositiveProduct(a: real, b: real)
    requires a > 0.0 && b > 0.0
    ensures a * b > 0.0
  {
  }

  lemma ScaleBounds(a: real, n: real)
    requires 0.0 <= a <= 5.0 && n >= 0.0
    ensures 0.0 <= a * n <= 5.0 * n
  {
    assert (5.0 - a) * n >= 0.0;
  }

  /** Reviews of one value drive the average to that value: the mean of equal ratings. */
  lemma RatingOfSameValue(s: ItemState, rating: real)
    requires s.averageRating == rating
    ensures Rated(s, rating).averageRating == rating
  {
    var n := s.totalReviews as real;
    var avg := Rated(s, rating).averageRating;
    assert avg * (n + 1.0) == rating * (n + 1.0);
  }

  // ---------------------------------------------------------------------
  // Star display
  // ---------------------------------------------------------------------

  datatype Stars = Stars(full: int, half: int, empty: int)

  /** Python's `int(x)` on a Decimal: truncation toward zero. */
  function Trunc(x: real): (r: int)
    ensures x >= 0.0 ==> r as real <= x < r as real + 1.0
    ensures x < 0.0 ==> r as real - 1.0 < x <= r as real
  {
    if x >= 0.0 then x.Floor else -((-x).Floor)
  }

  function RatingStars(average: real): (r: Stars)
    ensures r.half == 0 || r.half == 1
    ensures r.full + r.half + r.empty == 5
  {
    var full := Trunc(average);
    var half := if average - full as real >= 0.5 then 1 else 0;
    Stars(full, half, 5 - full - half)
  }

  /** For an average within the 0..5 scale every part of the breakdown is a count of stars. */
  lemma StarsInRange(average: real)
    requires 0.0 <= average <= 5.0
    ensures var st := RatingStars(average);
            0 <= st.full <= 5 && 0 <= st.empty <= 5
            && st.full as real <= average < st.full as real + 1.0
            && (st.half == 1 <==> average - st.full as real >= 0.5)
  {
  }

  // ---------------------------------------------------------------------
  // Daily menu overrides
  // ---------------------------------------------------------------------

  /** The override columns of one item on one day's menu. */
  datatype DailyEntry = DailyEntry(dailyPrice: Option<real>, dailyStock: Option<int>)

  function EffectivePrice(e: DailyEntry, item: ItemState, now: int): (r: real)
    ensures Truthy(e.dailyPrice) ==> r == e.dailyPrice.value
    ensures !Truthy(e.dailyPrice) ==> r == DisplayPrice(item, now)
  {
    if Truthy(e.dailyPrice) then e.dailyPrice.value else DisplayPrice(item, now)
  }

  function EffectiveStock(e: DailyEntry, item: ItemState): (r: int)
    ensures e.dailyStock.Some? && e.dailyStock.value != 0 ==> r == e.dailyStock.value
    ensures e.dailyStock.None? || e.dailyStock.value == 0 ==> r == item.currentStock
  {
    if e.dailyStock.Some? && e.dailyStock.value != 0 then e.dailyStock.value else item.currentStock
  }

  /** An override of 0 is treated as "no override", so a sold-out day cannot be recorded as 0. */
  lemma ZeroDailyStockFallsBack(item: ItemState)
    requires item.currentStock > 0
    ensures EffectiveStock(DailyEntry(None, Some(0)), item) == item.currentStock
    ensures EffectiveStock(DailyEntry(None, Some(0)), item) != 0
  {
  }

  // ---------------------------------------------------------------------
  // The mutable model object
  // ---------------------------------------------------------------------

  class MenuItem {
    var price: real
    var isAvailable: bool
    var dailyLimit: nat
    var currentStock: int
    var lowStockThreshold: nat
    var totalOrders: int
    var averageRating: real
    var totalReviews: nat
    var isSpecial: bool
    var specialPrice: Option<real>
    var specialUntil: Option<int>

    function State(): ItemState
      reads this
    {
      ItemState(price, isAvailable, dailyLimit, currentStock, lowStockThreshold, totalOrders,
                averageRating, totalReviews, isSpecial, specialPrice, specialUntil)
    }

    /** A new item with the column defaults (stock 100, daily limit 100, threshold 10). */
    constructor (price: real)
      ensures State() == ItemState(price, true, 100, 100, 10, 0, 0.0, 0, false, None, None)
    {
      this.price := price;
      isAvailable := true;
      dailyLimit := 100;
      currentStock := 100;
      lowStockThreshold := 10;
      totalOrders := 0;
      averageRating := 0.0;
      totalReviews := 0;
      isSpecial := false;
      specialPrice := None;
      specialUntil := None;
    }

    method UpdateStock(quantityUsed: int) returns (ok: bool)
      modifies this
      ensures (State(), ok) == StockUsed(old(State()), quantityUsed)
    {
      if currentStock >= quantityUsed {
        currentStock := currentStock - quantityUsed;
        return true;
      }
      return false;
    }

    method Restock(quantity: int)
      modifies this
      ensures State() == Restocked(old(State()), quantity)
    {
      currentStock := currentStock + quantity;
    }

    method IncrementOrders(quantity: int)
      modifies this
      ensures State() == old(State()).(totalOrders := old(totalOrders) + quantity)
    {
      totalOrders := totalOrders + quantity;
    }

    method UpdateRating(newRating: real)
      modifies this
      ensures State() == Rated(old(State()), newRating)
    {
      ghost var before := State();
      var totalRating := averageRating * (totalReviews as real);
      totalReviews := totalReviews + 1;
      averageRating := (totalRating + newRating) / (totalReviews as real);
      assert totalReviews == Rated(before, newRating).totalReviews;
      assert averageRating == Rated(before, newRating).averageRating;
    }
  }
}
