/**
 * The order views: the session cart (add, filter, prune, count, validate,
 * clear), turning posted lines or the cart into an order, and the admin
 * status changes with their history rows.
 *
 * The session's `cart_items` dict is a sequence of entries with distinct item
 * ids, in insertion order. The menu table is a map from item id to the item's
 * columns (`Catalog`); a lookup of a missing id is the ORM's DoesNotExist.
 * Every view here that creates a Notification passes its keyword set to
 * `Notifications.CreateAccepts`; when that refuses, the exception is what the
 * view's own handler (or none) makes of it.
 */
module OrderViews {
  import opened Common
  import Menu
  import Orders
  import Notifications

  type Catalog = map<string, Menu.ItemState>

  // ---------------------------------------------------------------------
  // Cart values
  // ---------------------------------------------------------------------

  datatype CartEntry = CartEntry(itemId: string, quantity: int)

  predicate DistinctIds(c: seq<CartEntry>)
  {
    forall i, j :: 0 <= i < j < |c| ==> c[i].itemId != c[j].itemId
  }

  /** The quantity stored for `id`, if any. */
  function Lookup(c: seq<CartEntry>, id: string): (r: Option<int>)
    ensures r.Some? <==> exists i :: 0 <= i < |c| && c[i].itemId == id
  {
    if |c| == 0 then None
    else if c[0].itemId == id then Some(c[0].quantity)
    else Lookup(c[1..], id)
  }

  /** With distinct ids the lookup finds the entry at any position. */
  lemma {:induction false} LookupAt(c: seq<CartEntry>, i: int)
    requires DistinctIds(c) && 0 <= i < |c|
    ensures Lookup(c, c[i].itemId) == Some(c[i].quantity)
  {
    if i > 0 {
      assert c[0].itemId != c[i].itemId;
      assert c[1..][i - 1] == c[i];
      LookupAt(c[1..], i - 1);
    }
  }

  /**
   * `add_to_cart_ajax`'s update of the dict: an existing entry keeps its
   * place and grows by `q`, a new id is appended with `q`.
   */
  function CartAdd(c: seq<CartEntry>, id: string, q: int): (r: seq<CartEntry>)
  {
    if |c| == 0 then [CartEntry(id, q)]
    else if c[0].itemId == id then [CartEntry(id, c[0].quantity + q)] + c[1..]
    else [c[0]] + CartAdd(c[1..], id, q)
  }

  /**
   * The updated cart keeps distinct ids; the entry for `id` is its old
   * quantity plus `q` (or `q` when there was none), every other id keeps its
   * quantity, and the cart grows by one entry exactly when `id` was new.
   */
  lemma {:induction false} CartAddSpec(c: seq<CartEntry>, id: string, q: int)
    requires DistinctIds(c)
    ensures DistinctIds(CartAdd(c, id, q))
    ensures Lookup(CartAdd(c, id, q), id) == Some(if Lookup(c, id).Some? then Lookup(c, id).value + q else q)
    ensures forall other :: other != id ==> Lookup(CartAdd(c, id, q), other) == Lookup(c, other)
    ensures |CartAdd(c, id, q)| == if Lookup(c, id).Some? then |c| else |c| + 1
  {
    if |c| > 0 {
      assert DistinctIds(c[1..]);
      if c[0].itemId != id {
        CartAddSpec(c[1..], id, q);
        CartAddIds(c[1..], id, q);
        CartAddHead(c, id, q);
      }
    }
  }

  /** The ids of the updated cart are the old ones and `id`. */
  lemma {:induction false} CartAddIds(c: seq<CartEntry>, id: string, q: int)
    ensures forall i :: 0 <= i < |CartAdd(c, id, q)| ==>
              CartAdd(c, id, q)[i].itemId == id || exists j :: 0 <= j < |c| && c[j].itemId == CartAdd(c, id, q)[i].itemId
  {
    if |c| > 0 && c[0].itemId != id {
      CartAddIds(c[1..], id, q);
      var r := CartAdd(c, id, q);
      forall i | 0 <= i < |r|
        ensures r[i].itemId == id || exists j :: 0 <= j < |c| && c[j].itemId == r[i].itemId
      {
        if i > 0 {
          assert r[i] == CartAdd(c[1..], id, q)[i - 1];
          if r[i].itemId != id {
            var j :| 0 <= j < |c[1..]| && c[1..][j].itemId == r[i].itemId;
            assert c[j + 1].itemId == r[i].itemId;
          }
        }
      }
    }
  }

  /** A head entry with another id stays distinct from the updated tail. */
  lemma CartAddHead(c: seq<CartEntry>, id: string, q: int)
    requires DistinctIds(c) && |c| > 0 && c[0].itemId != id
    requires DistinctIds(CartAdd(c[1..], id, q))
    requires forall i :: 0 <= i < |CartAdd(c[1..], id, q)| ==>
               CartAdd(c[1..], id, q)[i].itemId == id
               || exists j :: 0 <= j < |c[1..]| && c[1..][j].itemId == CartAdd(c[1..], id, q)[i].itemId
    ensures DistinctIds(CartAdd(c, id, q))
  {
    var t := CartAdd(c[1..], id, q);
    var r := CartAdd(c, id, q);
    assert r == [c[0]] + t;
    forall i | 0 <= i < |t|
      ensures t[i].itemId != c[0].itemId
    {
      if t[i].itemId != id {
        var j :| 0 <= j < |c[1..]| && c[1..][j].itemId == t[i].itemId;
        assert c[j + 1].itemId == t[i].itemId;
      }
    }
    forall i, j | 0 <= i < j < |r|
      ensures r[i].itemId != r[j].itemId
    {
      if i > 0 {
        assert r[i] == t[i - 1] && r[j] == t[j - 1];
      } else {
        assert r[j] == t[j - 1];
      }
    }
  }

  /** Whether `MenuItem.objects.get(id=..., is_available=True)` finds the item. */
  predicate Available(catalog: Catalog, id: string)
  {
    id in catalog && catalog[id].isAvailable
  }

  // ---------------------------------------------------------------------
  // Sums over the cart
  // ---------------------------------------------------------------------

  /** Price total and item count of the entries the loop keeps. */
  datatype CartSums = CartSums(total: real, count: int)

  /**
   * The summing loops of `get_cart` (`onlyAvailable`: the lookup also
   * requires `is_available`) and `add_to_cart_ajax` (plain lookup).
   */
  function Sums(c: seq<CartEntry>, catalog: Catalog, onlyAvailable: bool): CartSums
  {
    if |c| == 0 then CartSums(0.0, 0)
    else
      var prev := Sums(c[..|c| - 1], catalog, onlyAvailable);
      var e := c[|c| - 1];
      if e.itemId in catalog && (!onlyAvailable || catalog[e.itemId].isAvailable) then
        CartSums(prev.total + catalog[e.itemId].price * e.quantity as real, prev.count + e.quantity)
      else prev
  }

  /** `sum(cart_items.values())`. */
  function QuantitySum(c: seq<CartEntry>): int
  {
    if |c| == 0 then 0 else QuantitySum(c[..|c| - 1]) + c[|c| - 1].quantity
  }

  /** When every item is still offered, the summing loop counts exactly the stored quantities. */
  lemma {:induction false} SumsCountAll(c: seq<CartEntry>, catalog: Catalog, onlyAvailable: bool)
    requires forall i :: 0 <= i < |c| ==> Available(catalog, c[i].itemId)
    ensures Sums(c, catalog, onlyAvailable).count == QuantitySum(c)
  {
    if |c| > 0 {
      SumsCountAll(c[..|c| - 1], catalog, onlyAvailable);
    }
  }

  /** Entries the lookup in `get_cart` finds, in order: the pruned cart. */
  function Kept(c: seq<CartEntry>, catalog: Catalog): seq<CartEntry>
  {
    if |c| == 0 then []
    else Kept(c[..|c| - 1], catalog) + (if Available(catalog, c[|c| - 1].itemId) then [c[|c| - 1]] else [])
  }

  /** The pruned cart holds exactly the available entries of the cart. */
  lemma {:induction false} KeptMembers(c: seq<CartEntry>, catalog: Catalog)
    ensures forall e :: e in Kept(c, catalog) <==> e in c && Available(catalog, e.itemId)
  {
    if |c| > 0 {
      var p := c[..|c| - 1];
      KeptMembers(p, catalog);
      assert c == p + [c[|c| - 1]];
    }
  }

  /** Pruning never lengthens the cart, and a cart it does not shorten is left as it was. */
  lemma {:induction false} KeptLength(c: seq<CartEntry>, catalog: Catalog)
    ensures |Kept(c, catalog)| <= |c|
    ensures |Kept(c, catalog)| == |c| ==> Kept(c, catalog) == c
  {
    if |c| > 0 {
      var p := c[..|c| - 1];
      KeptLength(p, catalog);
      assert c == p + [c[|c| - 1]];
    }
  }

  /** Summing the pruned cart gives what `get_cart` summed over the whole one. */
  lemma {:induction false} KeptSums(c: seq<CartEntry>, catalog: Catalog)
    ensures Sums(Kept(c, catalog), catalog, true) == Sums(c, catalog, true)
  {
    if |c| > 0 {
      var p := c[..|c| - 1];
      var e := c[|c| - 1];
      KeptSums(p, catalog);
      var k := Kept(c, catalog);
      if Available(catalog, e.itemId) {
        assert k == Kept(p, catalog) + [e];
        assert k[..|k| - 1] == Kept(p, catalog);
      } else {
        assert k == Kept(p, catalog) + [];
        assert k == Kept(p, catalog);
      }
    }
  }

  lemma KeptSpec(c: seq<CartEntry>, catalog: Catalog)
    ensures |Kept(c, catalog)| <= |c|
    ensures forall e :: e in Kept(c, catalog) <==> e in c && Available(catalog, e.itemId)
    ensures |Kept(c, catalog)| == |c| ==> Kept(c, catalog) == c
    ensures Sums(Kept(c, catalog), catalog, true) == Sums(c, catalog, true)
  {
    KeptMembers(c, catalog);
    KeptLength(c, catalog);
    KeptSums(c, catalog);
  }

  /** Pruning is idempotent: a second `get_cart` finds nothing left to remove. */
  lemma {:induction false} KeptIdempotent(c: seq<CartEntry>, catalog: Catalog)
    ensures Kept(Kept(c, catalog), catalog) == Kept(c, catalog)
  {
    KeptSpec(c, catalog);
    var k := Kept(c, catalog);
    KeptSpec(k, catalog);
    KeptAllAvailable(k, catalog);
  }

  lemma {:induction false} KeptAllAvailable(c: seq<CartEntry>, catalog: Catalog)
    requires forall i :: 0 <= i < |c| ==> Available(catalog, c[i].itemId)
    ensures Kept(c, catalog) == c
  {
    if |c| > 0 {
      KeptAllAvailable(c[..|c| - 1], catalog);
      assert c == c[..|c| - 1] + [c[|c| - 1]];
    }
  }

  /** `update_cart`'s filter: found, available and a positive quantity. */
  function Validated(input: seq<CartEntry>, catalog: Catalog): seq<CartEntry>
  {
    if |input| == 0 then []
    else
      var e := input[|input| - 1];
      Validated(input[..|input| - 1], catalog)
      + (if Available(catalog, e.itemId) && e.quantity > 0 then [e] else [])
  }

  lemma ValidatedSpec(input: seq<CartEntry>, catalog: Catalog)
    ensures forall e :: e in Validated(input, catalog) <==>
                          e in input && Available(catalog, e.itemId) && e.quantity > 0
    ensures |Validated(input, catalog)| <= |input|
    ensures DistinctIds(input) ==> DistinctIds(Validated(input, catalog))
  {
    ValidatedMembers(input, catalog);
    if DistinctIds(input) {
      ValidatedDistinct(input, catalog);
    }
  }

  /** The kept entries are exactly the offered ones with a positive quantity, and no more than the input. */
  lemma {:induction false} ValidatedMembers(input: seq<CartEntry>, catalog: Catalog)
    ensures forall e :: e in Validated(input, catalog) <==>
                          e in input && Available(catalog, e.itemId) && e.quantity > 0
    ensures |Validated(input, catalog)| <= |input|
  {
    if |input| > 0 {
      var p := input[..|input| - 1];
      ValidatedMembers(p, catalog);
      assert input == p + [input[|input| - 1]];
    }
  }

  lemma {:induction false} ValidatedDistinct(input: seq<CartEntry>, catalog: Catalog)
    requires DistinctIds(input)
    ensures DistinctIds(Validated(input, catalog))
  {
    if |input| > 0 {
      var p := input[..|input| - 1];
      assert DistinctIds(p);
      ValidatedDistinct(p, catalog);
      ValidatedMembers(p, catalog);
      var v := Validated(input, catalog);
      var vp := Validated(p, catalog);
      forall i, j | 0 <= i < j < |v| ensures v[i].itemId != v[j].itemId {
        if j < |vp| {
          assert v[i] == vp[i] && v[j] == vp[j];
        } else {
          assert v[j] == input[|input| - 1] && v[i] == vp[i] && vp[i] in p;
        }
      }
    }
  }

  // ---------------------------------------------------------------------
  // Cart validation
  // ---------------------------------------------------------------------

  const MAX_QUANTITY: int := 10

  /** Issues `validate_cart` counts for one entry. */
  function Issues(catalog: Catalog, e: CartEntry): nat
  {
    if e.itemId !in catalog then 1
    else
      var m := catalog[e.itemId];
      (if !m.isAvailable then 1 else 0) + (if m.currentStock < e.quantity then 1 else 0)
      + (if e.quantity > MAX_QUANTITY then 1 else 0)
  }

  predicate EntryOk(catalog: Catalog, e: CartEntry)
  {
    e.itemId in catalog && catalog[e.itemId].isAvailable
    && catalog[e.itemId].currentStock >= e.quantity && e.quantity <= MAX_QUANTITY
  }

  function TotalIssues(c: seq<CartEntry>, catalog: Catalog): nat
  {
    if |c| == 0 then 0 else TotalIssues(c[..|c| - 1], catalog) + Issues(catalog, c[|c| - 1])
  }

  /** No issue in total exactly when every entry is found, available, in stock and within the limit. */
  lemma {:induction false} TotalIssuesZero(c: seq<CartEntry>, catalog: Catalog)
    ensures TotalIssues(c, catalog) == 0 <==> forall i :: 0 <= i < |c| ==> EntryOk(catalog, c[i])
  {
    if |c| > 0 {
      var p := c[..|c| - 1];
      TotalIssuesZero(p, catalog);
      assert forall i :: 0 <= i < |p| ==> p[i] == c[i];
      assert Issues(catalog, c[|c| - 1]) == 0 <==> EntryOk(catalog, c[|c| - 1]);
    }
  }

  datatype ValidateReply = ValidateReply(success: bool, valid: bool, totalIssues: nat)

  /** `validate_cart`: an empty cart is refused; otherwise valid iff no entry has an issue. */
  method ValidateCart(cart: seq<CartEntry>, catalog: Catalog) returns (r: ValidateReply)
    ensures cart == [] ==> r == ValidateReply(false, false, 0)
    ensures cart != [] ==> r.success && r.totalIssues == TotalIssues(cart, catalog)
    ensures r.valid <==> cart != [] && forall i :: 0 <= i < |cart| ==> EntryOk(catalog, cart[i])
  {
    if |cart| == 0 {
      return ValidateReply(false, false, 0);
    }
    var total := 0;
    var i := 0;
    while i < |cart|
      invariant 0 <= i <= |cart|
      invariant total == TotalIssues(cart[..i], catalog)
    {
      assert cart[..i + 1][..i] == cart[..i];
      var e := cart[i];
      if e.itemId in catalog {
        var m := catalog[e.itemId];
        if !m.isAvailable {
          total := total + 1;
        }
        if m.currentStock < e.quantity {
          total := total + 1;
        }
        if e.quantity > MAX_QUANTITY {
          total := total + 1;
        }
      } else {
        total := total + 1;
      }
      i := i + 1;
    }
    assert cart[..i] == cart;
    TotalIssuesZero(cart, catalog);
    r := ValidateReply(true, total == 0, total);
  }

  // ---------------------------------------------------------------------
  // The session
  // ---------------------------------------------------------------------

  /** The request session's `cart_items` key: whether it is present and its entries. */
  class Session {
    var hasCart: bool
    var cart: seq<CartEntry>

    constructor ()
      ensures !hasCart && cart == []
    {
      hasCart := false;
      cart := [];
    }

    /** `request.session.get('cart_items', {})`. */
    function Cart(): seq<CartEntry>
      reads this
    {
      if hasCart then cart else []
    }
  }

  /** HTTP status and the counts a cart view reports. */
  datatype AddReply = AddReply(status: int, cartCount: int, cartTotal: real)

  /**
   * `add_to_cart_ajax`. `quantityField` is the posted `quantity`
   * (None when absent, so the default 1 applies).
   */
  method AddToCartAjax(session: Session, isPost: bool, itemId: string, quantityField: Option<string>,
                       catalog: Catalog) returns (r: AddReply)
    modifies session
    ensures var q := if quantityField.None? then Some(1) else ParseInt(quantityField.value);
            var ok := isPost && itemId in catalog && catalog[itemId].isAvailable && q.Some? && q.value > 0;
            (!isPost ==> r.status == 405)
            && (isPost && itemId !in catalog ==> r.status == 500)
            && (isPost && itemId in catalog && !catalog[itemId].isAvailable ==> r.status == 400)
            && (isPost && itemId in catalog && catalog[itemId].isAvailable && q.None? ==> r.status == 500)
            && (isPost && itemId in catalog && catalog[itemId].isAvailable && q.Some? && q.value <= 0
                ==> r.status == 400)
            && (!ok ==> session.hasCart == old(session.hasCart) && session.cart == old(session.cart))
            && (ok ==> session.hasCart && session.cart == CartAdd(old(session.Cart()), itemId, q.value)
                       && r == AddReply(200, Sums(session.cart, catalog, false).count,
                                        Sums(session.cart, catalog, false).total))
  {
    if !isPost {
      return AddReply(405, 0, 0.0);
    }
    if itemId !in catalog {
      // get_object_or_404 raises Http404 inside the try block; the handler answers 500.
      return AddReply(500, 0, 0.0);
    }
    if !catalog[itemId].isAvailable {
      return AddReply(400, 0, 0.0);
    }
    var q := if quantityField.None? then Some(1) else ParseInt(quantityField.value);
    if q.None? {
      return AddReply(500, 0, 0.0);
    }
    if q.value <= 0 {
      return AddReply(400, 0, 0.0);
    }
    var items := CartAdd(session.Cart(), itemId, q.value);
    session.cart := items;
    session.hasCart := true;
    var sums := SumCart(items, catalog);
    r := AddReply(200, sums.count, sums.total);
  }

  /** The count and total loop of `add_to_cart_ajax`: every entry whose item is found, available or not. */
  method SumCart(items: seq<CartEntry>, catalog: Catalog) returns (s: CartSums)
    ensures s == Sums(items, catalog, false)
  {
    var total := 0.0;
    var count := 0;
    var i := 0;
    while i < |items|
      invariant 0 <= i <= |items|
      invariant CartSums(total, count) == Sums(items[..i], catalog, false)
    {
      assert items[..i + 1][..i] == items[..i];
      var e := items[i];
      if e.itemId in catalog {
        total := total + catalog[e.itemId].price * e.quantity as real;
        count := count + e.quantity;
      }
      i := i + 1;
    }
    assert items[..i] == items;
    s := CartSums(total, count);
  }

  /** What `get_cart` reports. */
  datatype CartReply = CartReply(items: seq<CartEntry>, cartCount: int, subtotal: real, serviceFee: real, cartTotal: real)

  const CART_SERVICE_RATE: real := 0.05

  /**
   * `get_cart`: lists and sums the entries whose item is still found and
   * available, charges a 5% service fee, and writes the pruned cart back only
   * when something was dropped.
   */
  method GetCart(session: Session, catalog: Catalog) returns (r: CartReply)
    modifies session
    ensures var kept := Kept(old(session.Cart()), catalog);
            r.items == kept
            && r.cartCount == Sums(old(session.Cart()), catalog, true).count
            && r.subtotal == Sums(old(session.Cart()), catalog, true).total
            && r.serviceFee == r.subtotal * CART_SERVICE_RATE
            && r.cartTotal == r.subtotal + r.serviceFee
            && session.Cart() == kept
            && (|kept| == |old(session.Cart())| ==>
                  session.hasCart == old(session.hasCart) && session.cart == old(session.cart))
  {
    var items := session.Cart();
    var data: seq<CartEntry> := [];
    var total := 0.0;
    var count := 0;
    var i := 0;
    while i < |items|
      invariant 0 <= i <= |items|
      invariant CartSums(total, count) == Sums(items[..i], catalog, true)
      invariant data == Kept(items[..i], catalog)
    {
      assert items[..i + 1][..i] == items[..i];
      var e := items[i];
      if Available(catalog, e.itemId) {
        total := total + catalog[e.itemId].price * e.quantity as real;
        count := count + e.quantity;
        data := data + [e];
      }
      i := i + 1;
    }
    assert items[..i] == items;
    KeptSpec(items, catalog);
    if |data| != |items| {
      session.cart := data;
      session.hasCart := true;
    }
    var fee := total * CART_SERVICE_RATE;
    r := CartReply(data, count, total, fee, total + fee);
  }

  /** `get_cart_count`: the sum of the stored quantities. */
  function GetCartCount(cart: seq<CartEntry>): (n: int)
    ensures (forall i :: 0 <= i < |cart| ==> cart[i].quantity > 0) ==> n >= |cart|
  {
    QuantitySumBound(cart);
    QuantitySum(cart)
  }

  lemma {:induction false} QuantitySumBound(c: seq<CartEntry>)
    ensures (forall i :: 0 <= i < |c| ==> c[i].quantity > 0) ==> QuantitySum(c) >= |c|
  {
    if |c| > 0 {
      QuantitySumBound(c[..|c| - 1]);
    }
  }

  /** With every item still offered, the badge count agrees with the count `get_cart` reports. */
  lemma CartCountAgrees(c: seq<CartEntry>, catalog: Catalog)
    requires forall i :: 0 <= i < |c| ==> Available(catalog, c[i].itemId)
    ensures GetCartCount(c) == Sums(c, catalog, true).count
    ensures Kept(c, catalog) == c
  {
    SumsCountAll(c, catalog, true);
    KeptAllAvailable(c, catalog);
  }

  /**
   * A JSON value posted as a quantity. Python's `bool` is an `int`, so
   * `true` and `false` arrive as 1 and 0; a string, `null`, a list or an
   * object is `NotANumber`, which `quantity > 0` refuses with a TypeError.
   */
  datatype PostedQuantity = IntQuantity(n: int) | FloatQuantity(x: real) | NotANumber

  /** What one posted `(id, quantity)` pair does in `update_cart`'s loop. */
  datatype UpdateStep = Drop | Keep(entry: CartEntry) | Raise

  /**
   * `invalidKeys` are the ids the UUID column refuses (the lookup raises
   * ValidationError); an unavailable item is dropped before its quantity is
   * compared; a float quantity is stored as `int(quantity)`.
   */
  function UpdateStepOf(id: string, q: PostedQuantity, invalidKeys: set<string>, catalog: Catalog): (r: UpdateStep)
    ensures r == Raise <==> id in invalidKeys || (id in catalog && catalog[id].isAvailable && q.NotANumber?)
    ensures r.Keep? ==> r.entry.itemId == id && Available(catalog, id)
    ensures r.Keep? && q.IntQuantity? ==> r.entry.quantity == q.n > 0
    ensures r.Keep? && q.FloatQuantity? ==> q.x > 0.0 && r.entry.quantity == Menu.Trunc(q.x)
  {
    if id in invalidKeys then Raise
    else if id !in catalog || !catalog[id].isAvailable then Drop
    else match q
      case NotANumber => Raise
      case IntQuantity(n) => if n > 0 then Keep(CartEntry(id, n)) else Drop
      case FloatQuantity(x) => if x > 0.0 then Keep(CartEntry(id, Menu.Trunc(x))) else Drop
  }

  /** The cart `update_cart` stores, or None when the loop raises and the handler answers 500. */
  function CartUpdate(posted: seq<(string, PostedQuantity)>, invalidKeys: set<string>, catalog: Catalog)
    : Option<seq<CartEntry>>
  {
    if |posted| == 0 then Some([])
    else
      var prev := CartUpdate(posted[..|posted| - 1], invalidKeys, catalog);
      var (id, q) := posted[|posted| - 1];
      match UpdateStepOf(id, q, invalidKeys, catalog)
      case Raise => None
      case Drop => prev
      case Keep(e) => if prev.None? then None else Some(prev.value + [e])
  }

  /** The update fails exactly when some posted pair raises. */
  lemma {:induction false} CartUpdateFails(posted: seq<(string, PostedQuantity)>, invalidKeys: set<string>,
                                           catalog: Catalog)
    ensures CartUpdate(posted, invalidKeys, catalog).None? <==>
              exists i :: 0 <= i < |posted| && UpdateStepOf(posted[i].0, posted[i].1, invalidKeys, catalog) == Raise
  {
    if |posted| > 0 {
      var p := posted[..|posted| - 1];
      CartUpdateFails(p, invalidKeys, catalog);
      if CartUpdate(p, invalidKeys, catalog).None? {
        var i :| 0 <= i < |p| && UpdateStepOf(p[i].0, p[i].1, invalidKeys, catalog) == Raise;
        assert posted[i] == p[i];
      }
      forall i | 0 <= i < |posted| - 1
        ensures posted[i] == p[i]
      {
      }
    }
  }

  /** The integer quantities of a posted cart, as the cart entries they name. */
  function AsEntries(posted: seq<(string, PostedQuantity)>): (r: seq<CartEntry>)
    requires forall i :: 0 <= i < |posted| ==> posted[i].1.IntQuantity?
    ensures |r| == |posted|
    ensures forall i :: 0 <= i < |r| ==> r[i] == CartEntry(posted[i].0, posted[i].1.n)
  {
    if |posted| == 0 then []
    else AsEntries(posted[..|posted| - 1]) + [CartEntry(posted[|posted| - 1].0, posted[|posted| - 1].1.n)]
  }

  /** With integer quantities and UUID keys the stored cart is the filter `Validated` of the entries. */
  lemma {:induction false} CartUpdateOfIntegers(posted: seq<(string, PostedQuantity)>, invalidKeys: set<string>,
                                                catalog: Catalog)
    requires forall i :: 0 <= i < |posted| ==> posted[i].1.IntQuantity? && posted[i].0 !in invalidKeys
    ensures CartUpdate(posted, invalidKeys, catalog) == Some(Validated(AsEntries(posted), catalog))
  {
    if |posted| > 0 {
      var p := posted[..|posted| - 1];
      CartUpdateOfIntegers(p, invalidKeys, catalog);
      var entries := AsEntries(posted);
      assert entries[..|entries| - 1] == AsEntries(p);
      var (id, q) := posted[|posted| - 1];
      var e := CartEntry(id, q.n);
      assert entries[|entries| - 1] == e;
      assert Validated(entries, catalog)
             == Validated(AsEntries(p), catalog) + (if Available(catalog, id) && q.n > 0 then [e] else []);
      assert CartUpdate(posted, invalidKeys, catalog)
             == match UpdateStepOf(id, q, invalidKeys, catalog)
                case Raise => None
                case Drop => CartUpdate(p, invalidKeys, catalog)
                case Keep(k) => Some(CartUpdate(p, invalidKeys, catalog).value + [k]);
      assert id !in invalidKeys && q.IntQuantity?;
      if !(Available(catalog, id) && q.n > 0) {
        assert Validated(AsEntries(p), catalog) + [] == Validated(AsEntries(p), catalog);
      }
    }
  }

  /**
   * `update_cart`: the posted cart as the items of the parsed object, in
   * order (an absent `cart_items` is the empty object), or None for a body
   * that is not JSON or whose `cart_items` is not an object; a post replaces the session cart
   * with `CartUpdate`, and any exception answers 500 with the session kept.
   */
  method UpdateCart(session: Session, isPost: bool, posted: Option<seq<(string, PostedQuantity)>>,
                    invalidKeys: set<string>, catalog: Catalog) returns (status: int)
    modifies session
    ensures !isPost ==> status == 405 && session.hasCart == old(session.hasCart) && session.cart == old(session.cart)
    ensures isPost && (posted.None? || CartUpdate(posted.value, invalidKeys, catalog).None?) ==>
              status == 500 && session.hasCart == old(session.hasCart) && session.cart == old(session.cart)
    ensures isPost && posted.Some? && CartUpdate(posted.value, invalidKeys, catalog).Some? ==>
              status == 200 && session.hasCart && session.cart == CartUpdate(posted.value, invalidKeys, catalog).value
  {
    if !isPost {
      return 405;
    }
    if posted.None? {
      return 500;
    }
    var input := posted.value;
    var out: seq<CartEntry> := [];
    var i := 0;
    while i < |input|
      invariant 0 <= i <= |input|
      invariant CartUpdate(input[..i], invalidKeys, catalog) == Some(out)
    {
      assert input[..i + 1][..i] == input[..i];
      var (id, q) := input[i];
      var step := UpdateStepOf(id, q, invalidKeys, catalog);
      if step.Raise? {
        CartUpdateFails(input, invalidKeys, catalog);
        return 500;
      }
      if step.Keep? {
        out := out + [step.entry];
      }
      i := i + 1;
    }
    assert input[..i] == input;
    session.cart := out;
    session.hasCart := true;
    return 200;
  }

  /** `clear_cart`: drops the key when present. */
  method ClearCart(session: Session, isPost: bool) returns (status: int)
    modifies session
    ensures !isPost ==> status == 405 && session.hasCart == old(session.hasCart) && session.cart == old(session.cart)
    ensures isPost ==> status == 200 && session.Cart() == [] && !session.hasCart
  {
    if !isPost {
      return 405;
    }
    if session.hasCart {
      session.hasCart := false;
      session.cart := [];
    }
    return 200;
  }

  // ---------------------------------------------------------------------
  // Building an order's lines
  // ---------------------------------------------------------------------

  /** What one posted `key=value` pair contributes in `place_order`. */
  datatype LineStep = Skip | Missing | Add(line: Orders.Line)

  const ITEM_PREFIX: string := "item_"

  function PostedLine(key: string, value: string, catalog: Catalog): (r: LineStep)
    ensures r.Add? ==> r.line.quantity > 0
  {
    if !StartsWith(key, ITEM_PREFIX) then Skip
    else
      var q := ParseInt(value);
      if q.None? || q.value <= 0 then Skip
      else
        var id := key[|ITEM_PREFIX|..];
        if id !in catalog then Missing
        else Add(Orders.Line(catalog[id].price, q.value))
  }

  /** The lines created so far and whether `get_object_or_404` has raised. */
  datatype LinesSoFar = LinesSoFar(lines: seq<Orders.Line>, notFound: bool)

  /** The loop of `place_order` over the posted pairs, stopping at the first missing item. */
  function PostedLines(post: seq<(string, string)>, catalog: Catalog): LinesSoFar
  {
    if |post| == 0 then LinesSoFar([], false)
    else
      var prev := PostedLines(post[..|post| - 1], catalog);
      if prev.notFound then prev
      else
        var (k, v) := post[|post| - 1];
        match PostedLine(k, v, catalog)
        case Skip => prev
        case Missing => LinesSoFar(prev.lines, true)
        case Add(l) => LinesSoFar(prev.lines + [l], false)
  }

  /** One more posted pair extends the lines by what `PostedLine` makes of it. */
  lemma PostedLinesExtend(post: seq<(string, string)>, catalog: Catalog, i: nat)
    requires i < |post| && !PostedLines(post[..i], catalog).notFound
    ensures var prev := PostedLines(post[..i], catalog);
            match PostedLine(post[i].0, post[i].1, catalog)
            case Skip => PostedLines(post[..i + 1], catalog) == prev
            case Missing => PostedLines(post[..i + 1], catalog) == LinesSoFar(prev.lines, true)
            case Add(l) => PostedLines(post[..i + 1], catalog) == LinesSoFar(prev.lines + [l], false)
  {
    assert post[..i + 1][..i] == post[..i];
  }

  /** Every created line has a positive quantity and the price of an item in the menu. */
  lemma {:induction false} PostedLinesSpec(post: seq<(string, string)>, catalog: Catalog)
    ensures forall i :: 0 <= i < |PostedLines(post, catalog).lines| ==>
              PostedLines(post, catalog).lines[i].quantity > 0
              && exists id :: id in catalog && catalog[id].price == PostedLines(post, catalog).lines[i].unitPrice
    ensures |PostedLines(post, catalog).lines| <= |post|
  {
    if |post| > 0 {
      PostedLinesSpec(post[..|post| - 1], catalog);
      var (k, v) := post[|post| - 1];
      var st := PostedLine(k, v, catalog);
      if st.Add? {
        var id := k[|ITEM_PREFIX|..];
        assert id in catalog && catalog[id].price == st.line.unitPrice;
      }
    }
  }

  /**
   * A posted item id that is not on the menu, before any line was created,
   * leaves the saved order without lines: it is neither completed nor deleted.
   */
  lemma MissingItemLeavesEmptyOrder(catalog: Catalog, id: string)
    requires id !in catalog
    ensures PostedLines([("item_" + id, "1")], catalog) == LinesSoFar([], true)
  {
    var post := [("item_" + id, "1")];
    assert post[..0] == [];
    assert ("item_" + id)[|ITEM_PREFIX|..] == id;
    ParseOne();
  }

  lemma ParseOne()
    ensures ParseInt("1") == Some(1)
  {
    ParseDigits("1");
    assert DigitsValue("1") == 1 by {
      assert "1"[..0] == "";
    }
  }

  /** The loop of `process_order_from_cart`: missing items and non-positive quantities are skipped. */
  function CartLines(c: seq<CartEntry>, catalog: Catalog): seq<Orders.Line>
  {
    if |c| == 0 then []
    else
      var e := c[|c| - 1];
      CartLines(c[..|c| - 1], catalog)
      + (if e.itemId in catalog && e.quantity > 0 then [Orders.Line(catalog[e.itemId].price, e.quantity)] else [])
  }

  /** No line is made exactly when no entry is both on the menu and of positive quantity. */
  lemma {:induction false} CartLinesEmpty(c: seq<CartEntry>, catalog: Catalog)
    ensures CartLines(c, catalog) == [] <==>
              forall i :: 0 <= i < |c| ==> c[i].itemId !in catalog || c[i].quantity <= 0
  {
    if |c| > 0 {
      var p := c[..|c| - 1];
      CartLinesEmpty(p, catalog);
      assert forall i :: 0 <= i < |p| ==> p[i] == c[i];
    }
  }

  /** The subtotal of an order built from the cart is what `get_cart` shows for the items found. */
  lemma {:induction false} CartLinesSubtotal(c: seq<CartEntry>, catalog: Catalog)
    requires forall i :: 0 <= i < |c| ==> c[i].quantity > 0
    ensures Orders.Subtotal(CartLines(c, catalog)) == Sums(c, catalog, false).total
  {
    if |c| > 0 {
      var p := c[..|c| - 1];
      var e := c[|c| - 1];
      CartLinesSubtotal(p, catalog);
      if e.itemId in catalog {
        var l := Orders.Line(catalog[e.itemId].price, e.quantity);
        assert CartLines(c, catalog) == CartLines(p, catalog) + [l];
        Orders.SubtotalAddLine(CartLines(p, catalog), l);
      } else {
        assert CartLines(c, catalog) == CartLines(p, catalog) + [];
        assert CartLines(p, catalog) + [] == CartLines(p, catalog);
      }
    }
  }

  // ---------------------------------------------------------------------
  // Placing orders
  // ---------------------------------------------------------------------

  const PLACED_NOTE: string := "Order placed by employee"

  datatype PlaceOutcome =
    | FormShown            // not a POST, or the form did not validate: nothing stored
    | NoItems              // order deleted again
    | ItemNotFound         // Http404 escaped mid-loop: the order stays as far as it got
    | Placed               // order completed and the redirect issued
    | NotificationError    // order completed, then creating the notification raised

  /**
   * `place_order`. `post` is the POST data's (key, last value) pairs in order;
   * `notifyKwargs` the keywords it passes to Notification. Returns the order
   * object it saved (when it saved one) and whether it is still stored.
   */
  method PlaceOrder(isPost: bool, formValid: bool, post: seq<(string, string)>, catalog: Catalog,
                    orderNumber: string, notifyKwargs: set<string>)
    returns (outcome: PlaceOutcome, order: Orders.Order?, kept: bool)
    ensures !(isPost && formValid) <==> outcome == FormShown
    ensures outcome == FormShown ==> order == null && !kept
    ensures outcome != FormShown ==> order != null && fresh(order) && order.status == Orders.STATUS_PENDING
    ensures var pl := PostedLines(post, catalog);
            outcome != FormShown ==>
              order != null
              && order.items == pl.lines
              && (outcome == NoItems <==> !pl.notFound && pl.lines == [])
              && (outcome == ItemNotFound <==> pl.notFound)
              && (outcome == NoItems ==> !kept)
              && (outcome == ItemNotFound ==>
                    kept && order.history == [] && order.Amounts() == Orders.Totals(0.0, 0.0, 0.0, 0.0))
              && (outcome in {Placed, NotificationError} ==>
                    kept && |order.items| > 0
                    && order.Amounts() == Orders.TotalsOf(order.items)
                    && order.history == [Orders.HistoryRow("", Orders.STATUS_PENDING, PLACED_NOTE)]
                    && (outcome == Placed <==> Notifications.CreateAccepts(notifyKwargs)))
  {
    if !(isPost && formValid) {
      return FormShown, null, false;
    }
    order := new Orders.Order(orderNumber, "");
    kept := true;
    var created := false;
    var i := 0;
    while i < |post|
      invariant 0 <= i <= |post|
      invariant PostedLines(post[..i], catalog) == LinesSoFar(order.items, false)
      invariant created <==> order.items != []
      invariant order.status == Orders.STATUS_PENDING && order.history == []
      invariant order.Amounts() == Orders.Totals(0.0, 0.0, 0.0, 0.0)
      modifies order
    {
      PostedLinesExtend(post, catalog, i);
      var (key, value) := post[i];
      var step := PostedLine(key, value, catalog);
      if step.Missing? {
        // get_object_or_404 raises; nothing after it runs.
        PostedLinesStopped(post, catalog, i + 1);
        assert post[..|post|] == post;
        return ItemNotFound, order, true;
      }
      if step.Add? {
        order.AddLine(step.line);
        created := true;
      }
      i := i + 1;
    }
    assert post[..i] == post;
    if !created {
      return NoItems, order, false;
    }
    var _ := order.CalculateTotals();
    order.history := order.history + [Orders.HistoryRow("", order.status, PLACED_NOTE)];
    if Notifications.CreateAccepts(notifyKwargs) {
      outcome := Placed;
    } else {
      outcome := NotificationError;
    }
  }

  /** Once the loop has stopped at a missing item, later pairs change nothing. */
  lemma {:induction false} PostedLinesStopped(post: seq<(string, string)>, catalog: Catalog, k: nat)
    requires k <= |post| && PostedLines(post[..k], catalog).notFound
    ensures PostedLines(post, catalog) == PostedLines(post[..k], catalog)
    decreases |post| - k
  {
    if k < |post| {
      assert post[..k + 1][..k] == post[..k];
      PostedLinesStopped(post, catalog, k + 1);
    } else {
      assert post[..k] == post;
    }
  }

  datatype CheckoutOutcome =
    | CheckoutNoItems      // order deleted again
    | CheckoutPlaced       // completed, cart cleared
    | CheckoutError        // completed, then the notification raised and was caught: cart kept

  /**
   * `process_order_from_cart`. `cart` is the session cart passed in;
   * `notifyKwargs` the keywords it passes to Notification.
   */
  method ProcessOrderFromCart(session: Session, catalog: Catalog, orderNumber: string, notifyKwargs: set<string>)
    returns (outcome: CheckoutOutcome, order: Orders.Order, kept: bool)
    modifies session
    ensures fresh(order) && order.status == Orders.STATUS_PENDING
    ensures order.items == CartLines(old(session.Cart()), catalog)
    ensures outcome == CheckoutNoItems <==> order.items == []
    ensures outcome == CheckoutNoItems ==> !kept && session.Cart() == old(session.Cart())
    ensures outcome != CheckoutNoItems ==>
              kept && order.Amounts() == Orders.TotalsOf(order.items)
              && order.history == [Orders.HistoryRow("", Orders.STATUS_PENDING, PLACED_NOTE)]
    ensures outcome == CheckoutPlaced <==> order.items != [] && Notifications.CreateAccepts(notifyKwargs)
    ensures outcome == CheckoutPlaced ==> !session.hasCart
    ensures outcome != CheckoutPlaced ==> session.hasCart == old(session.hasCart) && session.cart == old(session.cart)
  {
    var items := session.Cart();
    order := new Orders.Order(orderNumber, "");
    var i := 0;
    while i < |items|
      invariant 0 <= i <= |items|
      invariant order.items == CartLines(items[..i], catalog)
      invariant order.status == Orders.STATUS_PENDING && order.history == []
      modifies order
    {
      assert items[..i + 1][..i] == items[..i];
      var e := items[i];
      if e.itemId in catalog {
        if e.quantity > 0 {
          order.AddLine(Orders.Line(catalog[e.itemId].price, e.quantity));
        }
      }
      i := i + 1;
    }
    assert items[..i] == items;
    if order.items == [] {
      return CheckoutNoItems, order, false;
    }
    kept := true;
    var _ := order.CalculateTotals();
    order.history := order.history + [Orders.HistoryRow("", order.status, PLACED_NOTE)];
    if !Notifications.CreateAccepts(notifyKwargs) {
      return CheckoutError, order, true;
    }
    if session.hasCart {
      session.hasCart := false;
      session.cart := [];
    }
    outcome := CheckoutPlaced;
  }

  // ---------------------------------------------------------------------
  // Admin status changes
  // ---------------------------------------------------------------------

  /** `is_canteen_admin`: signed in, and canteen admin by role or a superuser. */
  predicate IsCanteenAdmin(authenticated: bool, role: string, isSuperuser: bool)
  {
    authenticated && (role == "canteen_admin" || isSuperuser)
  }

  datatype ViewReply = Redirected | NotFoundReply | Reply(status: int)

  const VALIDATED_NOTE: string := "Validated by canteen admin"

  /** `validate_order`: only a PENDING order is validated, with one history row. */
  method ValidateOrder(order: Orders.Order, isAdmin: bool, now: int, notifyKwargs: set<string>)
    returns (r: ViewReply)
    modifies order
    ensures !isAdmin ==> r == Redirected && order.status == old(order.status) && order.history == old(order.history)
    ensures isAdmin && old(order.status) != Orders.STATUS_PENDING ==>
              r == NotFoundReply && order.status == old(order.status) && order.history == old(order.history)
              && order.validatedAt == old(order.validatedAt)
    ensures isAdmin && old(order.status) == Orders.STATUS_PENDING ==>
              order.status == Orders.STATUS_VALIDATED && order.validatedAt == Some(now)
              && order.history == old(order.history)
                                  + [Orders.HistoryRow(Orders.STATUS_PENDING, Orders.STATUS_VALIDATED, VALIDATED_NOTE)]
              && r == (if Notifications.CreateAccepts(notifyKwargs) then Redirected else Reply(500))
    ensures order.items == old(order.items) && order.Amounts() == old(order.Amounts())
  {
    if !isAdmin {
      return Redirected;
    }
    if order.status != Orders.STATUS_PENDING {
      return NotFoundReply;
    }
    order.status := Orders.STATUS_VALIDATED;
    order.validatedAt := Some(now);
    order.history := order.history
                     + [Orders.HistoryRow(Orders.STATUS_PENDING, Orders.STATUS_VALIDATED, VALIDATED_NOTE)];
    if Notifications.CreateAccepts(notifyKwargs) {
      r := Redirected;
    } else {
      r := Reply(500);
    }
  }

  const CONFIRMED_NOTE: string := "Order confirmed by admin"

  /** `confirm_order`: compares against lower-case 'pending'. */
  method ConfirmOrder(order: Orders.Order, isAdmin: bool, isPost: bool, notifyKwargs: set<string>)
    returns (r: ViewReply)
    modifies order
    ensures !isAdmin ==> r == Redirected
    ensures !(isAdmin && isPost && old(order.status) == "pending") ==>
              order.status == old(order.status) && order.history == old(order.history)
    ensures isAdmin && !isPost ==> r == Reply(405)
    ensures isAdmin && isPost && old(order.status) != "pending" ==> r == Reply(400)
    ensures isAdmin && isPost && old(order.status) == "pending" ==>
              order.status == "confirmed"
              && order.history == old(order.history) + [Orders.HistoryRow("pending", "confirmed", CONFIRMED_NOTE)]
              && r == Reply(if Notifications.CreateAccepts(notifyKwargs) then 200 else 500)
    ensures order.items == old(order.items) && order.Amounts() == old(order.Amounts())
  {
    if !isAdmin {
      return Redirected;
    }
    if !isPost {
      return Reply(405);
    }
    if order.status != "pending" {
      return Reply(400);
    }
    order.status := "confirmed";
    order.history := order.history + [Orders.HistoryRow("pending", "confirmed", CONFIRMED_NOTE)];
    r := Reply(if Notifications.CreateAccepts(notifyKwargs) then 200 else 500);
  }

  /** Orders are created as upper-case "PENDING", so `confirm_order` refuses every one of them. */
  lemma ConfirmRefusesCreatedOrders()
    ensures Orders.STATUS_PENDING != "pending"
    ensures Orders.STATUS_VALIDATED != "pending" && Orders.STATUS_CANCELLED != "pending"
    ensures Orders.STATUS_PAID != "pending"
  {
  }

  const UPDATABLE_STATUSES: set<string> := {"confirmed", "preparing", "ready", "completed", "cancelled"}

  /** The history note of `update_order_status`. */
  function StatusNote(notes: string, newStatus: string): (n: string)
    ensures notes != "" ==> n == notes
    ensures notes == "" ==> n == "Status updated to " + newStatus
  {
    if notes != "" then notes else "Status updated to " + newStatus
  }

  /**
   * `update_order_status`: any current status may move to one of the five
   * listed ones. `bodyIsJson` is whether the body parses as a JSON object.
   */
  method UpdateOrderStatus(order: Orders.Order, isAdmin: bool, isPost: bool, bodyIsJson: bool, newStatus: string, notes: string,
                           notifyCustomer: bool, notifyKwargs: set<string>) returns (r: ViewReply)
    modifies order
    ensures !isAdmin ==> r == Redirected
    ensures isAdmin && !isPost ==> r == Reply(405)
    ensures isAdmin && isPost && !bodyIsJson ==> r == Reply(500)
    ensures isAdmin && isPost && bodyIsJson && newStatus !in UPDATABLE_STATUSES ==> r == Reply(400)
    ensures !(isAdmin && isPost && bodyIsJson && newStatus in UPDATABLE_STATUSES) ==>
              order.status == old(order.status) && order.history == old(order.history)
    ensures isAdmin && isPost && bodyIsJson && newStatus in UPDATABLE_STATUSES ==>
              order.status == newStatus
              && order.history == old(order.history)
                                  + [Orders.HistoryRow(old(order.status), newStatus, StatusNote(notes, newStatus))]
              && r == Reply(if notifyCustomer && !Notifications.CreateAccepts(notifyKwargs) then 500 else 200)
    ensures order.items == old(order.items) && order.Amounts() == old(order.Amounts())
  {
    if !isAdmin {
      return Redirected;
    }
    if !isPost {
      return Reply(405);
    }
    if !bodyIsJson {
      // `json.loads` raises inside the handler's `try`.
      return Reply(500);
    }
    if newStatus !in UPDATABLE_STATUSES {
      return Reply(400);
    }
    var oldStatus := order.status;
    order.status := newStatus;
    order.history := order.history + [Orders.HistoryRow(oldStatus, newStatus, StatusNote(notes, newStatus))];
    if notifyCustomer && !Notifications.CreateAccepts(notifyKwargs) {
      return Reply(500);
    }
    r := Reply(200);
  }

  const CANCEL_REASONS: set<string> := {"customer_request", "payment_failed", "item_not_available", "kitchen_issue", "other"}

  function CancelNote(reason: string, notes: string): string
  {
    "Cancelled: " + reason + ". " + notes
  }

  /**
   * `cancel_order` (the definition that takes effect): any current status is
   * cancelled for a listed reason. A requested refund depends on a
   * `payment_status` attribute orders do not have, so it can only end in 500;
   * no money or stock moves in either case. A body that is not a JSON object
   * ends in 500 before anything changes.
   */
  method CancelOrder(order: Orders.Order, isAdmin: bool, isPost: bool, bodyIsJson: bool, reason: string, notes: string,
                     processRefund: bool, notifyKwargs: set<string>) returns (r: ViewReply)
    modifies order
    ensures !isAdmin ==> r == Redirected
    ensures isAdmin && !isPost ==> r == Reply(405)
    ensures isAdmin && isPost && !bodyIsJson ==> r == Reply(500)
    ensures isAdmin && isPost && bodyIsJson && reason !in CANCEL_REASONS ==> r == Reply(400)
    ensures !(isAdmin && isPost && bodyIsJson && reason in CANCEL_REASONS) ==>
              order.status == old(order.status) && order.history == old(order.history)
    ensures isAdmin && isPost && bodyIsJson && reason in CANCEL_REASONS ==>
              order.status == "cancelled"
              && order.history == old(order.history) + [Orders.HistoryRow(old(order.status), "cancelled",
                                                                          CancelNote(reason, notes))]
              && r == Reply(if Notifications.CreateAccepts(notifyKwargs) && !processRefund then 200 else 500)
    ensures order.items == old(order.items) && order.Amounts() == old(order.Amounts())
    ensures order.cancelledAt == old(order.cancelledAt) && order.validatedAt == old(order.validatedAt)
  {
    if !isAdmin {
      return Redirected;
    }
    if !isPost {
      return Reply(405);
    }
    if !bodyIsJson {
      // `json.loads` raises inside the handler's `try`.
      return Reply(500);
    }
    if reason !in CANCEL_REASONS {
      return Reply(400);
    }
    var oldStatus := order.status;
    order.status := "cancelled";
    order.history := order.history + [Orders.HistoryRow(oldStatus, "cancelled", CancelNote(reason, notes))];
    if !Notifications.CreateAccepts(notifyKwargs) {
      return Reply(500);
    }
    if processRefund {
      // `order.payment_status` raises AttributeError; the handler answers 500.
      return Reply(500);
    }
    r := Reply(200);
  }

  /** With the caller's own keywords every accepted cancellation answers 500 after the change is stored. */
  lemma CancelAsWrittenAlwaysErrors(processRefund: bool)
    ensures !(Notifications.CreateAccepts(Notifications.ORDER_STATUS_KWARGS) && !processRefund)
  {
    Notifications.CallerKwargsRejected();
  }

  datatype PaymentEntry = Forbidden | NotValidatedYet | ToPayment

  /** `proceed_to_payment`'s guards: owner or admin, then VALIDATED. */
  function ProceedToPayment(isOwner: bool, isAdmin: bool, isSuperuser: bool, status: string): (r: PaymentEntry)
    ensures r == Forbidden <==> !isOwner && !isAdmin && !isSuperuser
    ensures r == ToPayment <==> (isOwner || isAdmin || isSuperuser) && status == Orders.STATUS_VALIDATED
  {
    if !(isOwner || isAdmin || isSuperuser) then Forbidden
    else if status != Orders.STATUS_VALIDATED then NotValidatedYet
    else ToPayment
  }

  /** Only a validated order reaches payment; a freshly placed one does not. */
  lemma PaymentNeedsValidation(isOwner: bool, isAdmin: bool, isSuperuser: bool)
    ensures ProceedToPayment(isOwner, isAdmin, isSuperuser, Orders.STATUS_PENDING) != ToPayment
    ensures isOwner ==> ProceedToPayment(isOwner, isAdmin, isSuperuser, Orders.STATUS_VALIDATED) == ToPayment
  {
  }
}
