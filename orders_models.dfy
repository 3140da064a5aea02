/**
 * Orders, their line items and totals.
 *
 * An order's line items are the rows stored for it (`Line` values: every
 * query for them yields fresh rows); `calculate_totals` sums them in a loop,
 * applies the zero service and tax rates and quantizes every amount to cents.
 */
module Orders {
  import opened Common
  import Menu

  // Order status values, exactly as stored (upper case).
  const STATUS_PENDING: string := "PENDING"
  const STATUS_VALIDATED: string := "VALIDATED"
  const STATUS_CANCELLED: string := "CANCELLED"
  const STATUS_PAID: string := "PAID"

  const PAYMENT_WALLET: string := "wallet"
  const PAYMENT_MTN: string := "mtn_momo"
  const PAYMENT_ORANGE: string := "orange_money"

  /** The service-fee and tax rates `calculate_totals` applies (both placeholders at 0). */
  const SERVICE_RATE: real := 0.0
  const TAX_RATE: real := 0.0

  // ---------------------------------------------------------------------
  // Cents and rounding
  // ---------------------------------------------------------------------

  /** `x` has at most two decimal places. */
  predicate IsCents(x: real)
  {
    (x * 100.0).Floor as real == x * 100.0
  }

  /** `Decimal.quantize(Decimal("0.01"))` under the default ROUND_HALF_EVEN rounding. */
  function Quantize(x: real): (r: real)
    ensures IsCents(r)
    ensures -0.005 <= r - x <= 0.005
  {
    var scaled := x * 100.0;
    var f := scaled.Floor;
    var frac := scaled - f as real;
    assert 0.0 <= frac < 1.0;
    var n := if frac > 0.5 || (frac == 0.5 && f % 2 != 0) then f + 1 else f;
    assert -0.5 <= n as real - scaled <= 0.5;
    var r := n as real / 100.0;
    assert r * 100.0 == n as real;
    assert (r * 100.0).Floor == n;
    assert r - x == (n as real - scaled) / 100.0;
    r
  }

  /** Quantizing a value that already has two decimals changes nothing; so quantizing twice is quantizing once. */
  lemma QuantizeExact(x: real)
    requires IsCents(x)
    ensures Quantize(x) == x
  {
    var scaled := x * 100.0;
    assert scaled - scaled.Floor as real == 0.0;
  }

  lemma QuantizeIdempotent(x: real)
    ensures Quantize(Quantize(x)) == Quantize(x)
  {
    QuantizeExact(Quantize(x));
  }

  lemma CentsAdd(a: real, b: real)
    requires IsCents(a) && IsCents(b)
    ensures IsCents(a + b)
  {
    var ka := (a * 100.0).Floor;
    var kb := (b * 100.0).Floor;
    assert (a + b) * 100.0 == (ka + kb) as real;
  }

  // ---------------------------------------------------------------------
  // Line items
  // ---------------------------------------------------------------------

  /** A stored line item: the snapshotted unit price and the quantity ordered. */
  datatype Line = Line(unitPrice: real, quantity: nat)

  /** `OrderItem.total`. */
  function LineTotal(l: Line): real
  {
    l.unitPrice * l.quantity as real
  }

  /** The subtotal loop of `calculate_totals`, one line at a time in storage order. */
  function Subtotal(lines: seq<Line>): real
  {
    if |lines| == 0 then 0.0 else Subtotal(lines[..|lines| - 1]) + LineTotal(lines[|lines| - 1])
  }

  /** The subtotal does not depend on how the lines are grouped. */
  lemma {:induction false} SubtotalConcat(a: seq<Line>, b: seq<Line>)
    ensures Subtotal(a + b) == Subtotal(a) + Subtotal(b)
    decreases |b|
  {
    if |b| > 0 {
      var b' := b[..|b| - 1];
      assert (a + b)[..|a + b| - 1] == a + b';
      SubtotalConcat(a, b');
    } else {
      assert a + b == a;
    }
  }

  lemma LineTotalIsCents(l: Line)
    requires IsCents(l.unitPrice)
    ensures IsCents(LineTotal(l))
  {
    var ka := (l.unitPrice * 100.0).Floor;
    var q := l.quantity as real;
    SwapFactors(l.unitPrice, q, 100.0);
    IntegerProduct(l.unitPrice * 100.0, ka, l.quantity);
    var m := ka * l.quantity;
    assert LineTotal(l) * 100.0 == m as real;
    assert (m as real).Floor == m;
  }

  lemma SwapFactors(u: real, q: real, c: real)
    ensures (u * q) * c == (u * c) * q
  {
  }

  lemma IntegerProduct(a: real, k: int, n: int)
    requires a == k as real
    ensures a * (n as real) == (k * n) as real
  {
  }

  /** Prices with at most two decimals (integer quantities) sum to a value with at most two decimals. */
  lemma {:induction false} SubtotalIsCents(lines: seq<Line>)
    requires forall i :: 0 <= i < |lines| ==> IsCents(lines[i].unitPrice)
    ensures IsCents(Subtotal(lines))
  {
    if |lines| > 0 {
      var last := lines[|lines| - 1];
      SubtotalIsCents(lines[..|lines| - 1]);
      LineTotalIsCents(last);
      CentsAdd(Subtotal(lines[..|lines| - 1]), LineTotal(last));
    }
  }

  lemma {:induction false} SubtotalNonNegative(lines: seq<Line>)
    requires forall i :: 0 <= i < |lines| ==> lines[i].unitPrice >= 0.0
    ensures Subtotal(lines) >= 0.0
  {
    if |lines| > 0 {
      SubtotalNonNegative(lines[..|lines| - 1]);
      var last := lines[|lines| - 1];
      assert last.unitPrice * last.quantity as real >= 0.0;
    }
  }

  // ---------------------------------------------------------------------
  // Totals
  // ---------------------------------------------------------------------

  /** The four amounts `calculate_totals` stores and returns. */
  datatype Totals = Totals(subtotal: real, serviceFee: real, taxAmount: real, totalAmount: real)

  /** What `calculate_totals` computes from the stored lines. */
  function TotalsOf(lines: seq<Line>): Totals
  {
    var subtotal := Subtotal(lines);
    var serviceFee := subtotal * SERVICE_RATE;
    var tax := subtotal * TAX_RATE;
    Totals(Quantize(subtotal), Quantize(serviceFee), Quantize(tax), Quantize(subtotal + serviceFee + tax))
  }

  /**
   * With both rates at zero the fee and the tax vanish, the total is the
   * subtotal and equals the sum of the three stored parts; an order without
   * lines totals zero everywhere.
   */
  lemma TotalsConsistent(lines: seq<Line>)
    ensures TotalsOf(lines).serviceFee == 0.0 && TotalsOf(lines).taxAmount == 0.0
    ensures TotalsOf(lines).totalAmount == TotalsOf(lines).subtotal
    ensures TotalsOf(lines).totalAmount
            == TotalsOf(lines).subtotal + TotalsOf(lines).serviceFee + TotalsOf(lines).taxAmount
    ensures lines == [] ==> TotalsOf(lines) == Totals(0.0, 0.0, 0.0, 0.0)
  {
    QuantizeExact(0.0);
  }

  /** With unit prices in whole cents the quantization is exact: the stored subtotal is the true sum. */
  lemma TotalsExactForCentPrices(lines: seq<Line>)
    requires forall i :: 0 <= i < |lines| ==> IsCents(lines[i].unitPrice)
    ensures TotalsOf(lines).subtotal == Subtotal(lines)
    ensures TotalsOf(lines).totalAmount == Subtotal(lines)
  {
    SubtotalIsCents(lines);
    QuantizeExact(Subtotal(lines));
    TotalsConsistent(lines);
  }

  /** Adding one line raises the exact subtotal by that line's total. */
  lemma SubtotalAddLine(lines: seq<Line>, l: Line)
    ensures Subtotal(lines + [l]) == Subtotal(lines) + LineTotal(l)
  {
    assert (lines + [l])[..|lines|] == lines;
  }

  // ---------------------------------------------------------------------
  // OrderItem.save price snapshot
  // ---------------------------------------------------------------------

  /** `OrderItem.save`: a falsy (zero) unit price is replaced by the menu item's price. */
  function SnapshotPrice(unitPrice: real, menuPrice: real): (r: real)
    ensures unitPrice != 0.0 ==> r == unitPrice
    ensures unitPrice == 0.0 ==> r == menuPrice
  {
    if unitPrice == 0.0 then menuPrice else unitPrice
  }

  /** Saving twice snapshots nothing new, and a later menu price change is not picked up. */
  lemma SnapshotStable(unitPrice: real, menuPrice: real, laterPrice: real)
    requires menuPrice != 0.0
    ensures SnapshotPrice(SnapshotPrice(unitPrice, menuPrice), laterPrice) == SnapshotPrice(unitPrice, menuPrice)
  {
  }

  class OrderItem {
    var menuItem: Menu.MenuItem
    var quantity: nat
    var unitPrice: real

    /** A line for `menuItem`; unit price defaults to 0 until saved. */
    constructor (menuItem: Menu.MenuItem, quantity: nat, unitPrice: real)
      ensures this.menuItem == menuItem && this.quantity == quantity && this.unitPrice == unitPrice
    {
      this.menuItem := menuItem;
      this.quantity := quantity;
      this.unitPrice := unitPrice;
    }

    function Row(): Line
      reads this
    {
      Line(unitPrice, quantity)
    }

    /** `OrderItem.total`: the item's contribution to its order's subtotal. */
    function Total(): (r: real)
      reads this
      ensures forall lines: seq<Line> {:trigger Subtotal(lines + [Row()])} ::
                Subtotal(lines + [Row()]) == Subtotal(lines) + r
    {
      forall lines: seq<Line> ensures Subtotal(lines + [Row()]) == Subtotal(lines) + LineTotal(Row()) {
        SubtotalAddLine(lines, Row());
      }
      LineTotal(Row())
    }

    /** `OrderItem.save`: snapshots the menu item's current price when none was set. */
    method Save()
      modifies this
      ensures unitPrice == SnapshotPrice(old(unitPrice), menuItem.price)
      ensures menuItem == old(menuItem) && quantity == old(quantity)
    {
      if unitPrice == 0.0 {
        unitPrice := menuItem.price;
      }
    }
  }

  // ---------------------------------------------------------------------
  // Order
  // ---------------------------------------------------------------------

  /** One `OrderHistory` row: the status change and its notes. */
  datatype HistoryRow = HistoryRow(statusFrom: string, statusTo: string, notes: string)

  class Order {
    var orderNumber: string
    var status: string
    var paymentMethod: string
    var items: seq<Line>
    var subtotal: real
    var serviceFee: real
    var taxAmount: real
    var totalAmount: real
    var history: seq<HistoryRow>
    var validatedAt: Option<int>
    var cancelledAt: Option<int>

    /** A freshly created order: PENDING, no lines, no history, zero amounts. */
    constructor (orderNumber: string, paymentMethod: string)
      ensures this.orderNumber == orderNumber && this.paymentMethod == paymentMethod
      ensures status == STATUS_PENDING && items == [] && history == []
      ensures Amounts() == Totals(0.0, 0.0, 0.0, 0.0)
      ensures validatedAt == None && cancelledAt == None
    {
      this.orderNumber := orderNumber;
      this.paymentMethod := paymentMethod;
      status := STATUS_PENDING;
      items := [];
      subtotal, serviceFee, taxAmount, totalAmount := 0.0, 0.0, 0.0, 0.0;
      history := [];
      validatedAt, cancelledAt := None, None;
    }

    function Amounts(): Totals
      reads this
    {
      Totals(subtotal, serviceFee, taxAmount, totalAmount)
    }

    /**
     * `calculate_totals`: recomputes the four amounts from the stored lines
     * and returns what it stored. Only the amounts change.
     */
    method CalculateTotals() returns (r: Totals)
      modifies this
      ensures r == TotalsOf(items) && Amounts() == r
      ensures items == old(items) && status == old(status) && history == old(history)
      ensures orderNumber == old(orderNumber) && paymentMethod == old(paymentMethod)
      ensures validatedAt == old(validatedAt) && cancelledAt == old(cancelledAt)
    {
      var sum := 0.0;
      var i := 0;
      while i < |items|
        invariant 0 <= i <= |items|
        invariant sum == Subtotal(items[..i])
      {
        assert items[..i + 1][..i] == items[..i];
        sum := sum + LineTotal(items[i]);
        i := i + 1;
      }
      assert items[..i] == items;
      var fee := sum * SERVICE_RATE;
      var tax := sum * TAX_RATE;
      var total := sum + fee + tax;
      subtotal := Quantize(sum);
      serviceFee := Quantize(fee);
      taxAmount := Quantize(tax);
      totalAmount := Quantize(total);
      r := Totals(subtotal, serviceFee, taxAmount, totalAmount);
    }

    /** Stores one more line item for this order. */
    method AddLine(l: Line)
      modifies this
      ensures items == old(items) + [l]
      ensures status == old(status) && history == old(history) && Amounts() == old(Amounts())
      ensures orderNumber == old(orderNumber) && paymentMethod == old(paymentMethod)
      ensures validatedAt == old(validatedAt) && cancelledAt == old(cancelledAt)
    {
      items := items + [l];
    }
  }

  /**
   * Every stored amount is already at two decimal places, so quantising it
   * again changes nothing; with `CalculateTotals` keeping the lines, running
   * it a second time stores the same amounts.
   */
  lemma TotalsRecomputeStable(lines: seq<Line>)
    ensures var t := TotalsOf(lines);
            Quantize(t.subtotal) == t.subtotal && Quantize(t.serviceFee) == t.serviceFee
            && Quantize(t.taxAmount) == t.taxAmount && Quantize(t.totalAmount) == t.totalAmount
  {
    var s := Subtotal(lines);
    QuantizeIdempotent(s);
    QuantizeIdempotent(s * SERVICE_RATE);
    QuantizeIdempotent(s * TAX_RATE);
    QuantizeIdempotent(s + s * SERVICE_RATE + s * TAX_RATE);
  }

  // ---------------------------------------------------------------------
  // Order numbers
  // ---------------------------------------------------------------------

  predicate IsLowerHex(c: char) { ('0' <= c <= '9') || ('a' <= c <= 'f') }
  predicate IsUpperHex(c: char) { ('0' <= c <= '9') || ('A' <= c <= 'F') }

  lemma UpperOfHex(c: char)
    requires IsLowerHex(c)
    ensures IsUpperHex(UpperChar(c))
    ensures UpperChar(c) == c <==> '0' <= c <= '9'
    ensures UpperChar(c) as int - c as int == (if 'a' <= c <= 'f' then -32 else 0)
  {
    if 'a' <= c <= 'f' {
      assert 97 <= c as int <= 102;
      assert UpperChar(c) as int == c as int - 32;
      assert 65 <= UpperChar(c) as int <= 70;
    }
  }

  /**
   * `generate_order_number`: the first 12 characters of a uuid4's 32-digit
   * lower-case hex form, upper-cased. The uuid is the caller's input.
   */
  function GenerateOrderNumber(uuidHex: string): (r: string)
    requires |uuidHex| == 32 && forall i :: 0 <= i < 32 ==> IsLowerHex(uuidHex[i])
    ensures |r| == 12
    ensures forall i :: 0 <= i < 12 ==> IsUpperHex(r[i])
    ensures forall i :: 0 <= i < 12 ==>
              (r[i] == uuidHex[i] <==> '0' <= uuidHex[i] <= '9')
              && r[i] as int - uuidHex[i] as int == (if 'a' <= uuidHex[i] <= 'f' then -32 else 0)
  {
    var r := Upper(uuidHex[..12]);
    forall i | 0 <= i < 12
      ensures IsUpperHex(r[i]) && (r[i] == uuidHex[i] <==> '0' <= uuidHex[i] <= '9')
      ensures r[i] as int - uuidHex[i] as int == (if 'a' <= uuidHex[i] <= 'f' then -32 else 0)
    {
      assert r[i] == UpperChar(uuidHex[..12][i]) && uuidHex[..12][i] == uuidHex[i];
      UpperOfHex(uuidHex[i]);
    }
    r
  }

  // ---------------------------------------------------------------------
  // ReorderItem
  // ---------------------------------------------------------------------

  class ReorderItem {
    var quantity: nat
    var orderCount: nat
    var lastOrdered: int

    constructor (quantity: nat, now: int)
      ensures this.quantity == quantity && orderCount == 1 && lastOrdered == now
    {
      this.quantity := quantity;
      orderCount := 1;
      lastOrdered := now;
    }

    /** `increment_order_count`: one more order, stamped with `now`. */
    method IncrementOrderCount(now: int)
      modifies this
      ensures orderCount == old(orderCount) + 1
      ensures lastOrdered == now && quantity == old(quantity)
    {
      orderCount := orderCount + 1;
      lastOrdered := now;
    }
  }
}
