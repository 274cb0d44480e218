/**
 * OrderManager.prepareOrder: the order record built from a cart snapshot,
 * a shipping address and a payment transaction id.
 *
 * The two clock reads of the storefront (the epoch milliseconds behind the
 * order id, and the ISO-8601 timestamp string) are parameters here.
 */
module Orders {
  import opened Wrappers
  import opened CartModel

  /** A shipping address: the country, plus the free-form other fields. */
  datatype Address = Address(country: Option<string>, details: map<string, string>)

  datatype OrderItem = OrderItem(
    productId: ProductId, productName: string, price: int, quantity: int, subtotal: int)

  datatype Payment = Payment(paymentMethod: string, transactionId: string, status: string)

  datatype Order = Order(
    orderId: string,
    timestamp: string,
    items: seq<OrderItem>,
    subtotal: int,
    shippingCost: int,
    deliveryRegion: string,
    total: int,
    shipping: Address,
    payment: Payment)

  const PaymentMethod := "UPI/QR"
  const PendingStatus := "pending"

  // ---------------------------------------------------------------------
  // Order ids: "ORD-" followed by the epoch milliseconds in decimal
  // ---------------------------------------------------------------------

  predicate IsDigit(c: char) {
    '0' <= c <= '9'
  }

  function DigitChar(d: nat): (c: char)
    requires d < 10
    ensures IsDigit(c) && c as int - '0' as int == d
  {
    ('0' as int + d) as char
  }

  /** The decimal rendering of n, as JavaScript's number-to-string gives it
      for a whole number: digits only, no leading zero. */
  function Decimal(n: nat): (r: string)
    ensures |r| >= 1
    ensures forall i :: 0 <= i < |r| ==> IsDigit(r[i])
    ensures n > 0 ==> r[0] != '0'
  {
    if n < 10 then [DigitChar(n)] else Decimal(n / 10) + [DigitChar(n % 10)]
  }

  /** The number a string of decimal digits denotes. */
  function DecimalValue(s: string): nat
    requires forall i :: 0 <= i < |s| ==> IsDigit(s[i])
  {
    if s == [] then 0
    else
      assert IsDigit(s[|s| - 1]);
      DecimalValue(s[..|s| - 1]) * 10 + (s[|s| - 1] as int - '0' as int)
  }

  lemma {:induction false} DecimalRoundTrip(n: nat)
    ensures DecimalValue(Decimal(n)) == n
  {
    if n >= 10 {
      var d := Decimal(n / 10);
      var r := Decimal(n);
      assert r == d + [DigitChar(n % 10)];
      assert r[..|r| - 1] == d;
      DecimalRoundTrip(n / 10);
    }
  }

  /** 'ORD-' + Date.now(): the prefix, then digits that denote the clock reading. */
  function OrderId(now: nat): (r: string)
    ensures |r| > 4 && r[..4] == "ORD-"
    ensures forall i :: 4 <= i < |r| ==> IsDigit(r[i])
    ensures DecimalValue(r[4..]) == now
  {
    var r := "ORD-" + Decimal(now);
    assert r[4..] == Decimal(now);
    DecimalRoundTrip(now);
    r
  }

  /** Two orders prepared at different milliseconds get different ids. */
  lemma OrderIdInjective(a: nat, b: nat)
    requires OrderId(a) == OrderId(b)
    ensures a == b
  {
  }

  // ---------------------------------------------------------------------
  // The order record
  // ---------------------------------------------------------------------

  function ToOrderItem(item: LineItem): OrderItem {
    OrderItem(item.id, item.name, item.price, item.quantity, Subtotal(item))
  }

  /** `cart.map(...)`: one order entry per cart row, in cart order. */
  function OrderItems(cart: seq<LineItem>): (r: seq<OrderItem>)
    ensures |r| == |cart|
  {
    seq(|cart|, i requires 0 <= i < |cart| => ToOrderItem(cart[i]))
  }

  function SumSubtotals(items: seq<OrderItem>): int {
    if items == [] then 0 else items[0].subtotal + SumSubtotals(items[1..])
  }

  /** The entry subtotals add up to the cart total. */
  lemma {:induction false} SumSubtotalsIsTotal(cart: seq<LineItem>)
    ensures SumSubtotals(OrderItems(cart)) == Total(cart)
  {
    if cart != [] {
      assert OrderItems(cart)[1..] == OrderItems(cart[1..]);
      SumSubtotalsIsTotal(cart[1..]);
    }
  }

  function DeliveryRegion(country: Option<string>): string {
    if country == Some("India") then "India" else "International"
  }

  /** Builds the order. `now` stands for Date.now() and `timestamp` for the
      ISO-8601 string of the current time. */
  function PrepareOrder(
    cart: seq<LineItem>, address: Address, transactionId: string, now: nat, timestamp: string): (r: Order)
    ensures r.subtotal == Total(cart)
    ensures r.shippingCost == ShippingCost(address.country)
    ensures r.total == r.subtotal + r.shippingCost
    ensures |r.items| == |cart|
    ensures forall i :: 0 <= i < |cart| ==>
      && r.items[i].productId == cart[i].id
      && r.items[i].productName == cart[i].name
      && r.items[i].price == cart[i].price
      && r.items[i].quantity == cart[i].quantity
      && r.items[i].subtotal == cart[i].price * cart[i].quantity
    ensures SumSubtotals(r.items) == r.subtotal
    ensures r.deliveryRegion == "India" <==> address.country == Some("India")
    ensures r.deliveryRegion == "India" || r.deliveryRegion == "International"
    ensures r.payment == Payment(PaymentMethod, transactionId, PendingStatus)
    ensures r.shipping == address
    ensures r.timestamp == timestamp
    ensures r.orderId == OrderId(now)
  {
    var subtotal := Total(cart);
    var shippingCost := ShippingCost(address.country);
    SumSubtotalsIsTotal(cart);
    Order(
      OrderId(now),
      timestamp,
      OrderItems(cart),
      subtotal,
      shippingCost,
      DeliveryRegion(address.country),
      subtotal + shippingCost,
      address,
      Payment(PaymentMethod, transactionId, PendingStatus))
  }

  /** A region of "India" always comes with the domestic rate. */
  lemma IndiaRegionShipsDomestic(
    cart: seq<LineItem>, address: Address, transactionId: string, now: nat, timestamp: string)
    requires PrepareOrder(cart, address, transactionId, now, timestamp).deliveryRegion == "India"
    ensures PrepareOrder(cart, address, transactionId, now, timestamp).shippingCost == DomesticRate
  {
    ShippingCostExamples();
  }

  /** The converse fails: the region test is case-sensitive and treats a missing
      country as international, while the shipping tier charges both the
      domestic rate. */
  lemma RegionAndShippingDisagree(cart: seq<LineItem>, transactionId: string, now: nat, timestamp: string)
    ensures var o := PrepareOrder(cart, Address(Some("INDIA"), map[]), transactionId, now, timestamp);
      o.deliveryRegion == "International" && o.shippingCost == DomesticRate
    ensures var o := PrepareOrder(cart, Address(None, map[]), transactionId, now, timestamp);
      o.deliveryRegion == "International" && o.shippingCost == DomesticRate
  {
    ShippingCostExamples();
  }

  /** An order to India pays the subtotal plus 100. */
  lemma IndiaOrderTotal(cart: seq<LineItem>, details: map<string, string>, now: nat, timestamp: string)
    ensures var o := PrepareOrder(cart, Address(Some("India"), details), "TXN1", now, timestamp);
      o.total == o.subtotal + 100 && o.deliveryRegion == "India"
  {
    ShippingCostExamples();
  }
}
