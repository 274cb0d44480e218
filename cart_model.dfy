/**
 * The cart as a value: an ordered list of line items keyed by product id,
 * the pure updates that CartManager applies to it, and the read-outs
 * (total, item count, shipping tier) computed from it.
 *
 * Prices are whole currency units (`int`). The storefront computes with
 * JavaScript floating-point numbers; integer prices are a deliberate
 * departure, so that sums are exact.
 */
module CartModel {
  import opened Wrappers

  type ProductId = string

  /** A catalogue product as handed to addItem (its other fields are not modelled). */
  datatype Product = Product(id: ProductId, name: string, price: int)

  /** One row of the cart: the product's fields plus the quantity ordered. */
  datatype LineItem = LineItem(id: ProductId, name: string, price: int, quantity: int)

  /** The row that addItem appends for a product not yet in the cart: `{ ...product, quantity }`. */
  function NewLine(p: Product, quantity: int): LineItem {
    LineItem(p.id, p.name, p.price, quantity)
  }

  function Subtotal(item: LineItem): int {
    item.price * item.quantity
  }

  predicate HasId(s: seq<LineItem>, id: ProductId) {
    exists i :: 0 <= i < |s| && s[i].id == id
  }

  /** No two rows share a product id. */
  predicate UniqueIds(s: seq<LineItem>) {
    forall i, j :: 0 <= i < j < |s| ==> s[i].id != s[j].id
  }

  /** Every row orders at least one unit. */
  predicate PositiveQuantities(s: seq<LineItem>) {
    forall i :: 0 <= i < |s| ==> s[i].quantity >= 1
  }

  /** Every row has a non-negative price and quantity. */
  predicate NonNegative(s: seq<LineItem>) {
    forall i :: 0 <= i < |s| ==> s[i].price >= 0 && s[i].quantity >= 0
  }

  // ---------------------------------------------------------------------
  // Lookup: Array.prototype.find on the id
  // ---------------------------------------------------------------------

  /** The index of the FIRST row carrying `id`, or None when there is none. */
  function FindIndex(s: seq<LineItem>, id: ProductId): (r: Option<nat>)
    ensures r.None? <==> !HasId(s, id)
    ensures r.Some? ==> r.value < |s| && s[r.value].id == id
    ensures r.Some? ==> forall j :: 0 <= j < r.value ==> s[j].id != id
  {
    if s == [] then None
    else if s[0].id == id then Some(0)
    else
      match FindIndex(s[1..], id)
      case None => None
      case Some(i) => Some(i + 1)
  }

  // ---------------------------------------------------------------------
  // Read-outs: the two `reduce` expressions
  // ---------------------------------------------------------------------

  /** Sum of price * quantity over the rows (getTotal, and prepareOrder's subtotal). */
  function Total(s: seq<LineItem>): (r: int)
    ensures NonNegative(s) ==> r >= 0
  {
    if s == [] then 0
    else
      assert s[0].price >= 0 && s[0].quantity >= 0 ==> Subtotal(s[0]) >= 0;
      Subtotal(s[0]) + Total(s[1..])
  }

  /** Sum of the quantities (getItemCount). With positive quantities it is at
      least the number of rows, so it is 0 exactly on the empty cart. */
  function ItemCount(s: seq<LineItem>): (r: int)
    ensures PositiveQuantities(s) ==> r >= |s|
    ensures PositiveQuantities(s) ==> (r == 0 <==> s == [])
  {
    if s == [] then 0 else s[0].quantity + ItemCount(s[1..])
  }

  lemma {:induction false} TotalAppend(a: seq<LineItem>, b: seq<LineItem>)
    ensures Total(a + b) == Total(a) + Total(b)
    ensures Total([]) == 0
  {
    if a == [] {
      assert a + b == b;
    } else {
      assert (a + b)[1..] == a[1..] + b;
      TotalAppend(a[1..], b);
    }
  }

  lemma {:induction false} ItemCountAppend(a: seq<LineItem>, b: seq<LineItem>)
    ensures ItemCount(a + b) == ItemCount(a) + ItemCount(b)
    ensures ItemCount([]) == 0
  {
    if a == [] {
      assert a + b == b;
    } else {
      assert (a + b)[1..] == a[1..] + b;
      ItemCountAppend(a[1..], b);
    }
  }

  /** Replacing one row changes the total by the difference of the two rows' subtotals. */
  lemma {:induction false} TotalReplace(s: seq<LineItem>, i: nat, x: LineItem)
    requires i < |s|
    ensures Total(s[i := x]) == Total(s) - Subtotal(s[i]) + Subtotal(x)
  {
    if i > 0 {
      assert s[i := x][1..] == s[1..][i - 1 := x];
      TotalReplace(s[1..], i - 1, x);
    }
  }

  /** Replacing one row changes the item count by the difference of the two quantities. */
  lemma {:induction false} ItemCountReplace(s: seq<LineItem>, i: nat, x: LineItem)
    requires i < |s|
    ensures ItemCount(s[i := x]) == ItemCount(s) - s[i].quantity + x.quantity
  {
    if i > 0 {
      assert s[i := x][1..] == s[1..][i - 1 := x];
      ItemCountReplace(s[1..], i - 1, x);
    }
  }

  // ---------------------------------------------------------------------
  // addItem: merge by id or append
  // ---------------------------------------------------------------------

  /** The cart after addItem(p, q): the first row with p's id gets q more units;
      without such a row, a new row for p with quantity q goes at the end. */
  function Added(s: seq<LineItem>, p: Product, q: int): (r: seq<LineItem>)
    ensures HasId(r, p.id)
    ensures HasId(s, p.id) ==>
      var i := FindIndex(s, p.id).value;
      && |r| == |s|
      && r[i] == s[i].(quantity := s[i].quantity + q)
      && forall k :: 0 <= k < |s| && k != i ==> r[k] == s[k]
    ensures !HasId(s, p.id) ==> r == s + [NewLine(p, q)]
    ensures ItemCount(r) == ItemCount(s) + q
  {
    match FindIndex(s, p.id)
    case Some(i) =>
      var r := s[i := s[i].(quantity := s[i].quantity + q)];
      ItemCountReplace(s, i, r[i]);
      r
    case None =>
      ItemCountAppend(s, [NewLine(p, q)]);
      assert (s + [NewLine(p, q)])[|s|].id == p.id;
      s + [NewLine(p, q)]
  }

  lemma AddedKeepsUniqueIds(s: seq<LineItem>, p: Product, q: int)
    requires UniqueIds(s)
    ensures UniqueIds(Added(s, p, q))
  {
    var r := Added(s, p, q);
    if HasId(s, p.id) {
      var i := FindIndex(s, p.id).value;
      assert forall k :: 0 <= k < |s| ==> r[k].id == s[k].id;
    } else {
      assert forall k :: 0 <= k < |s| ==> r[k] == s[k] && s[k].id != p.id;
      assert r[|s|].id == p.id;
    }
  }

  lemma AddedKeepsPositiveQuantities(s: seq<LineItem>, p: Product, q: int)
    requires PositiveQuantities(s) && q >= 1
    ensures PositiveQuantities(Added(s, p, q))
  {
    var r := Added(s, p, q);
    if !HasId(s, p.id) {
      assert r[|s|].quantity == q;
    }
  }

  /** The price the cart charges for p after addItem: an existing row keeps its own price. */
  function MergedPrice(s: seq<LineItem>, p: Product): int {
    match FindIndex(s, p.id)
    case Some(i) => s[i].price
    case None => p.price
  }

  /** addItem raises the total by q units at the row's price. */
  lemma TotalAdded(s: seq<LineItem>, p: Product, q: int)
    ensures Total(Added(s, p, q)) == Total(s) + MergedPrice(s, p) * q
  {
    if HasId(s, p.id) {
      var i := FindIndex(s, p.id).value;
      var x := s[i].(quantity := s[i].quantity + q);
      assert Added(s, p, q) == s[i := x];
      TotalReplace(s, i, x);
      SubtotalAddQuantity(s[i], q);
    } else {
      TotalAppend(s, [NewLine(p, q)]);
      assert Total([NewLine(p, q)]) == p.price * q;
    }
  }

  /** q more units of a row add q times its price to its subtotal. */
  lemma SubtotalAddQuantity(x: LineItem, q: int)
    ensures Subtotal(x.(quantity := x.quantity + q)) == Subtotal(x) + x.price * q
  {
    assert x.price * (x.quantity + q) == x.price * x.quantity + x.price * q;
  }

  /** Adding the same product twice is adding the summed quantity once:
      no duplicate row is ever created for it. */
  lemma AddedTwice(s: seq<LineItem>, p: Product, q1: int, q2: int)
    ensures Added(Added(s, p, q1), p, q2) == Added(s, p, q1 + q2)
    ensures !HasId(s, p.id) ==> Added(Added(s, p, q1), p, q2) == s + [NewLine(p, q1 + q2)]
  {
    var s1 := Added(s, p, q1);
    if HasId(s, p.id) {
      var i := FindIndex(s, p.id).value;
      assert FindIndex(s1, p.id) == Some(i) by {
        assert forall k :: 0 <= k < i ==> s1[k] == s[k];
      }
    } else {
      assert FindIndex(s1, p.id) == Some(|s|) by {
        assert forall k :: 0 <= k < |s| ==> s1[k] == s[k];
        assert s1[|s|].id == p.id;
      }
    }
  }

  // ---------------------------------------------------------------------
  // removeItem: filter out the id
  // ---------------------------------------------------------------------

  /** The cart after removeItem(id): every row with that id dropped, the rest kept. */
  function Removed(s: seq<LineItem>, id: ProductId): (r: seq<LineItem>)
    ensures !HasId(r, id)
    ensures forall x :: x in r <==> x in s && x.id != id
    ensures |r| <= |s|
    ensures !HasId(s, id) ==> r == s
  {
    if s == [] then []
    else if s[0].id == id then Removed(s[1..], id)
    else
      var tail := Removed(s[1..], id);
      assert !HasId(s[1..], id) ==> s == [s[0]] + s[1..];
      assert forall x :: x in [s[0]] + tail <==> x == s[0] || x in tail;
      [s[0]] + tail
  }

  /** Filtering distributes over concatenation, so the surviving rows keep
      their relative order. */
  lemma {:induction false} RemovedAppend(a: seq<LineItem>, b: seq<LineItem>, id: ProductId)
    ensures Removed(a + b, id) == Removed(a, id) + Removed(b, id)
  {
    if a == [] {
      assert a + b == b;
    } else {
      assert (a + b)[1..] == a[1..] + b;
      RemovedAppend(a[1..], b, id);
    }
  }

  lemma {:induction false} RemovedKeepsUniqueIds(s: seq<LineItem>, id: ProductId)
    requires UniqueIds(s)
    ensures UniqueIds(Removed(s, id))
  {
    if s != [] {
      var tail := s[1..];
      assert UniqueIds(tail) by {
        forall i, j | 0 <= i < j < |tail| ensures tail[i].id != tail[j].id {
          assert tail[i] == s[i + 1] && tail[j] == s[j + 1];
        }
      }
      RemovedKeepsUniqueIds(tail, id);
      if s[0].id != id {
        var rt := Removed(tail, id);
        assert !HasId(tail, s[0].id) by {
          forall m | 0 <= m < |tail| ensures tail[m].id != s[0].id {
            assert tail[m] == s[m + 1];
          }
        }
        forall k | 0 <= k < |rt| ensures rt[k].id != s[0].id {
          MemberHasId(tail, rt[k]);
        }
        UniqueCons(s[0], rt);
      }
    }
  }

  lemma MemberHasId(s: seq<LineItem>, x: LineItem)
    requires x in s
    ensures HasId(s, x.id)
  {
    var m :| 0 <= m < |s| && s[m] == x;
  }

  lemma UniqueCons(x: LineItem, t: seq<LineItem>)
    requires UniqueIds(t)
    requires forall k :: 0 <= k < |t| ==> t[k].id != x.id
    ensures UniqueIds([x] + t)
  {
    var r := [x] + t;
    forall i, j | 0 <= i < j < |r| ensures r[i].id != r[j].id {
      assert r[j] == t[j - 1];
      if i > 0 {
        assert r[i] == t[i - 1];
      }
    }
  }

  lemma RemovedKeepsPositiveQuantities(s: seq<LineItem>, id: ProductId)
    requires PositiveQuantities(s)
    ensures PositiveQuantities(Removed(s, id))
  {
    var r := Removed(s, id);
    forall k | 0 <= k < |r| ensures r[k].quantity >= 1 {
      assert r[k] in s;
    }
  }

  /** In a cart with unique ids, removing a present id deletes exactly its one row;
      the item count and total drop by that row's quantity and subtotal. */
  lemma RemovedFromUnique(s: seq<LineItem>, id: ProductId)
    requires UniqueIds(s) && HasId(s, id)
    ensures var i := FindIndex(s, id).value;
      && Removed(s, id) == s[..i] + s[i + 1..]
      && |Removed(s, id)| == |s| - 1
      && ItemCount(Removed(s, id)) == ItemCount(s) - s[i].quantity
      && Total(Removed(s, id)) == Total(s) - Subtotal(s[i])
  {
    var i := FindIndex(s, id).value;
    var pre, post := s[..i], s[i + 1..];
    assert s == pre + [s[i]] + post;
    assert !HasId(pre, id);
    assert !HasId(post, id) by {
      forall k | 0 <= k < |post| ensures post[k].id != id {
        assert post[k] == s[i + 1 + k];
      }
    }
    RemovedAppend(pre + [s[i]], post, id);
    RemovedAppend(pre, [s[i]], id);
    assert Removed([s[i]], id) == [];
    assert Removed(s, id) == pre + post;
    ItemCountAppend(pre + [s[i]], post);
    ItemCountAppend(pre, [s[i]]);
    ItemCountAppend(pre, post);
    TotalAppend(pre + [s[i]], post);
    TotalAppend(pre, [s[i]]);
    TotalAppend(pre, post);
  }

  // ---------------------------------------------------------------------
  // updateQuantity: clamp to at least 1
  // ---------------------------------------------------------------------

  /** Math.max(1, q). */
  function ClampQuantity(q: int): (r: int)
    ensures r >= 1 && r >= q
    ensures r == q || r == 1
  {
    if q < 1 then 1 else q
  }

  /** The cart after updateQuantity(id, q): the first row with that id has its
      quantity set to max(1, q); without such a row nothing changes. */
  function QuantityUpdated(s: seq<LineItem>, id: ProductId, q: int): (r: seq<LineItem>)
    ensures |r| == |s|
    ensures !HasId(s, id) ==> r == s
    ensures HasId(s, id) ==>
      var i := FindIndex(s, id).value;
      && r[i] == s[i].(quantity := ClampQuantity(q))
      && forall k :: 0 <= k < |s| && k != i ==> r[k] == s[k]
    ensures forall k :: 0 <= k < |s| ==>
      r[k].id == s[k].id && r[k].name == s[k].name && r[k].price == s[k].price
  {
    match FindIndex(s, id)
    case Some(i) => s[i := s[i].(quantity := ClampQuantity(q))]
    case None => s
  }

  lemma QuantityUpdatedKeepsUniqueIds(s: seq<LineItem>, id: ProductId, q: int)
    requires UniqueIds(s)
    ensures UniqueIds(QuantityUpdated(s, id, q))
  {
    var r := QuantityUpdated(s, id, q);
    assert forall k :: 0 <= k < |r| ==> r[k].id == s[k].id;
  }

  /** Whatever q is, updateQuantity never produces a row with fewer than one unit. */
  lemma QuantityUpdatedKeepsPositiveQuantities(s: seq<LineItem>, id: ProductId, q: int)
    requires PositiveQuantities(s)
    ensures PositiveQuantities(QuantityUpdated(s, id, q))
  {
  }

  /** The item count moves from the row's old quantity to max(1, q). */
  lemma ItemCountQuantityUpdated(s: seq<LineItem>, id: ProductId, q: int)
    requires HasId(s, id)
    ensures var i := FindIndex(s, id).value;
      ItemCount(QuantityUpdated(s, id, q)) == ItemCount(s) - s[i].quantity + ClampQuantity(q)
  {
    var i := FindIndex(s, id).value;
    ItemCountReplace(s, i, s[i].(quantity := ClampQuantity(q)));
  }

  // ---------------------------------------------------------------------
  // getShippingCost: two flat tiers
  // ---------------------------------------------------------------------

  const DomesticRate := 100
  const InternationalRate := 500

  function LowerAscii(c: char): char {
    if 'A' <= c <= 'Z' then (c as int + 32) as char else c
  }

  /** String.prototype.toLowerCase, restricted to ASCII letters. */
  function ToLowerAscii(s: string): (r: string)
    ensures |r| == |s|
    ensures forall i :: 0 <= i < |s| ==> r[i] == LowerAscii(s[i])
  {
    if s == [] then [] else [LowerAscii(s[0])] + ToLowerAscii(s[1..])
  }

  /** The shipping rate for a destination country: domestic when the country is
      missing or empty, or lower-cases to "india"; international otherwise. */
  function ShippingCost(country: Option<string>): (r: int)
    ensures r == DomesticRate || r == InternationalRate
    ensures r == DomesticRate <==>
      (country == None || country == Some("") || ToLowerAscii(country.value) == "india")
  {
    if country == None || country == Some("") then DomesticRate
    else if ToLowerAscii(country.value) == "india" then DomesticRate
    else InternationalRate
  }

  /** Lower-casing is idempotent. */
  lemma {:induction false} ToLowerAsciiIdempotent(s: string)
    ensures ToLowerAscii(ToLowerAscii(s)) == ToLowerAscii(s)
  {
    var t := ToLowerAscii(s);
    assert forall i :: 0 <= i < |s| ==> LowerAscii(t[i]) == t[i];
  }

  /** The shipping tier ignores letter case. */
  lemma ShippingCostIgnoresCase(c: string)
    ensures ShippingCost(Some(c)) == ShippingCost(Some(ToLowerAscii(c)))
  {
    ToLowerAsciiIdempotent(c);
  }

  lemma ShippingCostExamples()
    ensures ShippingCost(None) == 100
    ensures ShippingCost(Some("India")) == 100
    ensures ShippingCost(Some("INDIA")) == 100
    ensures ShippingCost(Some("USA")) == 500
  {
    assert ToLowerAscii("India") == "india";
    assert ToLowerAscii("INDIA") == "india";
  }
}
