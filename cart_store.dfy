/**
 * CartManager: the storefront's cart store. Its one real field is the
 * ordered list of line items, which the mutators change in place; the
 * read-outs are reductions over it.
 *
 * Browser storage is modelled by the ghost field `stored`, the value last
 * written under the key "omnex-cart" (None when nothing is stored). The
 * badge refresh and the toast notification are display effects with no
 * state of their own here, so their calls are omitted.
 */
module CartStore {
  import opened Wrappers
  import opened CartModel

  class CartManager {
    var cart: seq<LineItem>
    ghost var stored: Option<seq<LineItem>>

    /** Starts from the persisted cart when storage holds one, else empty. */
    constructor (persisted: Option<seq<LineItem>>)
      ensures cart == (if persisted.Some? then persisted.value else [])
      ensures stored == persisted
    {
      cart := if persisted.Some? then persisted.value else [];
      stored := persisted;
    }

    /** Writes the current cart through to storage. */
    method SaveCart()
      modifies this
      ensures cart == old(cart)
      ensures stored == Some(cart)
    {
      stored := Some(cart);
    }

    /** Merges by id (the first matching row gains `quantity` units) or appends
        a new row; then persists. */
    method AddItem(product: Product, quantity: int := 1)
      modifies this
      ensures cart == Added(old(cart), product, quantity)
      ensures stored == Some(cart)
      ensures ItemCount(cart) == ItemCount(old(cart)) + quantity
      ensures Total(cart) == Total(old(cart)) + MergedPrice(old(cart), product) * quantity
      ensures UniqueIds(old(cart)) ==> UniqueIds(cart)
      ensures PositiveQuantities(old(cart)) && quantity >= 1 ==> PositiveQuantities(cart)
    {
      ghost var before := cart;
      var existing := FindIndex(cart, product.id);
      match existing {
        case Some(i) =>
          cart := cart[i := cart[i].(quantity := cart[i].quantity + quantity)];
        case None =>
          cart := cart + [NewLine(product, quantity)];
      }
      TotalAdded(before, product, quantity);
      if UniqueIds(before) {
        AddedKeepsUniqueIds(before, product, quantity);
      }
      if PositiveQuantities(before) && quantity >= 1 {
        AddedKeepsPositiveQuantities(before, product, quantity);
      }
      SaveCart();
    }

    /** Drops every row with the id (a no-op on the rows when there is none); then persists. */
    method RemoveItem(productId: ProductId)
      modifies this
      ensures cart == Removed(old(cart), productId)
      ensures stored == Some(cart)
      ensures !HasId(old(cart), productId) ==> cart == old(cart)
      ensures UniqueIds(old(cart)) ==> UniqueIds(cart)
      ensures PositiveQuantities(old(cart)) ==> PositiveQuantities(cart)
    {
      ghost var before := cart;
      cart := Removed(cart, productId);
      if UniqueIds(before) {
        RemovedKeepsUniqueIds(before, productId);
      }
      if PositiveQuantities(before) {
        RemovedKeepsPositiveQuantities(before, productId);
      }
      SaveCart();
    }

    /** Sets the first matching row's quantity to max(1, quantity) and persists;
        when no row matches, neither the cart nor storage changes. */
    method UpdateQuantity(productId: ProductId, quantity: int)
      modifies this
      ensures cart == QuantityUpdated(old(cart), productId, quantity)
      ensures stored == if HasId(old(cart), productId) then Some(cart) else old(stored)
      ensures !HasId(old(cart), productId) ==> cart == old(cart)
      ensures UniqueIds(old(cart)) ==> UniqueIds(cart)
      ensures PositiveQuantities(old(cart)) ==> PositiveQuantities(cart)
    {
      ghost var before := cart;
      var item := FindIndex(cart, productId);
      if item.Some? {
        var i := item.value;
        cart := cart[i := cart[i].(quantity := ClampQuantity(quantity))];
        SaveCart();
      }
      if UniqueIds(before) {
        QuantityUpdatedKeepsUniqueIds(before, productId, quantity);
      }
      if PositiveQuantities(before) {
        QuantityUpdatedKeepsPositiveQuantities(before, productId, quantity);
      }
    }

    /** Empties the cart and persists the empty cart. */
    method ClearCart()
      modifies this
      ensures cart == []
      ensures stored == Some([])
      ensures Total(cart) == 0 && ItemCount(cart) == 0
    {
      cart := [];
      SaveCart();
    }

    function GetCart(): seq<LineItem>
      reads this
    {
      cart
    }

    function GetTotal(): int
      reads this
    {
      Total(cart)
    }

    function GetItemCount(): int
      reads this
    {
      ItemCount(cart)
    }

    /** The cart total plus the shipping tier for the country: exactly 100 or
        500 above the total. */
    function GetGrandTotal(country: Option<string>): (r: int)
      reads this
      ensures r - GetTotal() == ShippingCost(country)
      ensures r == GetTotal() + DomesticRate || r == GetTotal() + InternationalRate
    {
      GetTotal() + ShippingCost(country)
    }
  }
}
