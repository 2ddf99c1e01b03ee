/**
 * The cart screen: the selected items, seeded on mount either from the
 * navigation parameters or from the store under the key "cart"; items can be
 * removed one by one, and checkout is offered only when the cart holds items.
 */
module Cart {
  import opened Wrappers
  import opened Lists
  import opened Storage

  const CartKey: string := "cart"

  /** A selected meal, identified by `id`. */
  datatype CartItem = CartItem(id: string, mealName: string, description: string, price: real, image: string)

  /** `cartItems.filter(item => item.id !== id)`. */
  function RemoveById(items: seq<CartItem>, id: string): (r: seq<CartItem>)
    ensures forall x :: x in r <==> x in items && x.id != id
    ensures IsSubsequence(r, items)
    ensures forall x :: multiset(r)[x] == if x.id == id then 0 else multiset(items)[x]
    ensures (forall x :: x in items ==> x.id != id) ==> r == items
  {
    var keep := (x: CartItem) => x.id != id;
    FilterIsSubsequence(items, keep);
    FilterCounts(items, keep);
    FilterKeepsAll(items, keep);
    Filter(items, keep)
  }

  /** The confirmation shown once a removal has been written. */
  function RemovedNotice(meal: CartItem): (notice: string)
    ensures |meal.mealName| < |notice| && notice[..|meal.mealName|] == meal.mealName
  {
    meal.mealName + " has been removed from your cart."
  }

  class CartScreen {
    var cartItems: seq<CartItem>
    /** The store entry under "cart". */
    const store: StoredList<CartItem>

    /** Mounting: the cart starts empty. */
    constructor (store: StoredList<CartItem>)
      requires store.key == CartKey
      ensures cartItems == [] && this.store == store
    {
      cartItems := [];
      this.store := store;
    }

    /** `isCartEmpty`. */
    function IsCartEmpty(): (empty: bool)
      reads this
    {
      |cartItems| == 0
    }

    /** Whether the "Proceed to Payment" control accepts a press: it is `disabled={isCartEmpty}`. */
    function CheckoutEnabled(): (enabled: bool)
      reads this
    {
      !IsCartEmpty()
    }

    /**
     * `loadCartItems`: the store is read first. If the read fails the cart keeps
     * its value. Otherwise a list passed by navigation wins (an empty one too,
     * since `[]` is truthy), then the stored list, then the empty list.
     */
    method LoadCartItems(routeCartItems: Option<seq<CartItem>>, unavailable: bool)
      modifies this
      ensures Read(store.entry, unavailable).Failed? ==> cartItems == old(cartItems)
      ensures !Read(store.entry, unavailable).Failed? && routeCartItems.Some? ==> cartItems == routeCartItems.value
      ensures routeCartItems.None? ==>
                match Read(store.entry, unavailable)
                case Failed => true
                case Absent => cartItems == []
                case Found(items) => cartItems == items
      ensures !Read(store.entry, unavailable).Failed? ==>
                (IsCartEmpty() <==> if routeCartItems.Some? then routeCartItems.value == []
                                    else !Read(store.entry, unavailable).Found? || store.entry.items == [])
    {
      var storedCart := store.GetItem(unavailable);
      if storedCart.Failed? {
        return;
      }
      var parsedCart := if storedCart.Found? then storedCart.items else [];
      cartItems := routeCartItems.GetOr(parsedCart);
    }

    /**
     * `removeFromCart`: every item with the meal's id leaves the cart, and the
     * same list is written to the store; the notice follows a successful write.
     */
    method RemoveFromCart(meal: CartItem, unavailable: bool) returns (notice: Option<string>)
      modifies this, store
      ensures cartItems == RemoveById(old(cartItems), meal.id)
      ensures store.entry == Written(old(store.entry), cartItems, unavailable)
      ensures !unavailable ==> store.entry == Json(cartItems)
      ensures notice == if unavailable then None else Some(RemovedNotice(meal))
      ensures CheckoutEnabled() <==> exists x :: x in old(cartItems) && x.id != meal.id
    {
      var updatedCart := RemoveById(cartItems, meal.id);
      cartItems := updatedCart;
      var ok := store.SetItem(updatedCart, unavailable);
      notice := if ok then Some(RemovedNotice(meal)) else None;
    }
  }

  /** With no items passed and nothing stored, the loaded cart is empty and checkout is disabled. */
  method EmptyStoreDisablesCheckout() returns (enabled: bool)
    ensures !enabled
  {
    var store := new StoredList(CartKey, Missing);
    var screen := new CartScreen(store);
    screen.LoadCartItems(None, false);
    enabled := screen.CheckoutEnabled();
  }

  /** A list passed by navigation wins over the stored one, even when it is empty. */
  method PassedEmptyListWins(stored: seq<CartItem>) returns (loaded: seq<CartItem>)
    ensures loaded == []
  {
    var store := new StoredList(CartKey, Json(stored));
    var screen := new CartScreen(store);
    screen.LoadCartItems(Some([]), false);
    loaded := screen.cartItems;
  }
}
