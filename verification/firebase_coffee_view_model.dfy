/**
 * The store-backed view model's local cart, as it behaves while no user is
 * signed in, and the observer that replaces it on auth-state changes. Lines are `Models.CartItem`s identified by their coffee's id;
 * unlike the session cart, merging adds the requested quantity and removal
 * drops every line with the id.
 */
module FirebaseCoffeeViewModel {
  import opened Wrappers
  import opened Seqs
  import opened Models

  predicate HasId(line: CartItem, id: string)
  {
    line.coffee.id == id
  }

  /** The test `it.coffee.id == id` the cart operations search and filter by. */
  function IdMatches(id: string): CartItem -> bool
  {
    (line: CartItem) => HasId(line, id)
  }

  /** Position of the first line whose coffee has the given id. */
  function IdIndex(cart: seq<CartItem>, id: string): Option<nat>
  {
    FirstIndexWhere(cart, IdMatches(id))
  }

  /** No two lines share a coffee id. */
  predicate IdsUnique(cart: seq<CartItem>)
  {
    forall i, j :: 0 <= i < j < |cart| ==> !HasId(cart[j], cart[i].coffee.id)
  }

  /**
   * Signed-out `addToCart`: the first line with the coffee's id gains
   * `quantity` units and keeps its own coffee and size; without such a line,
   * `(coffee, quantity, selectedSize)` is appended.
   */
  function AddToCart(cart: seq<CartItem>, coffee: Coffee, quantity: int := 1, selectedSize: string := DefaultSize)
    : (r: seq<CartItem>)
    ensures IdIndex(cart, coffee.id).Some? ==>
      var i := IdIndex(cart, coffee.id).value;
      && |r| == |cart|
      && r[i] == cart[i].(quantity := cart[i].quantity + quantity)
      && forall j :: 0 <= j < |cart| && j != i ==> r[j] == cart[j]
    ensures IdIndex(cart, coffee.id).None? ==> r == cart + [CartItem(coffee, quantity, selectedSize)]
  {
    match IdIndex(cart, coffee.id)
    case Some(i) => cart[i := cart[i].(quantity := cart[i].quantity + quantity)]
    case None => cart + [CartItem(coffee, quantity, selectedSize)]
  }

  /** Signed-out `removeFromCart`: every line with the coffee's id goes, the rest stay in order. */
  function RemoveFromCart(cart: seq<CartItem>, coffee: Coffee): (r: seq<CartItem>)
    ensures forall k :: 0 <= k < |r| ==> !HasId(r[k], coffee.id)
    ensures forall k :: 0 <= k < |cart| && !HasId(cart[k], coffee.id) ==> cart[k] in r
    ensures Subsequence(r, cart)
    ensures |r| == |cart| - CountWhere(cart, IdMatches(coffee.id))
  {
    CountWhereNot(cart, IdMatches(coffee.id));
    Filter(cart, Not(IdMatches(coffee.id)))
  }

  /**
   * Signed-out `updateCartItemQuantity`: a quantity of zero or less removes
   * the coffee's lines; otherwise the first line with the id gets the new
   * quantity and nothing else changes; an absent id changes nothing.
   */
  function UpdateCartItemQuantity(cart: seq<CartItem>, coffee: Coffee, newQuantity: int): (r: seq<CartItem>)
    ensures newQuantity <= 0 ==> r == RemoveFromCart(cart, coffee)
    ensures newQuantity > 0 && IdIndex(cart, coffee.id).None? ==> r == cart
    ensures newQuantity > 0 && IdIndex(cart, coffee.id).Some? ==>
      var i := IdIndex(cart, coffee.id).value;
      && |r| == |cart|
      && r[i] == cart[i].(quantity := newQuantity)
      && forall j :: 0 <= j < |cart| && j != i ==> r[j] == cart[j]
  {
    if newQuantity <= 0 then RemoveFromCart(cart, coffee)
    else match IdIndex(cart, coffee.id)
      case None => cart
      case Some(i) => cart[i := cart[i].(quantity := newQuantity)]
  }

  /** `clearCart` empties the local cart whether or not a user is signed in. */
  function ClearCart(cart: seq<CartItem>): (r: seq<CartItem>)
    ensures |r| == 0
  {
    []
  }

  /**
   * One auth-state emission: signed out, or signed in together with the
   * carts the store's per-user cart flow emits for that user, in order.
   */
  datatype AuthEvent = SignedOut | SignedIn(storeCarts: seq<seq<CartItem>>)

  /** The cart after following a signed-in user's store flow: its last emission, if any. */
  function FollowStore(cart: seq<CartItem>, storeCarts: seq<seq<CartItem>>): seq<CartItem>
  {
    if |storeCarts| == 0 then cart else storeCarts[|storeCarts| - 1]
  }

  /** Whether every event of `events` is a sign-out. */
  predicate AllSignedOut(events: seq<AuthEvent>)
  {
    forall k :: 0 <= k < |events| ==> events[k].SignedOut?
  }

  /**
   * `observeUserCart`: the auth flow is collected, and a signed-in event
   * collects the user's store flow inside the auth collector. That inner
   * flow never completes normally; if it is cancelled with an error, the
   * error ends the whole observer. Either way the first signed-in event is
   * the last auth event handled.
   */
  function ObserveUserCart(cart: seq<CartItem>, events: seq<AuthEvent>): seq<CartItem>
    decreases |events|
  {
    if |events| == 0 then cart
    else match events[0]
      case SignedOut => ObserveUserCart([], events[1..])
      case SignedIn(storeCarts) => FollowStore(cart, storeCarts)
  }

  /** Auth events that are all sign-outs leave the cart empty, or untouched when there are none. */
  lemma {:induction false} ObserveOnlySignOuts(cart: seq<CartItem>, events: seq<AuthEvent>)
    requires AllSignedOut(events)
    ensures ObserveUserCart(cart, events) == (if |events| == 0 then cart else [])
    decreases |events|
  {
    if |events| > 0 {
      assert events[0].SignedOut?;
      assert AllSignedOut(events[1..]) by {
        forall k | 0 <= k < |events[1..]| ensures events[1..][k].SignedOut? {
          assert events[1..][k] == events[k + 1];
        }
      }
      ObserveOnlySignOuts([], events[1..]);
    }
  }

  /**
   * The first sign-in decides the cart: the sign-outs before it empty the
   * cart, the cart then follows that user's store flow, and every later
   * auth event, a sign-out included, is never seen.
   */
  lemma {:induction false} ObserveStopsAtFirstSignIn(
    cart: seq<CartItem>, before: seq<AuthEvent>, storeCarts: seq<seq<CartItem>>, later: seq<AuthEvent>)
    requires AllSignedOut(before)
    ensures ObserveUserCart(cart, before + [SignedIn(storeCarts)] + later)
      == FollowStore(if |before| == 0 then cart else [], storeCarts)
    decreases |before|
  {
    var events := before + [SignedIn(storeCarts)] + later;
    if |before| == 0 {
      assert events[0] == SignedIn(storeCarts);
    } else {
      assert events[0] == before[0] && before[0].SignedOut?;
      assert events[1..] == before[1..] + [SignedIn(storeCarts)] + later;
      assert AllSignedOut(before[1..]) by {
        forall k | 0 <= k < |before[1..]| ensures before[1..][k].SignedOut? {
          assert before[1..][k] == before[k + 1];
        }
      }
      ObserveStopsAtFirstSignIn([], before[1..], storeCarts, later);
    }
  }

  /** Signing out after signing in leaves the signed-in user's store cart in place. */
  lemma SignOutAfterSignInKeepsStoreCart(cart: seq<CartItem>, storeCart: seq<CartItem>)
    ensures ObserveUserCart(cart, [SignedIn([storeCart]), SignedOut]) == storeCart
  {
  }

  function LineQuantity(line: CartItem): int
  {
    line.quantity
  }

  function LinePrice(line: CartItem): real
  {
    line.coffee.price * line.quantity as real
  }

  /** Units in the cart: the sum of the line quantities. */
  function CartItemCount(cart: seq<CartItem>): int
  {
    SumOf(cart, LineQuantity)
  }

  /** Price of the cart: the sum over the lines of unit price times quantity. */
  function TotalPrice(cart: seq<CartItem>): real
  {
    SumOfReal(cart, LinePrice)
  }

  /** An emptied cart counts nothing and costs nothing. */
  lemma ClearedCartCountsNothing(cart: seq<CartItem>, events: seq<AuthEvent>)
    ensures CartItemCount(ClearCart(cart)) == 0 && TotalPrice(ClearCart(cart)) == 0.0
    ensures |events| > 0 && AllSignedOut(events) ==>
      CartItemCount(ObserveUserCart(cart, events)) == 0 && TotalPrice(ObserveUserCart(cart, events)) == 0.0
  {
    if |events| > 0 && AllSignedOut(events) {
      ObserveOnlySignOuts(cart, events);
    }
  }

  /** `addToCart` raises the unit count by exactly the requested quantity. */
  lemma AddToCartCount(cart: seq<CartItem>, coffee: Coffee, quantity: int, selectedSize: string)
    ensures CartItemCount(AddToCart(cart, coffee, quantity, selectedSize)) == CartItemCount(cart) + quantity
  {
    match IdIndex(cart, coffee.id)
    case Some(i) =>
      SumOfUpdate(cart, i, cart[i].(quantity := cart[i].quantity + quantity), LineQuantity);
    case None =>
      SumOfAppend(cart, [CartItem(coffee, quantity, selectedSize)], LineQuantity);
  }

  /** With its defaults, `addToCart` on an empty cart yields exactly one default-shaped line. */
  lemma AddToCartDefaults(coffee: Coffee)
    ensures AddToCart([], coffee) == [CartItem(coffee, 1, "Medium")]
    ensures AddToCart([], DefaultCoffee()) == [DefaultCartItem()]
  {
  }

  /** Removal lowers the unit count by the quantities of exactly the removed lines. */
  lemma RemoveFromCartCount(cart: seq<CartItem>, coffee: Coffee)
    ensures CartItemCount(RemoveFromCart(cart, coffee)) ==
      CartItemCount(cart) - SumOf(Filter(cart, IdMatches(coffee.id)), LineQuantity)
  {
    SumOfFilterSplit(cart, IdMatches(coffee.id), LineQuantity);
  }

  /** Adding keeps coffee ids unique. */
  lemma AddToCartKeepsIdsUnique(cart: seq<CartItem>, coffee: Coffee, quantity: int, selectedSize: string)
    requires IdsUnique(cart)
    ensures IdsUnique(AddToCart(cart, coffee, quantity, selectedSize))
  {
    var r := AddToCart(cart, coffee, quantity, selectedSize);
    match IdIndex(cart, coffee.id)
    case Some(i) =>
      forall a, b | 0 <= a < b < |r| ensures !HasId(r[b], r[a].coffee.id) {
        assert r[a].coffee == cart[a].coffee && r[b].coffee == cart[b].coffee;
      }
    case None =>
      forall a, b | 0 <= a < b < |r| ensures !HasId(r[b], r[a].coffee.id) {
        if b == |cart| {
          assert !HasId(cart[a], coffee.id);
        }
      }
  }

  /** Removing keeps coffee ids unique. */
  lemma RemoveFromCartKeepsIdsUnique(cart: seq<CartItem>, coffee: Coffee)
    requires IdsUnique(cart)
    ensures IdsUnique(RemoveFromCart(cart, coffee))
  {
    SubsequenceKeepsIdsUnique(RemoveFromCart(cart, coffee), cart);
  }

  lemma {:induction false} SubsequenceKeepsIdsUnique(a: seq<CartItem>, b: seq<CartItem>)
    requires Subsequence(a, b) && IdsUnique(b)
    ensures IdsUnique(a)
  {
    if |a| > 0 {
      assert IdsUnique(b[1..]);
      if a[0] == b[0] && Subsequence(a[1..], b[1..]) {
        SubsequenceKeepsIdsUnique(a[1..], b[1..]);
        SubsequenceElements(a[1..], b[1..]);
        forall j | 0 < j < |a| ensures !HasId(a[j], a[0].coffee.id) {
          assert a[j] == a[1..][j - 1];
        }
      } else {
        SubsequenceKeepsIdsUnique(a, b[1..]);
      }
    }
  }

  /** Every element of a subsequence occurs in the sequence. */
  lemma {:induction false} SubsequenceElements<T>(a: seq<T>, b: seq<T>)
    requires Subsequence(a, b)
    ensures forall k :: 0 <= k < |a| ==> a[k] in b
  {
    if |a| > 0 {
      if a[0] == b[0] && Subsequence(a[1..], b[1..]) {
        SubsequenceElements(a[1..], b[1..]);
        forall k | 0 < k < |a| ensures a[k] in b {
          assert a[k] == a[1..][k - 1];
        }
      } else {
        SubsequenceElements(a, b[1..]);
      }
    }
  }

  /** Updating a quantity keeps coffee ids unique. */
  lemma UpdateCartItemQuantityKeepsIdsUnique(cart: seq<CartItem>, coffee: Coffee, newQuantity: int)
    requires IdsUnique(cart)
    ensures IdsUnique(UpdateCartItemQuantity(cart, coffee, newQuantity))
  {
    if newQuantity <= 0 {
      RemoveFromCartKeepsIdsUnique(cart, coffee);
    } else {
      var r := UpdateCartItemQuantity(cart, coffee, newQuantity);
      forall a, b | 0 <= a < b < |r| ensures !HasId(r[b], r[a].coffee.id) {
        assert r[a].coffee == cart[a].coffee && r[b].coffee == cart[b].coffee;
      }
    }
  }

  /** One signed-out `addToCart` call: coffee, quantity and size. */
  datatype AddRequest = AddRequest(coffee: Coffee, quantity: int, selectedSize: string)

  /** The cart reached from `cart` by the given `addToCart` calls, in order. */
  function AddAll(cart: seq<CartItem>, adds: seq<AddRequest>): seq<CartItem>
    decreases |adds|
  {
    if |adds| == 0 then cart
    else
      var a := adds[0];
      AddAll(AddToCart(cart, a.coffee, a.quantity, a.selectedSize), adds[1..])
  }

  /** A cart built from the empty cart by `addToCart` calls alone never repeats a coffee id. */
  lemma AddOnlyCartHasUniqueIds(adds: seq<AddRequest>)
    ensures IdsUnique(AddAll([], adds))
  {
    AddAllKeepsIdsUnique([], adds);
  }

  lemma {:induction false} AddAllKeepsIdsUnique(cart: seq<CartItem>, adds: seq<AddRequest>)
    requires IdsUnique(cart)
    ensures IdsUnique(AddAll(cart, adds))
    decreases |adds|
  {
    if |adds| > 0 {
      var a := adds[0];
      AddToCartKeepsIdsUnique(cart, a.coffee, a.quantity, a.selectedSize);
      AddAllKeepsIdsUnique(AddToCart(cart, a.coffee, a.quantity, a.selectedSize), adds[1..]);
    }
  }
}
