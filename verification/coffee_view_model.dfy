/**
 * The session view model: the loaded catalog, the selected category filter
 * and an in-memory cart whose lines are identified by (title, size).
 * Every operation is one state transition of an immutable `State`.
 */
module CoffeeViewModel {
  import opened Wrappers
  import opened Seqs
  import opened Text
  import Models

  /** A line of the session cart; this view model's lines hold a decoded `CoffeeItem`. */
  datatype CartItem = CartItem(coffeeItem: Models.CoffeeItem, quantity: int, selectedSize: string)

  datatype State = State(
    coffeeDatabase: Option<Models.CoffeeDatabase>,
    selectedCategory: int,
    cartItems: seq<CartItem>,
    isLoading: bool)

  /** Value of the category filter that selects the popular list. */
  const PopularCategory: int := -1

  /** The state before the catalog has loaded: no catalog, category 0, empty cart, loading. */
  function Initial(): (st: State)
    ensures st.cartItems == [] && st.coffeeDatabase.None? && st.isLoading
    ensures st.selectedCategory == 0
  {
    State(None, 0, [], true)
  }

  /** The catalog load finishing; `data` is the repository's result (None on failure). */
  function OnDataLoaded(st: State, data: Option<Models.CoffeeDatabase>): (r: State)
    ensures r.coffeeDatabase == data && !r.isLoading
    ensures r.selectedCategory == st.selectedCategory && r.cartItems == st.cartItems
  {
    st.(coffeeDatabase := data, isLoading := false)
  }

  function SelectCategory(st: State, categoryId: int): (r: State)
    ensures r.selectedCategory == categoryId
    ensures r.coffeeDatabase == st.coffeeDatabase && r.cartItems == st.cartItems && r.isLoading == st.isLoading
  {
    st.(selectedCategory := categoryId)
  }

  /** Whether an item belongs to the category with the given numeric id. */
  predicate InCategory(item: Models.CoffeeItem, categoryId: int)
  {
    item.categoryId == Some(IntToString(categoryId))
  }

  /**
   * The catalog entries to show: nothing before a catalog is loaded, the
   * popular list for the popular filter, and otherwise the items of the
   * selected category in catalog order.
   */
  function FilteredItems(st: State): (r: seq<Models.CoffeeItem>)
    ensures st.coffeeDatabase.None? ==> r == []
    ensures st.coffeeDatabase.Some? && st.selectedCategory == PopularCategory ==> r == st.coffeeDatabase.value.Popular
    ensures st.coffeeDatabase.Some? && st.selectedCategory != PopularCategory ==>
      && Subsequence(r, st.coffeeDatabase.value.Items)
      && (forall k :: 0 <= k < |r| ==> InCategory(r[k], st.selectedCategory))
      && (forall k :: 0 <= k < |st.coffeeDatabase.value.Items| && InCategory(st.coffeeDatabase.value.Items[k], st.selectedCategory)
            ==> st.coffeeDatabase.value.Items[k] in r)
      && |r| == CountWhere(st.coffeeDatabase.value.Items, (item: Models.CoffeeItem) => InCategory(item, st.selectedCategory))
  {
    match st.coffeeDatabase
    case None => []
    case Some(db) =>
      if st.selectedCategory == PopularCategory then db.Popular
      else Filter(db.Items, (item: Models.CoffeeItem) => InCategory(item, st.selectedCategory))
  }

  /** Two different numeric categories never share an item. */
  lemma CategoriesAreDisjoint(st: State, a: int, b: int, item: Models.CoffeeItem)
    requires a != PopularCategory && b != PopularCategory
    requires item in FilteredItems(SelectCategory(st, a)) && item in FilteredItems(SelectCategory(st, b))
    ensures a == b
  {
    var ra := FilteredItems(SelectCategory(st, a));
    var rb := FilteredItems(SelectCategory(st, b));
    var i :| 0 <= i < |ra| && ra[i] == item;
    var j :| 0 <= j < |rb| && rb[j] == item;
    IntToStringInjective(a, b);
  }

  /** Whether a line holds the given (title, size) key. */
  predicate HasKey(line: CartItem, title: string, size: string)
  {
    line.coffeeItem.title == title && line.selectedSize == size
  }

  /** Position of the first line with the given (title, size) key. */
  function KeyIndex(cart: seq<CartItem>, title: string, size: string): Option<nat>
  {
    FirstIndexWhere(cart, (line: CartItem) => HasKey(line, title, size))
  }

  /** No two lines share a (title, size) key. */
  predicate KeysUnique(cart: seq<CartItem>)
  {
    forall i, j :: 0 <= i < j < |cart| ==>
      !HasKey(cart[j], cart[i].coffeeItem.title, cart[i].selectedSize)
  }

  /** Every line holds at least one unit. */
  predicate QuantitiesPositive(cart: seq<CartItem>)
  {
    forall i :: 0 <= i < |cart| ==> cart[i].quantity >= 1
  }

  /** The invariant the cart operations keep. */
  predicate WellFormed(cart: seq<CartItem>)
  {
    KeysUnique(cart) && QuantitiesPositive(cart)
  }

  /**
   * Adds one unit of `coffeeItem` in `size`: the first line with the same
   * (title, size) gets one more unit and keeps its place, other lines are
   * untouched; without such a line, a one-unit line is appended.
   */
  function AddToCart(st: State, coffeeItem: Models.CoffeeItem, size: string := Models.DefaultSize): (r: State)
    ensures r.coffeeDatabase == st.coffeeDatabase && r.selectedCategory == st.selectedCategory && r.isLoading == st.isLoading
    ensures KeyIndex(st.cartItems, coffeeItem.title, size).Some? ==>
      var i := KeyIndex(st.cartItems, coffeeItem.title, size).value;
      && |r.cartItems| == |st.cartItems|
      && r.cartItems[i].quantity == st.cartItems[i].quantity + 1
      && r.cartItems[i].coffeeItem == st.cartItems[i].coffeeItem
      && r.cartItems[i].selectedSize == size
      && forall j :: 0 <= j < |st.cartItems| && j != i ==> r.cartItems[j] == st.cartItems[j]
    ensures KeyIndex(st.cartItems, coffeeItem.title, size).None? ==>
      r.cartItems == st.cartItems + [CartItem(coffeeItem, 1, size)]
  {
    var cart := st.cartItems;
    match KeyIndex(cart, coffeeItem.title, size)
    case Some(i) => st.(cartItems := cart[i := cart[i].(quantity := cart[i].quantity + 1)])
    case None => st.(cartItems := cart + [CartItem(coffeeItem, 1, size)])
  }

  /** Removes the first line equal to `cartItem`, keeping the others in order; absent, nothing changes. */
  function RemoveFromCart(st: State, cartItem: CartItem): (r: State)
    ensures r.coffeeDatabase == st.coffeeDatabase && r.selectedCategory == st.selectedCategory && r.isLoading == st.isLoading
    ensures cartItem !in st.cartItems ==> r == st
    ensures cartItem in st.cartItems ==>
      var i := IndexOf(st.cartItems, cartItem).value;
      && r.cartItems == st.cartItems[..i] + st.cartItems[i + 1..]
      && cartItem !in st.cartItems[..i]
    ensures cartItem in st.cartItems ==> multiset(r.cartItems) == multiset(st.cartItems) - multiset{cartItem}
  {
    match IndexOf(st.cartItems, cartItem)
    case None => st
    case Some(i) =>
      assert st.cartItems == st.cartItems[..i] + [cartItem] + st.cartItems[i + 1..];
      st.(cartItems := RemoveAt(st.cartItems, i))
  }

  /**
   * Sets the quantity of the first line equal to `cartItem`; a quantity of
   * zero or less removes that line instead, and an absent line changes nothing.
   */
  function UpdateQuantity(st: State, cartItem: CartItem, newQuantity: int): (r: State)
    ensures newQuantity <= 0 ==> r == RemoveFromCart(st, cartItem)
    ensures newQuantity > 0 && cartItem !in st.cartItems ==> r == st
    ensures newQuantity > 0 && cartItem in st.cartItems ==>
      var i := IndexOf(st.cartItems, cartItem).value;
      && r.coffeeDatabase == st.coffeeDatabase && r.selectedCategory == st.selectedCategory && r.isLoading == st.isLoading
      && |r.cartItems| == |st.cartItems|
      && r.cartItems[i] == st.cartItems[i].(quantity := newQuantity)
      && forall j :: 0 <= j < |st.cartItems| && j != i ==> r.cartItems[j] == st.cartItems[j]
  {
    if newQuantity <= 0 then RemoveFromCart(st, cartItem)
    else match IndexOf(st.cartItems, cartItem)
      case None => st
      case Some(i) => st.(cartItems := st.cartItems[i := cartItem.(quantity := newQuantity)])
  }

  function ClearCart(st: State): (r: State)
    ensures r.cartItems == []
    ensures r.coffeeDatabase == st.coffeeDatabase && r.selectedCategory == st.selectedCategory && r.isLoading == st.isLoading
  {
    st.(cartItems := [])
  }

  function LineQuantity(line: CartItem): int
  {
    line.quantity
  }

  function LinePrice(line: CartItem): real
  {
    line.coffeeItem.price * line.quantity as real
  }

  /** Units in the cart: the sum of the line quantities. */
  function CartItemCount(st: State): int
  {
    SumOf(st.cartItems, LineQuantity)
  }

  /** Price of the cart: the sum over the lines of unit price times quantity. */
  function TotalPrice(st: State): real
  {
    SumOfReal(st.cartItems, LinePrice)
  }

  /** The cart is empty, so counts nothing, at start and after clearing. */
  lemma EmptyCartCountsNothing(st: State)
    ensures CartItemCount(Initial()) == 0 && TotalPrice(Initial()) == 0.0
    ensures CartItemCount(ClearCart(st)) == 0 && TotalPrice(ClearCart(st)) == 0.0
  {
  }

  /** Adding to the cart raises the unit count by exactly one. */
  lemma AddToCartCountsOne(st: State, coffeeItem: Models.CoffeeItem, size: string)
    ensures CartItemCount(AddToCart(st, coffeeItem, size)) == CartItemCount(st) + 1
  {
    var cart := st.cartItems;
    match KeyIndex(cart, coffeeItem.title, size)
    case Some(i) =>
      SumOfUpdate(cart, i, cart[i].(quantity := cart[i].quantity + 1), LineQuantity);
    case None =>
      SumOfAppend(cart, [CartItem(coffeeItem, 1, size)], LineQuantity);
  }

  /** Adding to the cart raises the price by one unit price: the merged line's, or the new item's. */
  lemma AddToCartPricesOne(st: State, coffeeItem: Models.CoffeeItem, size: string)
    ensures var k := KeyIndex(st.cartItems, coffeeItem.title, size);
      TotalPrice(AddToCart(st, coffeeItem, size)) == TotalPrice(st) +
        (if k.Some? then st.cartItems[k.value].coffeeItem.price else coffeeItem.price)
  {
    var cart := st.cartItems;
    match KeyIndex(cart, coffeeItem.title, size)
    case Some(i) =>
      var line := cart[i];
      var price := line.coffeeItem.price;
      assert LinePrice(line.(quantity := line.quantity + 1)) == LinePrice(line) + price by {
        assert (line.quantity + 1) as real == line.quantity as real + 1.0;
        assert price * (line.quantity as real + 1.0) == price * line.quantity as real + price;
      }
      SumOfRealUpdate(cart, i, line.(quantity := line.quantity + 1), LinePrice);
    case None =>
      var line := CartItem(coffeeItem, 1, size);
      assert SumOfReal([line], LinePrice) == coffeeItem.price;
      SumOfRealAppend(cart, [line], LinePrice);
  }

  /** Removing a line present in the cart lowers the unit count by that line's quantity. */
  lemma RemoveFromCartCount(st: State, cartItem: CartItem)
    ensures CartItemCount(RemoveFromCart(st, cartItem)) ==
      CartItemCount(st) - (if cartItem in st.cartItems then cartItem.quantity else 0)
  {
    match IndexOf(st.cartItems, cartItem)
    case None =>
    case Some(i) => SumOfRemoveAt(st.cartItems, i, LineQuantity);
  }

  /** Setting a positive quantity on a present line moves the count by the difference. */
  lemma UpdateQuantityCount(st: State, cartItem: CartItem, newQuantity: int)
    requires newQuantity > 0 && cartItem in st.cartItems
    ensures CartItemCount(UpdateQuantity(st, cartItem, newQuantity)) ==
      CartItemCount(st) - cartItem.quantity + newQuantity
  {
    var i := IndexOf(st.cartItems, cartItem).value;
    SumOfUpdate(st.cartItems, i, cartItem.(quantity := newQuantity), LineQuantity);
  }

  /** Adding keeps keys unique and quantities positive. */
  lemma AddToCartKeepsWellFormed(st: State, coffeeItem: Models.CoffeeItem, size: string)
    requires WellFormed(st.cartItems)
    ensures WellFormed(AddToCart(st, coffeeItem, size).cartItems)
  {
    var cart := st.cartItems;
    var r := AddToCart(st, coffeeItem, size).cartItems;
    match KeyIndex(cart, coffeeItem.title, size)
    case Some(i) =>
      forall a, b | 0 <= a < b < |r|
        ensures !HasKey(r[b], r[a].coffeeItem.title, r[a].selectedSize)
      {
        assert HasKey(r[a], cart[a].coffeeItem.title, cart[a].selectedSize);
        assert HasKey(r[b], cart[b].coffeeItem.title, cart[b].selectedSize);
      }
    case None =>
      forall a, b | 0 <= a < b < |r|
        ensures !HasKey(r[b], r[a].coffeeItem.title, r[a].selectedSize)
      {
        if b == |cart| {
          assert !HasKey(cart[a], coffeeItem.title, size);
        }
      }
  }

  /** Removing keeps keys unique and quantities positive. */
  lemma RemoveFromCartKeepsWellFormed(st: State, cartItem: CartItem)
    requires WellFormed(st.cartItems)
    ensures WellFormed(RemoveFromCart(st, cartItem).cartItems)
  {
    var cart := st.cartItems;
    var r := RemoveFromCart(st, cartItem).cartItems;
    match IndexOf(cart, cartItem)
    case None =>
    case Some(i) =>
      forall a, b | 0 <= a < b < |r|
        ensures !HasKey(r[b], r[a].coffeeItem.title, r[a].selectedSize)
      {
        var a' := if a < i then a else a + 1;
        var b' := if b < i then b else b + 1;
        assert r[a] == cart[a'] && r[b] == cart[b'];
      }
  }

  /** Updating keeps keys unique and quantities positive. */
  lemma UpdateQuantityKeepsWellFormed(st: State, cartItem: CartItem, newQuantity: int)
    requires WellFormed(st.cartItems)
    ensures WellFormed(UpdateQuantity(st, cartItem, newQuantity).cartItems)
  {
    if newQuantity <= 0 {
      RemoveFromCartKeepsWellFormed(st, cartItem);
    } else if cartItem in st.cartItems {
      var cart := st.cartItems;
      var r := UpdateQuantity(st, cartItem, newQuantity).cartItems;
      forall a, b | 0 <= a < b < |r|
        ensures !HasKey(r[b], r[a].coffeeItem.title, r[a].selectedSize)
      {
        assert HasKey(r[a], cart[a].coffeeItem.title, cart[a].selectedSize);
        assert HasKey(r[b], cart[b].coffeeItem.title, cart[b].selectedSize);
      }
    }
  }
}
