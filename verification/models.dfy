/**
 * The records of the data-model package: the decoded catalog asset
 * (`CoffeeDatabase` and its parts), the store-side catalog (`CoffeeData`,
 * `Coffee`), the id-keyed cart line, the user record, and the auth records
 * the auth repository and view model exchange. Kotlin `Double` fields are
 * exact `real`s; `Int` and `Long` fields are unbounded `int`s.
 */
module Models {
  import opened Wrappers

  datatype Banner = Banner(url: string)

  datatype Category = Category(id: int, title: string)

  /** A catalog entry as decoded from the bundled asset; `categoryId` may be missing. */
  datatype CoffeeItem = CoffeeItem(
    categoryId: Option<string>,
    description: string,
    extra: string,
    picUrl: seq<string>,
    price: real,
    rating: real,
    title: string)

  /** The decoded asset: banners, categories, the popular list and the full item list. */
  datatype CoffeeDatabase = CoffeeDatabase(
    Banner: seq<Banner>,
    Category: seq<Category>,
    Popular: seq<CoffeeItem>,
    Items: seq<CoffeeItem>)

  /** A catalog entry in the store's format, with a derived string id. */
  datatype Coffee = Coffee(
    id: string,
    categoryId: string,
    description: string,
    extra: string,
    picUrl: seq<string>,
    price: real,
    rating: real,
    title: string)

  /** The catalog in the store's format. */
  datatype CoffeeData = CoffeeData(
    banners: seq<Banner>,
    categories: seq<Category>,
    popular: seq<Coffee>,
    coffee: seq<Coffee>)

  /** A cart line of the store-backed cart: a coffee, how many, and which size. */
  datatype CartItem = CartItem(coffee: Coffee, quantity: int, selectedSize: string)

  /** The no-argument `CoffeeItem()` constructor. */
  function NoArgCoffeeItem(): CoffeeItem
  {
    CoffeeItem(None, "", "", [], 0.0, 0.0, "")
  }

  /** `Coffee()`: every field at its default. */
  function DefaultCoffee(): Coffee
  {
    Coffee("", "", "", "", [], 0.0, 0.0, "")
  }

  /** `CoffeeData()`: four empty lists. */
  function EmptyCoffeeData(): CoffeeData
  {
    CoffeeData([], [], [], [])
  }

  const DefaultSize: string := "Medium"

  /** `CartItem()`: one default coffee in the default size. */
  function DefaultCartItem(): CartItem
  {
    CartItem(DefaultCoffee(), 1, DefaultSize)
  }

  /** The defaults: empty strings and lists, zero price and rating, one "Medium" unit per cart line. */
  lemma DefaultValues()
    ensures NoArgCoffeeItem().categoryId.None? && NoArgCoffeeItem().title == "" && NoArgCoffeeItem().picUrl == []
    ensures NoArgCoffeeItem().description == "" && NoArgCoffeeItem().extra == ""
    ensures NoArgCoffeeItem().price == 0.0 && NoArgCoffeeItem().rating == 0.0
    ensures DefaultCoffee().id == "" && DefaultCoffee().categoryId == "" && DefaultCoffee().title == ""
    ensures DefaultCoffee().description == "" && DefaultCoffee().extra == ""
    ensures DefaultCoffee().picUrl == [] && DefaultCoffee().price == 0.0 && DefaultCoffee().rating == 0.0
    ensures EmptyCoffeeData().banners == [] && EmptyCoffeeData().categories == []
    ensures EmptyCoffeeData().popular == [] && EmptyCoffeeData().coffee == []
    ensures DefaultCartItem().quantity == 1 && DefaultCartItem().selectedSize == "Medium"
    ensures DefaultCartItem().coffee == DefaultCoffee()
  {
  }

  /** A signed-in user's profile; `createdAt` is a clock reading in milliseconds. */
  datatype User = User(
    id: string,
    email: string,
    firstName: string,
    lastName: string,
    profileImageUrl: string,
    phoneNumber: string,
    isEmailVerified: bool,
    createdAt: int)

  /** What the auth view model shows: progress, outcome, the pending error and the user. */
  datatype AuthState = AuthState(
    isLoading: bool,
    isAuthenticated: bool,
    error: Option<string>,
    user: Option<User>)

  /** `AuthState()`: idle, signed out, no error, no user. */
  function DefaultAuthState(): AuthState
  {
    AuthState(false, false, None, None)
  }

  /** One value emitted by the auth repository's flows. */
  datatype AuthResult = Loading | Success | Error(message: string)

  datatype LoginRequest = LoginRequest(email: string, password: string)

  datatype SignUpRequest = SignUpRequest(
    firstName: string,
    lastName: string,
    email: string,
    password: string,
    confirmPassword: string)
}
