# Coffee For Me — cart, catalog and auth logic in Dafny

This project models the sequential logic of the "Coffee For Me" storefront app:

- the **session cart** of `CoffeeViewModel`: a list of lines identified by (title, size), with add, remove, set-quantity, clear, unit count, total price and the category filter over the loaded catalog;
- the **signed-out cart** of `FirebaseCoffeeViewModel`: lines identified by coffee id, where merging adds the requested quantity and removal drops every line with the id;
- the **catalog records** of `CoffeeModels.kt` and their defaults;
- the **catalog conversion** of `CoffeeRepository`: decoded `CoffeeItem`s become `Coffee`s with a slug id, with empty fallbacks when loading fails;
- the **mock auth checks** of `AuthRepository`: the login check and the ordered sign-up chain;
- the **auth view model**: input setters, handling of `Loading` / `Success` / `Error`, status check, logout.

Each view model is an immutable record, and each operation is a pure function from the old state to the new one. A Kotlin flow becomes the sequence of values it emits. The view model consumes that sequence by applying each value in turn. The `onSuccess` callback becomes a count of how often it would run.

Modules follow the source: `Models` (data-model package, including `User.kt`), `CoffeeRepository`, `CoffeeViewModel`, `FirebaseCoffeeViewModel`, `AuthRepository`, `AuthViewModel`. Three support modules model Kotlin library behaviour:
- `Wrappers`: nullable values as `Option`;
- `Seqs`: `indexOfFirst`, `indexOf`, `filter`/`removeAll` and `sumOf`;
- `Text`: `Char.isWhitespace`, `isBlank`, `trim`, one-character `replace`, `lowercase` and `Int.toString`, with a parser proved to invert `Int.toString`.

The two cart-line shapes are kept apart, each as its own code uses it. `CoffeeViewModel.CartItem` holds a `CoffeeItem` (field `coffeeItem`). `Models.CartItem` holds a `Coffee` (field `coffee`).

The code keeps a list of lines and finds lines by a linear scan. The model follows the code: carts are sequences, and key uniqueness is an invariant the operations are proved to keep, not a property of the type.

Inputs that come from outside the modelled code are parameters:
- the decoded asset is `loaded: Option<CoffeeDatabase>`; `None` stands for a missing file, a read error or a decode error;
- the platform email pattern is `isValidEmail: string -> bool`;
- the current user is `Option<User>`;
- the auth-state flow is a sequence of `AuthEvent`s; a sign-in carries the carts the store's per-user cart flow emits for that user.

`AuthState`, `AuthResult`, `LoginRequest` and `SignUpRequest` are not among the modelled files. Their fields are inferred from how `AuthViewModel.kt` and `AuthRepository.kt` use them:
- `AuthState(isLoading, isAuthenticated, error, user)` defaults to idle, signed out, no error and no user;
- `AuthResult` is `Loading`, `Success` or `Error(message)`.

## Model

| member | source | states |
|---|---|---|
| Models.DefaultValues | app/src/main/java/com/coffeeforme/coffee/data/model/CoffeeModels.kt:27-80 | The no-argument `CoffeeItem` has no category id, empty strings and list, zero price and rating; `Coffee()` has every string empty, no pictures, zero price and rating; `CoffeeData()` has four empty lists; `CartItem()` holds one default coffee in size "Medium". |
| CoffeeRepository.ToCoffees | app/src/main/java/com/coffeeforme/coffee/data/repository/CoffeeRepository.kt:35-45 | Converting a list keeps its length and converts each entry in place. |
| CoffeeRepository.ToCoffeesAppend | app/src/main/java/com/coffeeforme/coffee/data/repository/CoffeeRepository.kt:35-45 | Conversion distributes over concatenation, so the converted list keeps the source order. |
| CoffeeRepository.GetAllCoffees | app/src/main/java/com/coffeeforme/coffee/data/repository/CoffeeRepository.kt:30-54 | A failed load gives the empty list; otherwise the result has one converted entry per item, in item order. |
| CoffeeRepository.GetCoffeeData | app/src/main/java/com/coffeeforme/coffee/data/repository/CoffeeRepository.kt:56-108 | A failed load gives four empty lists; otherwise banners and categories pass through and the popular and full item lists are converted element-wise. |
| CoffeeRepository.GetCoffeeDataAgreesWithGetAllCoffees | app/src/main/java/com/coffeeforme/coffee/data/repository/CoffeeRepository.kt:30-88 | Both entry points produce the same converted full item list for the same load. |
| CoffeeRepository.SlugShape | app/src/main/java/com/coffeeforme/coffee/data/repository/CoffeeRepository.kt:37 | A derived id never contains a space and has as many characters as the title. |
| CoffeeRepository.SlugIsLowerCase | app/src/main/java/com/coffeeforme/coffee/data/repository/CoffeeRepository.kt:37 | A derived id contains no upper-case ASCII letter. |
| CoffeeRepository.SlugIdempotent | app/src/main/java/com/coffeeforme/coffee/data/repository/CoffeeRepository.kt:37 | Deriving an id from a derived id returns it unchanged. |
| CoffeeRepository.SlugCollisions | app/src/main/java/com/coffeeforme/coffee/data/repository/CoffeeRepository.kt:37 | Titles that differ only in ASCII case, or in space versus underscore, get the same id. |
| CoffeeRepository.ToCoffeeLosesOnlyMissingCategory | app/src/main/java/com/coffeeforme/coffee/data/repository/CoffeeRepository.kt:36-45 | Two items convert to the same `Coffee` if and only if they agree on title, description, extra, pictures, price and rating, and on the category id read with "" for a missing one. |
| CoffeeRepository.NoArgItemConvertsToDefaultCoffee | app/src/main/java/com/coffeeforme/coffee/data/repository/CoffeeRepository.kt:36-45 | The no-argument `CoffeeItem` converts to the default `Coffee`. |
| CoffeeViewModel.Initial | app/src/main/java/com/coffeeforme/coffee/presentation/viewmodel/CoffeeViewModel.kt:20-30 | The view model starts with no catalog, category 0 selected (not the popular list), an empty cart and loading in progress. |
| CoffeeViewModel.OnDataLoaded | app/src/main/java/com/coffeeforme/coffee/presentation/viewmodel/CoffeeViewModel.kt:36-43 | When loading finishes, the repository's result becomes the catalog and loading ends; the category and cart are untouched. |
| CoffeeViewModel.SelectCategory | app/src/main/java/com/coffeeforme/coffee/presentation/viewmodel/CoffeeViewModel.kt:45-47 | Selecting a category changes only the selected category. |
| CoffeeViewModel.FilteredItems | app/src/main/java/com/coffeeforme/coffee/presentation/viewmodel/CoffeeViewModel.kt:49-56 | With no catalog the result is empty. Category -1 gives the popular list verbatim. Otherwise the result is an order-preserving subsequence of the items, every element has the decimal form of the selected id as its category id, every such item is present, and the length equals the number of such items. |
| CoffeeViewModel.CategoriesAreDisjoint | app/src/main/java/com/coffeeforme/coffee/presentation/viewmodel/CoffeeViewModel.kt:54 | An item shown under two numeric categories means the two categories are the same, because distinct integers have distinct decimal strings. |
| CoffeeViewModel.AddToCart | app/src/main/java/com/coffeeforme/coffee/presentation/viewmodel/CoffeeViewModel.kt:58-71 | If a line with the same (title, size) exists, the first such line gains one unit in place, the line count is kept, and all other lines are unchanged. Otherwise a one-unit line for the item and size is appended. The size defaults to "Medium". Nothing outside the cart changes. |
| CoffeeViewModel.AddToCartCountsOne | app/src/main/java/com/coffeeforme/coffee/presentation/viewmodel/CoffeeViewModel.kt:58-71 | Adding raises the cart's unit count by exactly one. |
| CoffeeViewModel.AddToCartPricesOne | app/src/main/java/com/coffeeforme/coffee/presentation/viewmodel/CoffeeViewModel.kt:93-95 | Adding raises the total price by one unit price: that of the merged line's item, or of the new item. |
| CoffeeViewModel.AddToCartKeepsWellFormed | app/src/main/java/com/coffeeforme/coffee/presentation/viewmodel/CoffeeViewModel.kt:60-68 | If (title, size) keys are unique and quantities are at least 1 before adding, both still hold after. |
| CoffeeViewModel.RemoveFromCart | app/src/main/java/com/coffeeforme/coffee/presentation/viewmodel/CoffeeViewModel.kt:73-77 | An absent line changes nothing. Otherwise exactly the first equal line is removed: the rest stay in order, and the multiset of lines loses one copy of that line. |
| CoffeeViewModel.RemoveFromCartCount | app/src/main/java/com/coffeeforme/coffee/presentation/viewmodel/CoffeeViewModel.kt:73-77 | Removing a present line lowers the unit count by that line's quantity; an absent line leaves the count unchanged. |
| CoffeeViewModel.RemoveFromCartKeepsWellFormed | app/src/main/java/com/coffeeforme/coffee/presentation/viewmodel/CoffeeViewModel.kt:73-77 | Removal keeps keys unique and quantities at least 1. |
| CoffeeViewModel.UpdateQuantity | app/src/main/java/com/coffeeforme/coffee/presentation/viewmodel/CoffeeViewModel.kt:79-91 | A quantity of zero or less is exactly a removal. A positive quantity replaces only the first equal line's quantity, keeping position and length. An absent line changes nothing. |
| CoffeeViewModel.UpdateQuantityCount | app/src/main/java/com/coffeeforme/coffee/presentation/viewmodel/CoffeeViewModel.kt:79-91 | Setting a positive quantity on a present line moves the unit count by the new quantity minus the old. |
| CoffeeViewModel.UpdateQuantityKeepsWellFormed | app/src/main/java/com/coffeeforme/coffee/presentation/viewmodel/CoffeeViewModel.kt:79-91 | Setting a quantity keeps keys unique and quantities at least 1. |
| CoffeeViewModel.ClearCart | app/src/main/java/com/coffeeforme/coffee/presentation/viewmodel/CoffeeViewModel.kt:101-103 | Clearing empties the cart and changes nothing else. |
| CoffeeViewModel.EmptyCartCountsNothing | app/src/main/java/com/coffeeforme/coffee/presentation/viewmodel/CoffeeViewModel.kt:93-103 | The unit count and total price are 0 at start and after clearing. |
| FirebaseCoffeeViewModel.AddToCart | app/src/main/java/com/coffeeforme/coffee/presentation/viewmodel/FirebaseCoffeeViewModel.kt:78-98 | If a line with the coffee's id exists, the first such line gains the requested quantity and keeps its own coffee and size, and nothing else changes. Otherwise `(coffee, quantity, size)` is appended. Quantity defaults to 1 and size to "Medium". |
| FirebaseCoffeeViewModel.AddToCartCount | app/src/main/java/com/coffeeforme/coffee/presentation/viewmodel/FirebaseCoffeeViewModel.kt:86-95 | Adding raises the unit count by exactly the requested quantity. |
| FirebaseCoffeeViewModel.AddToCartDefaults | app/src/main/java/com/coffeeforme/coffee/presentation/viewmodel/FirebaseCoffeeViewModel.kt:78 | With its defaults, adding to an empty cart yields one line of quantity 1 in "Medium". Adding the default coffee yields exactly the default `CartItem`. |
| FirebaseCoffeeViewModel.RemoveFromCart | app/src/main/java/com/coffeeforme/coffee/presentation/viewmodel/FirebaseCoffeeViewModel.kt:100-113 | No line with the coffee's id remains. Every other line is kept, in order. The length drops by the number of lines with that id. |
| FirebaseCoffeeViewModel.RemoveFromCartCount | app/src/main/java/com/coffeeforme/coffee/presentation/viewmodel/FirebaseCoffeeViewModel.kt:108-110 | Removal lowers the unit count by the summed quantity of exactly the lines with that id. |
| FirebaseCoffeeViewModel.UpdateCartItemQuantity | app/src/main/java/com/coffeeforme/coffee/presentation/viewmodel/FirebaseCoffeeViewModel.kt:115-138 | A quantity of zero or less is exactly a removal. A positive quantity changes only the first line with the id. An absent id changes nothing. |
| FirebaseCoffeeViewModel.ClearCart | app/src/main/java/com/coffeeforme/coffee/presentation/viewmodel/FirebaseCoffeeViewModel.kt:150-159 | Clearing leaves the local cart empty. |
| FirebaseCoffeeViewModel.ObserveOnlySignOuts | app/src/main/java/com/coffeeforme/coffee/presentation/viewmodel/FirebaseCoffeeViewModel.kt:62-76 | Auth events that are all sign-outs leave the cart empty; with no events at all the cart is untouched. |
| FirebaseCoffeeViewModel.ObserveStopsAtFirstSignIn | app/src/main/java/com/coffeeforme/coffee/presentation/viewmodel/FirebaseCoffeeViewModel.kt:62-76 | For any sign-outs, then a sign-in, then any later events: the sign-outs empty the cart, the cart follows that user's store flow to its last emission (or is unchanged if the flow emitted nothing), and the later events, sign-outs included, change nothing, because the store flow is collected inside the auth collector and never completes normally; if it is cancelled with an error, that error ends the whole observer, so later events are never handled either way. |
| FirebaseCoffeeViewModel.SignOutAfterSignInKeepsStoreCart | app/src/main/java/com/coffeeforme/coffee/presentation/viewmodel/FirebaseCoffeeViewModel.kt:64-72 | A sign-out that follows a sign-in does not empty the cart: the signed-in user's store cart stays. |
| FirebaseCoffeeViewModel.ClearedCartCountsNothing | app/src/main/java/com/coffeeforme/coffee/presentation/viewmodel/FirebaseCoffeeViewModel.kt:62-158 | After clearing, or after one or more auth events that are all sign-outs, the unit count and total price are 0. |
| FirebaseCoffeeViewModel.AddToCartKeepsIdsUnique | app/src/main/java/com/coffeeforme/coffee/presentation/viewmodel/FirebaseCoffeeViewModel.kt:86-95 | If no two lines share a coffee id before adding, none do after. |
| FirebaseCoffeeViewModel.RemoveFromCartKeepsIdsUnique | app/src/main/java/com/coffeeforme/coffee/presentation/viewmodel/FirebaseCoffeeViewModel.kt:108-110 | Removal keeps coffee ids unique. |
| FirebaseCoffeeViewModel.UpdateCartItemQuantityKeepsIdsUnique | app/src/main/java/com/coffeeforme/coffee/presentation/viewmodel/FirebaseCoffeeViewModel.kt:115-138 | Setting a quantity keeps coffee ids unique. |
| FirebaseCoffeeViewModel.AddOnlyCartHasUniqueIds | app/src/main/java/com/coffeeforme/coffee/presentation/viewmodel/FirebaseCoffeeViewModel.kt:86-95 | A cart built from empty by any sequence of signed-out adds never has two lines with the same coffee id. |
| AuthRepository.Login | app/src/main/java/com/coffeeforme/coffee/data/repository/AuthRepository.kt:14-24 | The flow emits `Loading` and then one terminal result. The terminal result is `Success` if and only if the email is valid and the password has at least 6 characters. Otherwise it is the error "Invalid email or password". |
| AuthRepository.SignUp | app/src/main/java/com/coffeeforme/coffee/data/repository/AuthRepository.kt:26-50 | The flow emits `Loading` and then one terminal result. It is `Success` if and only if all five checks pass. Otherwise it is the message of the first failing check, in this order: first name blank, last name blank, invalid email, password shorter than 6. |
| AuthRepository.MismatchReportedLast | app/src/main/java/com/coffeeforme/coffee/data/repository/AuthRepository.kt:43-45 | "Passwords do not match" is reported if and only if the names, email and length checks pass and the two passwords differ. |
| AuthRepository.SignUpAcceptedLoginAccepts | app/src/main/java/com/coffeeforme/coffee/data/repository/AuthRepository.kt:19 | Any sign-up request that succeeds has an email and password that login accepts. |
| AuthRepository.GetCurrentUser | app/src/main/java/com/coffeeforme/coffee/data/repository/AuthRepository.kt:52-55 | The mock repository keeps no session, so there is never a current user. |
| AuthViewModel.CheckAuthStatus | app/src/main/java/com/coffeeforme/coffee/presentation/viewmodel/AuthViewModel.kt:161-171 | Authenticated and logged-in both become "there is a user", and that user is stored. Loading, error and the inputs are untouched. |
| AuthViewModel.InitialIsSignedOut | app/src/main/java/com/coffeeforme/coffee/presentation/viewmodel/AuthViewModel.kt:19-48 | A newly constructed view model is logged out, has the default auth state and has every input empty. |
| AuthViewModel.ClearError | app/src/main/java/com/coffeeforme/coffee/presentation/viewmodel/AuthViewModel.kt:173-177 | The result has no error. A state without an error is returned unchanged. Loading, authenticated and user are kept. |
| AuthViewModel.Update | app/src/main/java/com/coffeeforme/coffee/presentation/viewmodel/AuthViewModel.kt:50-83 | A setter changes only its own input and clears any pending error. The other six inputs and the logged-in flag are unchanged. |
| AuthViewModel.UpdateOverwrites | app/src/main/java/com/coffeeforme/coffee/presentation/viewmodel/AuthViewModel.kt:50-83 | Setting an input twice is the same as setting it once to the second value. |
| AuthViewModel.Apply | app/src/main/java/com/coffeeforme/coffee/presentation/viewmodel/AuthViewModel.kt:92-112 | `Loading` sets loading, clears the error and keeps the authenticated and logged-in flags. `Success` ends loading, authenticates, clears the error, logs in, and is the only result that runs `onSuccess`. `Error` ends loading, shows the message and keeps both flags. The inputs and the user are never touched. |
| AuthViewModel.Collect | app/src/main/java/com/coffeeforme/coffee/presentation/viewmodel/AuthViewModel.kt:92-113 | Consuming a flow leaves the inputs and user unchanged. It runs `onSuccess` exactly once per `Success` emitted. |
| AuthViewModel.Login | app/src/main/java/com/coffeeforme/coffee/presentation/viewmodel/AuthViewModel.kt:85-115 | The outcome is decided on the trimmed email and the untrimmed password. On acceptance, `onSuccess` runs once and the view model ends authenticated and logged in with no error. On rejection, it shows the fixed error and keeps both flags. Loading has ended either way. |
| AuthViewModel.SignUp | app/src/main/java/com/coffeeforme/coffee/presentation/viewmodel/AuthViewModel.kt:117-150 | The checks run on the trimmed names and email and the untrimmed passwords. Success runs `onSuccess` once, authenticates and logs in. Failure shows the first failing check's message and keeps both flags. |
| AuthViewModel.SignUpFirstNameCheck | app/src/main/java/com/coffeeforme/coffee/presentation/viewmodel/AuthViewModel.kt:120 | Sign-up fails on the first name if and only if the untrimmed input is blank, so trimming never changes that verdict. |
| Text.TrimByCutsOnly | app/src/main/java/com/coffeeforme/coffee/presentation/viewmodel/AuthViewModel.kt:120-122 | What trimming removes, before and after the kept middle, consists only of characters the trim predicate accepts; `trim()` uses `Char.isWhitespace`. |
| Text.TrimKeepsBlankness | app/src/main/java/com/coffeeforme/coffee/presentation/viewmodel/AuthViewModel.kt:120-122 | A trimmed input is blank if and only if the untrimmed input is blank. |
| Text.IntToStringInjective | app/src/main/java/com/coffeeforme/coffee/presentation/viewmodel/CoffeeViewModel.kt:54 | Two category ids with the same decimal string are the same id. |
| Text.ParseIntOfIntToString | app/src/main/java/com/coffeeforme/coffee/presentation/viewmodel/CoffeeViewModel.kt:54 | Reading back the decimal string of any integer, sign included, gives that integer. |
| AuthViewModel.ClearAllFields | app/src/main/java/com/coffeeforme/coffee/presentation/viewmodel/AuthViewModel.kt:179-187 | All seven inputs become empty; the auth state and logged-in flag are kept. |
| AuthViewModel.Logout | app/src/main/java/com/coffeeforme/coffee/presentation/viewmodel/AuthViewModel.kt:152-159 | Logout resets the auth state to its default, logs out and empties all seven inputs. |
| AuthViewModel.LogoutRestoresInitial | app/src/main/java/com/coffeeforme/coffee/presentation/viewmodel/AuthViewModel.kt:152-171 | Logging out from any state gives exactly the state a newly constructed view model has. |

## Left out

- Kotlin `Double` prices and ratings are exact `real`s. Rounding, NaN and the signed zeros of IEEE arithmetic are not modelled. Neither is their effect on data-class equality, which `removeFromCart` and `updateQuantity` rely on. Price rendering is not modelled.
- Kotlin `Int` quantities and category ids are unbounded `int`s. The 32-bit wrap-around of `quantity++` and of the sums is not modelled.
- `CoffeeViewModel.AddToCart`: the source increments the found line in place (`existingItem.quantity++`). That line is shared with the list the state flow already holds. The model replaces the line with an updated copy and does not model the aliasing.
- Coroutines, `delay`, `viewModelScope.launch` and state-flow observation are not modelled, except that `FirebaseCoffeeViewModel.ObserveUserCart` (the `observeUserCart` collector) keeps the nesting of the auth and store collectors. Each operation is one sequential transition, and two launched operations never interleave: the observer's cart updates are not interleaved with local cart edits.
- Reading the asset file and JSON decoding are not modelled. The decoded catalog, or its absence, is an input. `loadCoffeeData` has no separate member because its only logic is mapping failures to `None`, which that input already expresses.
- The platform email pattern is the parameter `isValidEmail`. Its regular expression is not modelled.
- `Text.LowerChar` maps only 'A'..'Z' to lower case and leaves every other character unchanged. Kotlin's `lowercase()` also lowers non-ASCII letters, and some of those mappings change the string's length. So `CoffeeRepository.SlugShape`, `CoffeeRepository.SlugIdempotent` and `CoffeeRepository.SlugCollisions` match the source only for ASCII titles.
- `Text.IsWhitespace` lists the characters the JVM's `Character.isWhitespace` or `Character.isSpaceChar` accept. It does not follow changes between Unicode versions.
- String lengths count Unicode scalar values; Kotlin counts UTF-16 code units. The password-length checks therefore differ for passwords containing characters outside the Basic Multilingual Plane.
- The signed-in (`user != null`) branches of the store-backed cart operations are left out, because they only forward to the remote store. `ObserveUserCart` takes what the store's per-user cart flow emits as part of each sign-in event. Loading and uploading that view model's catalog (`loadCoffees`) is left out for the same reason.
- `FirebaseCoffeeViewModel.ObserveUserCart` does not represent the observer ending by exception: when the store's cart listener is cancelled, the error it closes the flow with is rethrown by the inner `collect` and ends the launched coroutine. The model's cart simply stays as it was, which agrees with the source in that no later event is handled.
- `AuthRepository.logout` is only a delay and is not modelled separately.
- The `User` record's `createdAt` default reads the clock. It is a plain field here and has no default.
