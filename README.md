# Sarte Restro storefront: a Dafny model of its state logic

This project models the state logic of the Sarte Restro food storefront, a Next.js site. It covers:

- the orders store, which prepends orders and rewrites their status, and writes itself to the browser's local storage after every change;
- the session store, which signs a visitor in or up and signs them out over the same storage;
- the checkout transaction, which checks the form, prepends the order and empties the cart;
- the validators and classifiers of the login, cart, food-card and orders pages;
- the case-insensitive menu search over the fixed twelve-item catalog;
- the hero carousel's index and search box.

Pure code is modelled as datatypes, functions and lemmas. Anything the source updates in place is a class whose methods name what they modify:

- the React providers;
- the local storage;
- the food card's and forms' state cells;
- the carousel.

A handler's requests to the router, to `alert` and to the cart store come back as `Prelude.Effect` values.

The modules follow the program's structure. The page and provider modules each model one source file; the others hold shared records and helpers:

- `Prelude` holds the shared vocabulary.
- `Text` holds the JavaScript string operations used: `toLowerCase`, `includes`, `trim`, `split`, `slice` and UTF-16 `length`.
- `Catalog` holds the menu.
- `Cart` holds cart items and totals.
- `Orders` and `Users` hold the records and their pure updates.
- `Storage` holds local storage.
- `OrdersContext` and `AuthContext` hold the providers.
- `CartPage`, `CheckoutPage`, `FoodCard`, `OrdersPage`, `LoginPage`, `HomePage` and `Carousel` hold the pages and components.
- `Session` composes the two providers.

Two behaviours of the code are kept as written:

- **Sign-out clears only stored orders.** `logout` removes the `orders` storage entry (contexts/AuthContext.tsx:80-85), but the orders provider keeps its in-memory list. The next order placed in the same page session therefore writes all earlier orders back to storage. `Session.SignOutThenOrder` states this.
- **Orders page: `if (orderToCancel)` uses JavaScript truthiness.** A pending id equal to the empty string behaves like no pending id. The model keeps this.

## Model

| member | source | states |
|---|---|---|
| Catalog.CatalogIds | data/sampleFoods.ts:10-107 | the catalog has exactly 12 entries and their ids are pairwise distinct |
| Catalog.CatalogEntriesComplete | data/sampleFoods.ts:1-107 | every price is positive and every entry supplies an image and a category, though both are optional in the type |
| FoodCard.CatalogCategoriesKnown | data/sampleFoods.ts:16-104 | every catalog category is one of the eight names the food card maps |
| Text.ToLowerIdempotent | app/page.tsx:29-31 | lower-casing is idempotent, so lowered text is a fixed point of the search and classifier |
| Text.ContainsIff | app/page.tsx:29-31 | `includes` holds exactly when some window of the text equals the needle |
| Text.TrimEmptyIff | app/page.tsx:24 | `query.trim() === ""` holds exactly when every character is JavaScript whitespace |
| Orders.AddOrder | contexts/OrdersContext.tsx:41-43 | the new order is at index 0, followed by every previous order in its previous position shifted by one; length grows by one |
| Orders.UpdateOrderStatus | contexts/OrdersContext.tsx:45-51 | same length, and at every position: an order with the id gets the new status, every other order is unchanged (so all orders sharing an id are updated) |
| Orders.UpdateUnknownId | contexts/OrdersContext.tsx:47-49 | an id no order has leaves the list unchanged |
| Orders.UpdateKeepsContents | contexts/OrdersContext.tsx:48 | ids, positions and every field but the status are kept |
| Orders.UpdateTwiceLastWins | contexts/OrdersContext.tsx:45-51 | two updates of the same id equal the second alone |
| Orders.UpdatesCommute | contexts/OrdersContext.tsx:45-51 | updates of two different ids commute |
| Orders.UpdateAfterAdd | contexts/OrdersContext.tsx:41-51 | updating after an add equals adding the updated order in front of the updated list |
| OrdersContext.OrdersProvider.constructor | contexts/OrdersContext.tsx:26 | the list starts empty |
| OrdersContext.OrdersProvider.Mount | contexts/OrdersContext.tsx:28-39 | a stored list replaces the initial one, and the list is then written back, so the entry equals the list |
| OrdersContext.OrdersProvider.AddOrder | contexts/OrdersContext.tsx:41-43 | the list becomes `Orders.AddOrder` of the old one, only the `orders` entry changes, and it equals the new list |
| OrdersContext.OrdersProvider.UpdateOrderStatus | contexts/OrdersContext.tsx:45-51 | the list becomes `Orders.UpdateOrderStatus` of the old one, only the `orders` entry changes, and it equals the new list |
| Users.LoginUser | contexts/AuthContext.tsx:53 | the user has the email, the name `email.split("@")[0]`, and no other field |
| Users.LoginNameIsLocalPart | contexts/AuthContext.tsx:53 | the name has no `@`, and the email is the name alone or the name, an `@` and the rest |
| Users.LoginNameWithoutAt | contexts/AuthContext.tsx:53 | without an `@` the whole email is the name |
| Users.SignupUser | contexts/AuthContext.tsx:65-72 | email, first and last name, phone and picture are copied, name is first + " " + last, and nothing else is set |
| Users.SignupForgetsPassword | contexts/AuthContext.tsx:65-72 | the stored user does not depend on the password |
| AuthContext.AuthProvider.constructor | contexts/AuthContext.tsx:37-38 | no user, loading |
| AuthContext.AuthProvider.Hydrate | contexts/AuthContext.tsx:40-47 | a stored user is restored if present, and loading ends |
| AuthContext.AuthProvider.Login | contexts/AuthContext.tsx:49-58 | the user becomes `LoginUser(email)`, whatever the password, and exactly the `user` entry is set to it |
| AuthContext.AuthProvider.Signup | contexts/AuthContext.tsx:61-78 | the user becomes `SignupUser(data)` and exactly the `user` entry is set to it |
| AuthContext.AuthProvider.Logout | contexts/AuthContext.tsx:80-85 | no user, and exactly the `user`, `cart` and `orders` entries are removed; once loading is over, protected pages then redirect to login |
| Session.FirstLoadRedirect | app/orders/page.tsx:15-19 | on first load, after hydration, a protected page redirects to login exactly when storage holds no `user` entry |
| Session.SignOutThenOrder | contexts/AuthContext.tsx:80-85 | after sign-out and one more order, the stored orders are that order followed by every order from before the sign-out |
| Cart.SubtotalAppend | app/cart/page.tsx:57-60 | the price × quantity fold splits over concatenation |
| Cart.SubtotalCons | app/checkout/page.tsx:66-69 | the subtotal is the first line plus the subtotal of the rest |
| Cart.SubtotalNonNegative | app/cart/page.tsx:57-60 | non-negative prices and quantities give a non-negative subtotal |
| Cart.Totals | app/checkout/page.tsx:66-71 | the subtotal is the fold, the tax is a tenth of it, and the total is subtotal + tax = 11/10 of the subtotal |
| Cart.FindById | components/FoodCard.tsx:85 | `find` returns nothing exactly when no item has the id, and otherwise the first item that has it |
| Cart.CartStore.ClearCart | app/checkout/page.tsx:91 | the cart becomes empty |
| CartPage.HandleCheckout | app/cart/page.tsx:64-70 | an empty cart alerts and stays; a non-empty one goes to checkout |
| CartPage.QuantityButton | app/cart/page.tsx:178-194 | the minus and plus buttons request quantity − 1 and quantity + 1 for that item's id |
| CartPage.RemoveButton | app/cart/page.tsx:206-211 | the remove button requests removal of that item's id |
| CartPage.CartButtonsSkipCardBound | app/cart/page.tsx:178-194 | the cart page does not apply the food card's 1..99 bound: minus at 1 asks for 0 and plus at 99 asks for 100, which the card refuses; in between both requests are ones the card accepts |
| CartPage.ButtonsFindTheirItem | app/cart/page.tsx:178-211 | in a cart with distinct ids, looking up the id of any button's request finds exactly that row's item |
| CartPage.FirstRule | app/cart/page.tsx:73-84 | a keyword table yields one of its own categories or the default |
| CartPage.FirstRuleIsFirstMatch | app/cart/page.tsx:73-84 | the table's result is the category of the first group with a keyword in the text, or the default when no group matches |
| CartPage.AnyOccursPair | app/cart/page.tsx:81-82 | a two-keyword group matches when either keyword occurs |
| CartPage.NameEmojiFollowsRules | app/cart/page.tsx:73-84 | the if-chain equals the table lookup pizza, burger, salad, chicken, pasta, fish, cake/dessert, wings/nachos on the lowered name |
| CartPage.NameEmojiIgnoresCase | app/cart/page.tsx:74 | classifying a name and its lower-cased form agree |
| CartPage.BurgerBeatsLaterKeywords | app/cart/page.tsx:75-76 | a name with "burger" and no "pizza" is a burger, whatever later keywords it contains |
| CartPage.ChickenBurgerIsBurger | app/cart/page.tsx:76-78 | "Chicken Burger" is a burger, not chicken |
| CheckoutPage.PaymentValue | app/checkout/page.tsx:184-192 | the payment method is one of "cash", "card", "online" |
| CheckoutPage.InitialFormIsCashAndIncomplete | app/checkout/page.tsx:16-18 | the form starts with cash selected and with empty fields that the guard rejects |
| CheckoutPage.Render | app/checkout/page.tsx:54-64 | the form, and with it the Place Order button, shows exactly when not loading, signed in and with a non-empty cart |
| CheckoutPage.PlacedOrder | app/checkout/page.tsx:79-88 | the order is pending, holds the cart, the form's address, phone and payment method, and the total 11/10 × subtotal |
| CheckoutPage.HandlePlaceOrder | app/checkout/page.tsx:73-93 | an empty address or phone alerts and changes nothing; otherwise one order is prepended and written to the `orders` entry, the in-memory cart is emptied and the route is the orders page; the model writes no other storage entry (see "Left out" for the cart store's own write) |
| FoodCard.CategoryEmoji | components/FoodCard.tsx:136-148 | a category in the eight-entry map gets its pictogram; an absent or unknown category gets the plate |
| FoodCard.CategoryEmojisDistinct | components/FoodCard.tsx:137-146 | the eight categories get eight different pictograms, none of them the default |
| FoodCard.CategoryEmojiIsExact | components/FoodCard.tsx:147 | the lookup is exact: "pizza", "" and no category give the default |
| FoodCard.FoodCardState.constructor | components/FoodCard.tsx:26-28 | not adding, selector hidden, quantity 1 |
| FoodCard.FoodCardState.HandleAddToCartClick | components/FoodCard.tsx:78-101 | signed out: go to login and change nothing; signed in: add without a quantity and set 1 if the id is absent, else take the cart's quantity, and show the selector |
| FoodCard.FoodCardState.HandleQuantityChange | components/FoodCard.tsx:103-110 | values outside 1..99 change nothing and send nothing; others become the quantity and are sent to the cart |
| FoodCard.FoodCardState.Decrease | components/FoodCard.tsx:195-202 | the minus button is `HandleQuantityChange(quantity - 1)` |
| FoodCard.FoodCardState.Increase | components/FoodCard.tsx:206-213 | the plus button is `HandleQuantityChange(quantity + 1)` |
| FoodCard.FoodCardState.HandleConfirmAdd | components/FoodCard.tsx:112-121 | signed out: go to login; signed in: start the adding state |
| FoodCard.FoodCardState.ConfirmAddTimerFired | components/FoodCard.tsx:124-127 | the timer ends the adding state and hides the selector |
| FoodCard.FoodCardState.HandleCancelQuantity | components/FoodCard.tsx:130-133 | hides the selector and resets the quantity to 1 without a cart request |
| OrdersPage.StatusColorsDistinct | app/orders/page.tsx:58-71 | the four statuses get four distinct styles, none the default, and any other string gets the default |
| OrdersPage.CancelDisabled | app/orders/page.tsx:214 | the cancel button is disabled exactly for cancelled and delivered orders |
| OrdersPage.CancelCaption | app/orders/page.tsx:221 | "Order Cancelled" for a cancelled order, "Cancel Order" otherwise |
| OrdersPage.CancelledCaptionIsDisabled | app/orders/page.tsx:214-221 | a button captioned "Order Cancelled" is disabled, and the button is enabled exactly for pending and preparing orders |
| OrdersPage.CancelledOrdersShowCancelled | app/orders/page.tsx:77-82 | after cancelling an id, every order with that id shows a disabled "Order Cancelled" button, and the others keep their status |
| OrdersPage.ShortId | app/orders/page.tsx:151 | the whole id when it has at most 6 characters, else its last 6 (characters, not UTF-16 units; see "Left out") |
| OrdersPage.StatusLabels | app/orders/page.tsx:163 | the badges read Pending, Preparing, Delivered and Cancelled |
| OrdersPage.StatusLabelShape | app/orders/page.tsx:163 | the label is the status with its first letter upper-cased and the rest unchanged |
| OrdersPage.OrdersPageState.constructor | app/orders/page.tsx:13 | no order is pending cancellation |
| OrdersPage.OrdersPageState.HandleCancelClick | app/orders/page.tsx:73-75 | the clicked order's id becomes the pending one |
| OrdersPage.OrdersPageState.HandleConfirmCancel | app/orders/page.tsx:77-82 | with a pending id, its orders are cancelled and stored, every other storage entry is kept, their buttons become disabled "Order Cancelled" ones and the id is cleared; without one nothing changes |
| OrdersPage.OrdersPageState.HandleCancelModal | app/orders/page.tsx:84-86 | the pending id is cleared and the orders are untouched |
| LoginPage.SignUpError | app/login/page.tsx:36-58 | passes exactly when all six fields are filled, the passwords match and the password has at least 6 UTF-16 units; fails only with one of the three messages |
| LoginPage.EmptyFieldReportedFirst | app/login/page.tsx:38-48 | any empty field gives "Please fill in all fields", whatever else is wrong |
| LoginPage.MismatchReportedBeforeLength | app/login/page.tsx:50-58 | with every field filled, differing passwords give the mismatch error before the length rule |
| LoginPage.SixCharactersSuffice | app/login/page.tsx:55-58 | a matching password of 6 ordinary characters passes; a shorter one gives the too-short error |
| LoginPage.SignInError | app/login/page.tsx:75-78 | sign-in passes exactly when email and password are non-empty |
| LoginPage.SignInHasNoLengthRule | app/login/page.tsx:55-58 | a one-character password signs in but does not sign up |
| LoginPage.SignupPayload | app/login/page.tsx:61-68 | the payload carries the five fields and the password but no confirmation; the picture is absent when none or an empty one was chosen |
| LoginPage.PictureError | app/login/page.tsx:89-101 | accepts exactly a type starting with "image/" and a size of at most 5 × 1024 × 1024 bytes, with the type checked first |
| LoginPage.PictureLimitInclusive | app/login/page.tsx:98-101 | exactly 5 MiB is accepted, one byte more is rejected |
| LoginPage.ApplyMode | app/login/page.tsx:22-30 | mode=signin selects sign-in, mode=signup selects sign-up, anything else keeps the mode |
| LoginPage.ModeRoundTrip | app/login/page.tsx:111-125 | reading back the route `switchMode` pushes selects the mode it switched to |
| LoginPage.LoginForm.constructor | app/login/page.tsx:9-18 | sign-in mode with every cell empty |
| LoginPage.LoginForm.ApplyModeParam | app/login/page.tsx:22-30 | the mode becomes `ApplyMode` of the parameter |
| LoginPage.LoginForm.HandleSubmit | app/login/page.tsx:32-87 | the first failed check sets the error and does nothing else; otherwise the error is cleared, the provider signs up (or in) and the route is "/" |
| LoginPage.LoginForm.HandleProfilePictureChange | app/login/page.tsx:89-102 | no file: nothing; a rejected file: its error; an accepted file is kept |
| LoginPage.LoginForm.PictureLoaded | app/login/page.tsx:104-106 | the read data URL becomes the picture |
| LoginPage.LoginForm.SwitchMode | app/login/page.tsx:111-125 | the mode flips, the error, picture and six text fields are cleared, and the new mode's route is pushed |
| HomePage.FilterFoods | app/page.tsx:27-32 | an entry is in the result exactly when it is in the input and matches, and the result is an order-preserving subsequence |
| HomePage.FilterKeepsEveryMatch | app/page.tsx:27-32 | every matching entry is kept as many times as it occurs, and no non-matching entry is kept |
| HomePage.BlankQueryShowsAll | app/page.tsx:24-25 | an empty or all-whitespace query shows the whole catalog in catalog order |
| HomePage.SearchKeepsMatchesInOrder | app/page.tsx:26-33 | any other query shows, in catalog order, exactly the catalog entries that match |
| HomePage.NoCategoryMatchesByText | app/page.tsx:31 | an entry without a category matches only through its name or description |
| HomePage.QueryIsNotTrimmedForMatching | app/page.tsx:24-31 | only the blank test trims: "nachos " with a trailing space does not match a lone "Nachos" |
| HomePage.Home.constructor | app/page.tsx:9-10 | empty query, whole catalog |
| HomePage.Home.HandleSearch | app/page.tsx:22-35 | the raw query is kept and the results are the search for it |
| Carousel.NextIndex | components/Carousel.tsx:21 | the step stays below the slide count and moves a valid index forward, wrapping the last to 0 |
| Carousel.AdvanceWithinCycle | components/Carousel.tsx:20-22 | within one cycle, k steps count forward and wrap once past the last slide |
| Carousel.AdvanceCompose | components/Carousel.tsx:20-22 | a steps then b steps are a + b steps |
| Carousel.FullCycleReturns | components/Carousel.tsx:20-22 | one step per slide returns to the start, and no shorter run does |
| Carousel.AdvancePeriodic | components/Carousel.tsx:20-22 | the slide shown repeats with period n |
| Carousel.CarouselState.constructor | components/Carousel.tsx:13-15 | index 0, empty query |
| Carousel.CarouselState.Tick | components/Carousel.tsx:17-25 | with autoplay and more than one slide the index steps; otherwise it stays |
| Carousel.CarouselState.DotTargets | components/Carousel.tsx:129-143 | one dot per slide index when there are at least two slides, none otherwise |
| Carousel.CarouselState.SetSearchQuery | components/Carousel.tsx:114 | the search box's text becomes the query |
| Carousel.CarouselState.GoToSlide | components/Carousel.tsx:27-29 | the index becomes the argument, and a dot's target keeps it valid |
| Carousel.CarouselState.SlideOpacity | components/Carousel.tsx:46-48 | a slide is opaque exactly when it is the current one |
| Carousel.ExactlyOneVisible | components/Carousel.tsx:43-58 | with a valid index, exactly the current slide is visible |
| Carousel.CarouselState.HandleSearch | components/Carousel.tsx:32-37 | the current query is handed on when an `onSearch` callback was given |
| HomePage.SubmitHeroSearch | app/page.tsx:61-65 | submitting the carousel's search on the home page leaves the page holding the carousel's query and the search results for it; without a callback the page is unchanged |

## Left out

- `contexts/CartContext.tsx` is not part of this model. Its `addToCart`, `updateQuantity` and `removeFromCart` appear only as requests (`Prelude.Effect`). Nothing is assumed about merging, clamping or removing at zero. `clearCart` is taken to empty the cart.
- JSON: local storage holds typed entries instead of JSON text, so serialising and parsing are left out.
- `OrdersContext.OrdersProvider.Mount`: the model does not cover malformed stored text, where `JSON.parse` throws. `Mount` and `AuthContext.AuthProvider.Hydrate` require each key to hold its owner's kind of entry.
- `OrdersContext.OrdersProvider.Mount`: React runs the save effect once with the initial empty list before the loaded list arrives. The model merges that into a single load-then-save step, whose end state is the same.
- Timers and async become the single step each one triggers:
  - the 500 ms delay of `login` and `signup`, so a sign-in is complete when the method returns;
  - the carousel's `setInterval` (`Tick`);
  - the food card's 500 ms timeout (`ConfirmAddTimerFired`);
  - the `FileReader` callback (`PictureLoaded`).
- The fly-to-cart animation: it only manipulates the DOM.
- Dates and ids: `Date.now()` and `toISOString()` become the `id` and `date` parameters of `CheckoutPage.PlacedOrder`.
- Floating point: money is exact `real`. IEEE rounding of `price * quantity` and `* 0.1`, and `toFixed(2)`, are not modelled.
- Case mapping: only ASCII letters. JavaScript's full Unicode case mapping is not modelled.
- `OrdersPage.ShortId`: `slice(-6)` counts UTF-16 code units, while the model counts characters. The two agree on ids within the Basic Multilingual Plane, such as the digit strings `Date.now().toString()` produces (app/checkout/page.tsx:80); an id with characters beyond U+FFFF is not modelled.
- `CheckoutPage.HandlePlaceOrder`: the cart store's write of the emptied cart to the `cart` storage entry is not modelled, because the cart provider is not part of this model (`Cart.CartStore` has no storage). In the model the stored `cart` entry keeps its old value after checkout; in the storefront `clearCart` presumably rewrites it as empty, as the `cart` key that `logout` removes suggests (contexts/AuthContext.tsx:83).
- Pictograms are an enumeration. The emoji text is not modelled.
- `FoodCard.CategoryEmoji`: the JavaScript map literal would also answer for inherited keys such as "constructor". The model's lookup covers only the eight own keys.
- `LoginPage.LoginForm.HandleSubmit`, `LoginPage.SignUpError` and `Users.LoginNameWithoutAt`: the browser's form validation is not modelled. The fields are marked `required` (or `required={isSignUp}`) and the email field has `type="email"` (app/login/page.tsx:213, 229, 247, 264-266, 289, 306), so the browser blocks an empty field or an email without an `@` before `handleSubmit` runs. The handler is modelled as if those checks were bypassed, which is what its own checks guard against.
- `Storage.LocalStorage.SetItem` and `AuthContext.AuthProvider.Signup`: `localStorage.setItem` throwing when the storage quota is exceeded is not modelled; `SetItem` always succeeds. A picture accepted by `LoginPage.PictureError` (up to 5 MiB, a data URL of about 7 million characters) can exceed the quota. `signup` would then already have set the in-memory user before the write throws, so user and storage would disagree. The model does not capture this.
- `LoginPage.LoginForm.HandleSubmit`: the "Failed to create account" and "Invalid credentials" errors are not modelled, because the providers' `login` and `signup` never reject.
- The form fields' `onChange` setters (plain assignments) are not modelled separately, except the carousel's.
- `FoodCard.FoodCardState.HandleCancelQuantity` is modelled, but the card renders no control that calls it.
- Presentation is left out: the navigation bar, scroll-reveal observers, other pages, layout, class names other than the status colours, and grid or list view.
