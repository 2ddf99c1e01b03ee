# Oceano's Cuisine: a Dafny model of the app's screens

Oceano's Cuisine is a small React Native restaurant app. This project models
the logic under four of its screens and under the menu provider that they share:

- **Reservation** (`screens/Reservation.js`). A four-field customer form
  with a first-failure-wins validator: every field must be non-blank after
  `trim`, the phone must be ten ASCII digits, and the email must have the shape
  `x@y.z`. A valid submission becomes the confirmed reservation. "Change
  details" refills the form from that reservation. "Continue to payment"
  forwards the reservation and `seatPrice * peopleNumber` to the cart.
- **Chef's menu** (`screens/ChefsMenu.tsx`). A guarded append of a new dish,
  a delete by id, an edit that lays a patch over the dishes with an id, and
  the Edit button's fixed patch. Each handler writes one list to the context,
  to the screen's displayed list and to the store under `"dishes"`. Delete,
  edit and load go through the `setDishes` the screen takes from the context
  value, so the screen is mounted with that value and branches on whether it
  holds `setDishes`.
- **Menu provider** (`screens/MenuContext.js`). The shared dish list. It
  starts empty, and the value it places in context offers only the list and
  `addDish`, an append; its own `setDishes` stays inside it.
- **Full menu** (`screens/FullMenu.tsx`). The category filter, where
  `"All"` shows everything, and the average price of each of the three
  categories, where an empty category averages 0.
- **Cart** (`screens/Cart.js`). Load precedence: a list passed by navigation
  wins, then the stored list, then the empty list. Removal by id is persisted
  as the same list. Checkout is enabled exactly when the cart holds items.

Modules:

- `Wrappers`: `Option`.
- `Lists`: a generic `filter` and `map` with their order and count lemmas.
- `JsText`: JavaScript's `trim`, `\s`, `\d` and `Number()` coercion of digit
  strings.
- `Storage`: one AsyncStorage key holding a JSON list. Reads and writes may
  fail.
- `Dishes`: the dish record and the spread overlay.
- One module per screen and one for the provider.

Component state that handlers change in place is a class:

- `ReservationScreen`, `ChefsMenuScreen`, `FullMenuScreen` and `CartScreen`;
- `MenuProvider`;
- `StoredList`, the store entry under one key.

The lists those handlers build are pure functions with their own lemmas.

A failed AsyncStorage call is a `bool` parameter, `unavailable`, of the
method that makes it. `Date.now().toString()` and `parseFloat(price)` are
parameters of `HandleAddDish`.

## Model

| member | source | states |
|---|---|---|
| Reservation.With | screens/Reservation.js:63-65 | the named field takes the new value and every other field keeps its value |
| Reservation.ValidPhoneDigits | screens/Reservation.js:69 | `ValidPhone` accepts exactly the ten-character digit strings; an accepted phone is not blank and is its own trim, so a padded phone is refused |
| Reservation.ValidEmailIffPattern | screens/Reservation.js:70 | the check on the text (an '@' after a non-empty run without spaces or '@', then a run without spaces or '@' that holds a '.' neither first nor last) accepts exactly the strings of the form a@b.c, where a, b and c are non-empty and hold no space or '@' |
| Reservation.ValidEmailMatchesPattern | screens/Reservation.js:70 | every string the text check accepts splits as a@b.c |
| Reservation.PatternPassesValidEmail | screens/Reservation.js:70 | every string of the form a@b.c passes the text check |
| Reservation.ValidEmailUnpadded | screens/Reservation.js:70 | an email `ValidEmail` accepts starts and ends with a non-space, so it is not blank and is its own trim |
| Reservation.AnyBlankIffSomeField | screens/Reservation.js:72 | "some field is blank" is the same as `Object.values(details).some(...)` over the four fields |
| Reservation.ValidateInputsVerdicts | screens/Reservation.js:67-88 | the contract of `ValidateInputs`: the verdict is "missing field" iff some field is all whitespace; "bad phone" iff none is blank and the phone is not ten digits; "bad email" iff the first two checks pass and the email fails; acceptance iff all three pass |
| Reservation.TotalPrice | screens/Reservation.js:43 | for text that trims to a digit string, such as " 4 ", the total is the seat price times the decimal value of the trimmed text; a total exists exactly when `Number()` of the text is modelled |
| Reservation.ReservationScreen.constructor | screens/Reservation.js:8-37 | both modals closed, empty form, no reservation, button shown, seat price 20 |
| Reservation.ReservationScreen.ToggleModal | screens/Reservation.js:52-54 | the table modal flips and nothing else changes |
| Reservation.ReservationScreen.ToggleChangeDetailsModal | screens/Reservation.js:56-61 | the form becomes the reservation when there is one and is kept otherwise; the modal is open afterwards |
| Reservation.ReservationScreen.HandleInputChange | screens/Reservation.js:63-65 | only the form changes, and it changes only in the named field |
| Reservation.ReservationScreen.ToggleFinish | screens/Reservation.js:90-114 | a rejection changes nothing; on acceptance the reservation is the submitted form, the form is emptied, the details modal is closed, the table modal flips and the button is hidden; every confirmed reservation passes validation |
| Reservation.ReservationScreen.HandleAddToCart | screens/Reservation.js:39-50 | without a reservation nothing is forwarded; with one, the cart gets its party size, the seat price 20, the details and the seat total, and the details it gets have a ten-digit phone, a valid email and a non-blank party size |
| Reservation.PhoneExamples | screens/Reservation.js:69 | "1234567890" passes; nine or eleven digits and "123-456-7890" fail |
| Reservation.EmailAccepted | screens/Reservation.js:70 | "a@b.com" has the form a@b.c |
| Reservation.EmailRejected | screens/Reservation.js:70 | "a@b" and "a.com" do not |
| Reservation.FourPeopleExample | screens/Reservation.js:10-43 | four people at the seat price of 20 come to 80 |
| JsText.TrimStartSpec | screens/Reservation.js:72 | the result is a suffix of the input that does not start with whitespace; all that was cut is whitespace |
| JsText.TrimEndSpec | screens/Reservation.js:72 | the result is a prefix of the input that does not end with whitespace; all that was cut is whitespace |
| JsText.Trim | screens/Reservation.js:72 | the result is no longer than the input, and neither its first nor its last character is whitespace |
| JsText.TrimIsSlice | screens/Reservation.js:72 | the trimmed text sits inside the input with only whitespace before and after it |
| JsText.TrimEmptyIffAllSpace | screens/Reservation.js:72 | `trim()` yields the empty string exactly when the text is all whitespace |
| JsText.ToNumber | screens/Reservation.js:43 | blank text coerces to 0 and text that trims to a digit string to the decimal value of the trimmed text; the result is defined exactly for these two kinds of text |
| Lists.Filter | screens/ChefsMenu.tsx:82 | the result is no longer than the input and holds exactly the elements that satisfy the predicate |
| Lists.FilterIsSubsequence | screens/FullMenu.tsx:19 | `filter` keeps the original order: its result is a subsequence of its input |
| Lists.FilterCounts | screens/Cart.js:33 | `filter` keeps every copy of a kept element and no copy of a dropped one |
| Lists.FilterKeepsAll | screens/ChefsMenu.tsx:82 | when every element satisfies the predicate, `filter` returns its input |
| Lists.Map | screens/ChefsMenu.tsx:90-92 | `map` keeps the length and applies the function at every position |
| Storage.Read | screens/ChefsMenu.tsx:33-35 | a stored list is found iff the store answers and holds JSON text; nothing stored is absent; the found list is the stored one |
| Storage.Written | screens/ChefsMenu.tsx:47 | a write that goes through reads back as the written list; a rejected write leaves the entry as it was |
| Storage.StoredList.constructor | screens/ChefsMenu.tsx:33 | the entry under a key is what the store holds when the screen mounts |
| Storage.StoredList.GetItem | screens/Cart.js:21-22 | the result is the read outcome `Read` of the current entry |
| Storage.StoredList.SetItem | screens/Cart.js:35 | the entry becomes the written list unless the store rejects the call; the result reports which |
| Dishes.Overlay | screens/ChefsMenu.tsx:91 | every field the patch carries replaces the dish's own, and the others stay; an empty patch is the identity |
| MenuContext.MenuProvider.constructor | screens/MenuContext.js:7 | the provider starts with no dishes |
| MenuContext.MenuProvider.AddDish | screens/MenuContext.js:10-12 | the dish is appended: length grows by one, it is last, and every earlier dish stays in place |
| MenuContext.MenuProvider.SetDishes | screens/MenuContext.js:7 | the provider's own state setter replaces the list |
| MenuContext.MenuProvider.Value | screens/MenuContext.js:15 | the context value carries the current list and `addDish`, and no `setDishes` |
| MenuContext.MenuProvider.ValueWithSetDishes | screens/ChefsMenu.tsx:19 | the value the chef's screen destructures: the current list, `addDish` and `setDishes` |
| MenuContext.AddTwo | screens/MenuContext.js:7-15 | a fresh provider lists two added dishes in the order they were added |
| ChefsMenu.Without | screens/ChefsMenu.tsx:82 | exactly the dishes without the id remain, in their order and with their multiplicities; an unknown id changes nothing |
| ChefsMenu.Edited | screens/ChefsMenu.tsx:90-92 | the length is kept; the patch is overlaid at each position with the id, and every other position is unchanged |
| ChefsMenu.EditKeepsIds | screens/ChefsMenu.tsx:90-92 | a patch without an id keeps every dish's id at its position |
| ChefsMenu.EditUnknownId | screens/ChefsMenu.tsx:90-92 | editing an id that no dish has returns the list unchanged |
| ChefsMenu.EditButtonPatch | screens/ChefsMenu.tsx:108-112 | the patch appends " (Edited)" to the name and " (Updated)" to the description and carries no other field |
| ChefsMenu.ChefsMenuScreen.constructor | screens/ChefsMenu.tsx:19-24 | the screen reads the provider's list; it holds `setDishes` exactly when the context value has that member; the form and the displayed list start empty |
| ChefsMenu.ChefsMenuScreen.SetSelectedCategory | screens/ChefsMenu.tsx:149 | only the category field changes |
| ChefsMenu.ChefsMenuScreen.SetDishName | screens/ChefsMenu.tsx:164 | only the name field changes |
| ChefsMenu.ChefsMenuScreen.SetDescription | screens/ChefsMenu.tsx:171 | only the description field changes |
| ChefsMenu.ChefsMenuScreen.SetPrice | screens/ChefsMenu.tsx:178 | only the price field changes |
| ChefsMenu.ChefsMenuScreen.LoadDishes | screens/ChefsMenu.tsx:31-42 | with `setDishes` in the context value a stored list becomes both the context list and the displayed list, leaving all three in step; nothing stored completes with no change; a failed read, or a stored list with no `setDishes`, is logged and changes nothing |
| ChefsMenu.ChefsMenuScreen.Commit | screens/ChefsMenu.tsx:83-85 | one list goes to the context, the display and the store; after a write that goes through all three agree |
| ChefsMenu.ChefsMenuScreen.HandleAddDish | screens/ChefsMenu.tsx:54-78 | with any form field empty nothing changes; otherwise `addDish` appends the new dish to the context list, the displayed and stored lists are the old list with it appended, the three agree when the write goes through, and all four form fields are emptied |
| ChefsMenu.ChefsMenuScreen.HandleDeleteDish | screens/ChefsMenu.tsx:81-86 | without `setDishes` in the context value the call throws and nothing changes; with it, the context list becomes `Without` of the old list and the display and the store follow; the form is kept |
| ChefsMenu.ChefsMenuScreen.HandleEditDish | screens/ChefsMenu.tsx:89-96 | without `setDishes` in the context value the call throws and nothing changes; with it, the context list becomes `Edited` of the old list and the display and the store follow; the form is kept |
| ChefsMenu.ChefsMenuScreen.PressEdit | screens/ChefsMenu.tsx:106-113 | the Edit button edits the card's own id with the button's patch, with the same outcomes as an edit; the form is kept |
| ChefsMenu.DeleteAsWrittenKeepsDish | screens/ChefsMenu.tsx:81-86 | with the provider's own value, a dish added in the same session cannot be deleted: the delete throws and the dish stays in the context list and in the store |
| ChefsMenu.DeleteRemovesDish | screens/ChefsMenu.tsx:81-86 | with `setDishes` in the context value, the same delete completes and empties the list and the store |
| ChefsMenu.FillForm | screens/ChefsMenu.tsx:149-178 | the four inputs take a dish's category, name and description, and the price "1" |
| ChefsMenu.LoadThenAddAsWritten | screens/ChefsMenu.tsx:26-78 | with the provider's own value, after a restart the load is logged as failed and the first added dish replaces the stored menu |
| ChefsMenu.LoadThenAdd | screens/ChefsMenu.tsx:26-78 | with `setDishes` in the context value, the load completes and the added dish joins the stored menu |
| FullMenu.OfCategory | screens/FullMenu.tsx:19 | exactly the dishes of the category, in their order |
| FullMenu.OfCategoryCounts | screens/FullMenu.tsx:19 | every copy of a dish of the category is kept and no copy of any other dish |
| FullMenu.TotalAppend | screens/FullMenu.tsx:29 | the `reduce` over prices is a sum: the total of two lists joined is the sum of their totals |
| FullMenu.Mean | screens/FullMenu.tsx:28-32 | an empty list averages 0; otherwise the average times the count is the sum of the prices |
| FullMenu.TotalBetween | screens/FullMenu.tsx:29 | prices within [lo, hi] sum to between n·lo and n·hi |
| FullMenu.MeanBetween | screens/FullMenu.tsx:30-31 | a category's average lies between its cheapest and dearest price |
| FullMenu.LoneDishAverage | screens/FullMenu.tsx:28-31 | a category with one dish averages that dish's price |
| FullMenu.InitialAverages | screens/FullMenu.tsx:10-14 | the three categories, each at 0 |
| FullMenu.InitialAveragesOfEmptyMenu | screens/FullMenu.tsx:10-32 | the initial averages are those an empty menu computes to |
| FullMenu.FullMenuScreen.constructor | screens/FullMenu.tsx:9-14 | "All" is selected and every average is 0 |
| FullMenu.FullMenuScreen.SelectCategory | screens/FullMenu.tsx:76-94 | only the selection changes |
| FullMenu.FullMenuScreen.FilteredItems | screens/FullMenu.tsx:17-19 | under "All" the list itself; otherwise exactly the selected category's dishes, in order, with their multiplicities |
| FullMenu.FullMenuScreen.CalculateAverages | screens/FullMenu.tsx:22-39 | averages exist for exactly Starter, Main Course and Dessert, and each is the mean of that category's prices |
| Cart.RemoveById | screens/Cart.js:33 | exactly the items without the id remain, in their order and with their multiplicities; an unknown id changes nothing |
| Cart.RemovedNotice | screens/Cart.js:36 | the notice starts with the meal's name |
| Cart.CartScreen.constructor | screens/Cart.js:12 | the cart starts empty |
| Cart.CartScreen.LoadCartItems | screens/Cart.js:16-29 | a failed read keeps the cart; otherwise a passed list wins, even an empty one, then the stored list, then the empty list; the cart is then empty, and checkout disabled, exactly when the winning list is empty |
| Cart.CartScreen.RemoveFromCart | screens/Cart.js:31-40 | the cart becomes `RemoveById` of the old cart, the same list is written, and the notice follows a write that goes through; checkout stays enabled exactly when some item with another id was in the cart |
| Cart.EmptyStoreDisablesCheckout | screens/Cart.js:16-89 | with nothing passed and nothing stored, checkout is disabled |
| Cart.PassedEmptyListWins | screens/Cart.js:23 | a passed empty list wins over a stored list |

## Left out

- Rendering, styles, images, the background video, modal visibility beyond
  the two reservation flags, and `Alert` dialogs. A rejection is a returned
  `Reason` and a removal notice is a returned string.
- Reservation.ReservationScreen.ToggleFinish: the success alert's single "OK"
  is taken as pressed, so the commit happens in the same call. A dismissed
  alert is not modelled.
- The date picker (`screens/Reservation.js:12-26`). It feeds nothing that
  is validated or forwarded.
- Navigation. The forwarded parameters are a plain record, `CartParams`.
  The Cart screen's own use of `customerDetails` and the totals is display only.
- Reservation.TotalPrice: `Number()` coercion is modelled for text that is
  blank or a decimal digit string with surrounding whitespace. Signs,
  fractions, exponents, hex literals and NaN give `None`.
- JsText.ToNumber: JavaScript numbers are doubles, so a digit string above
  2^53 is rounded; the model's value is the exact `nat`.
- Reservation.ReservationScreen.HandleInputChange: `name` ranges over the
  four field names that the form passes. A call with any other key, which
  would add a fifth property, is not modelled.
- ChefsMenu.ChefsMenuScreen.HandleAddDish: `parseFloat(price)` and
  `Date.now().toString()` are parameters. Floating point and NaN prices are
  not modelled; prices are `real`.
- FullMenu.FullMenuScreen.CalculateAverages: `toFixed(2)` is not modelled. The
  stored average is the exact mean, not its two-decimal string.
- AsyncStorage's asynchrony and `console.error` logging. Each call completes
  before the next handler runs, and `saveDishes` is not awaited.
- JSON serialisation is taken as exact. Stored text that parses to a value
  other than a list is not modelled.
- MenuContext.MenuProvider.Value: the provider re-renders and hands the
  screens a new value each time; the chef's screen reads the provider's list
  directly, and whether the value holds `setDishes` is fixed when it mounts.
- Cart items are only read from the store or from navigation. No screen of
  this model adds them.
- The login, home and app-shell screens are not part of this model.

## Findings

| source | as written | input that shows it | evidently intended | confidence | as-written member | corrected member |
|---|---|---|---|---|---|---|
| screens/ChefsMenu.tsx:19, 83, 93 | `setDishes` is taken from the menu context, but the provider's value (screens/MenuContext.js:15) holds only `dishes` and `addDish`, so delete and edit throw a TypeError before any state changes | on a fresh provider the chef adds a dish `d`, then presses Delete on `d` | the dish leaves the context list, the displayed list and the store | high (not executed) | ChefsMenu.DeleteAsWrittenKeepsDish | ChefsMenu.DeleteRemovesDish |
| screens/ChefsMenu.tsx:36 | `loadDishes` calls the same missing `setDishes`; the throw is caught, so a stored menu never reaches either list, and the next add writes a list without it | store holds `[saved]`, the app restarts, the chef adds `dish` | the stored menu is loaded and the new dish joins it: `[saved, dish]` is stored | high (not executed) | ChefsMenu.LoadThenAddAsWritten | ChefsMenu.LoadThenAdd |
