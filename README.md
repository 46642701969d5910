# Dinemate front end: cart, menu, restaurant lists and login, in Dafny

This project models the statable logic under the React views of the Dinemate
restaurant ordering front end:

- **Cart reconciliation** on the restaurant details page. Adding a food is
  validated (an order type must be chosen, the item must not be marked
  unavailable). A price is derived (a "Large" portion costs 1.5 times the
  base). The food is then merged into the matching line of the persisted cart
  or appended as a new line. A cart that belongs to another restaurant is
  replaced only if the shopper confirms the switch dialog. The page is the
  class `Cart.MenuPage`. Its `storedCart` field stands for the browser's
  persisted "cart" slot and its `cart` field for the page's React state.
- **Menu grouping and filtering** on the same page. The foods payload is
  normalised to a list. Foods are grouped into category chips under their
  trimmed category, and the menu grid is filtered by chip and by name search.
- **Restaurant lists.** The manager's list has a name search, an
  all/enabled/disabled status filter, a guarded fetch and the
  enable/disable toggle. The customer's list shows enabled restaurants only,
  narrowed by a name search.
- **Login.** The reply is normalised (token, role and user-id fallbacks).
  Up to three session keys are written. The user is routed by role, or an
  error text is chosen.

Modules: `Js` (the JavaScript built-ins used: truthiness, `??`, `||`
defaults, `toLowerCase`, `includes`, `trim`, and the case-insensitive name
search the menu and both lists share), `Seqs` (`filter` and the
ordered sub-list relation), `Menu`, `Cart`, `Restaurants` (the record both
lists share), `AdminRestaurants`, `UserRestaurants`, `Login`.

Each behaviour has a partner that pins down what it means:
- **Grouping.** The `reduce` is the left fold `Menu.Grouped`, and the method
  `GroupByCategory` is proved equal to it. `GroupedIsFilter` then shows that
  each group is the menu filtered to one key.
- **Cart.** Every add keeps two invariants: one restaurant per cart, and no
  repeated (food id, portion) line.
- **List filters.** Each chain of filters equals a single filter by the
  conjunction, and so is an ordered sub-list of its input.
- **Login.** The session writes are checked key by key.

## Behaviour worth noting

- A cart line stores the unrounded price. `toFixed(2)` only formats the price
  on the menu card (RestaurentDetails.js:433-438).
- A whitespace-only category is truthy, so `||` keeps it and `trim` turns it
  into the key `""`. Only a missing or empty category becomes
  "Uncategorized" (RestaurentDetails.js:67).
- A cart from another restaurant is settled inside `handleAddToCart` by the
  "Switch Restaurant?" dialog (RestaurentDetails.js:140-168). The model takes
  the dialog's answer as an input.
- A merged line keeps the food snapshot and price of its first add. Later
  adds only raise its quantity (RestaurentDetails.js:118-121).
- `handleQuantityChange` creates an entry for a food that has none yet. It
  starts from 1 and is floored at 1 (RestaurentDetails.js:88-93).
- No control on the page calls `handleQuantityChange`, so in practice every
  add uses quantity 1.
- Only the first stored line is compared with the current restaurant
  (RestaurentDetails.js:140). The cart invariant proved here makes that
  enough.

## Model

| member | source | states |
|---|---|---|
| `Js.IncludesAt` | src/admin/pages/pamaa/restaurent/RestaurantList.js:28 | `includes` holds exactly when the term occurs at some offset of the name |
| `Js.EmptyQueryMatches` | src/user/pages/pasindu/restaurent/RestaurentList.js:35-37 | the name search shared by the menu and both lists matches every name, absent or not, on the empty query |
| `Js.QueryCaseIgnored` | src/user/pages/pasindu/restaurent/RestaurentList.js:36 | lower-casing the query first does not change the match |
| `Js.NamelessMatchesOnlyEmpty` | src/user/pages/pasindu/restaurent/RestaurentList.js:36 | an absent or empty name is matched only by the empty query |
| `Js.TrimEdges` | src/user/pages/pasindu/restaurent/RestaurentDetails.js:67 | `trim` leaves no ECMAScript whitespace at either end, and gives "" exactly for an all-whitespace string |
| `Js.TrimIsInnerBlock` | src/user/pages/pasindu/restaurent/RestaurentDetails.js:67 | the trimmed key is a contiguous block of the category with only whitespace before and after it |
| `Seqs.KeepIsSubsequence` | src/admin/pages/pamaa/restaurent/RestaurantList.js:27-33 | a `filter` result is an order-preserving sub-list of its input |
| `Seqs.KeepKeep` | src/admin/pages/pamaa/restaurent/RestaurantList.js:24-35 | two successive `filter`s equal one `filter` by the conjunction |
| `Seqs.KeepCommutes` | src/admin/pages/pamaa/restaurent/RestaurantList.js:24-35 | two successive `filter`s can be applied in either order |
| `Menu.NormalizeFoods` | src/user/pages/pasindu/restaurent/RestaurentDetails.js:56-61 | an array body is used as is; a null or primitive body gives []; an object body gives its first truthy wrapper array, or [] when every wrapper is falsy; the result is not a list exactly when the first truthy wrapper is a non-array |
| `Menu.EmptyFoodsShadowsData` | src/user/pages/pasindu/restaurent/RestaurentDetails.js:56-61 | an empty `foods` array is truthy and ends the fallback chain, hiding `data` and `items` |
| `Menu.NormalizedListComesFromBody` | src/user/pages/pasindu/restaurent/RestaurentDetails.js:56-61 | a non-empty normalised list is the body itself or its first truthy wrapper field |
| `Menu.CategoryKey` | src/user/pages/pasindu/restaurent/RestaurentDetails.js:67 | a missing or empty category gets the key "Uncategorized"; that a key is never padded is `Js.TrimEdges` |
| `Menu.Grouped` | src/user/pages/pasindu/restaurent/RestaurentDetails.js:66-71 | the fold the `reduce` performs never holds an empty group; its meaning is given by `GroupedIsFilter` and the grouping lemmas below |
| `Menu.GroupedIsFilter` | src/user/pages/pasindu/restaurent/RestaurentDetails.js:66-71 | the groups the `reduce` builds are exactly the keys that occur, each holding the foods of that key in menu order |
| `Menu.GroupByCategory` | src/user/pages/pasindu/restaurent/RestaurentDetails.js:66-71 | the accumulating loop returns the grouping: keys are the categories present, each mapped to its foods in order |
| `Menu.GroupingPlacesEachFoodOnce` | src/user/pages/pasindu/restaurent/RestaurentDetails.js:66-71 | every food is in the group of its own key and in no other group |
| `Menu.GroupKeepsOrder` | src/user/pages/pasindu/restaurent/RestaurentDetails.js:68-69 | each group is an order-preserving sub-list of the menu |
| `Menu.GroupSizesSumToLength` | src/user/pages/pasindu/restaurent/RestaurentDetails.js:66-71 | summing the group sizes over the keys, each listed once, gives the menu length |
| `Menu.MissingCategoryIsUncategorized` | src/user/pages/pasindu/restaurent/RestaurentDetails.js:67 | a missing or empty category is keyed "Uncategorized" |
| `Menu.BlankCategoryIsEmptyKey` | src/user/pages/pasindu/restaurent/RestaurentDetails.js:67 | a whitespace-only category is keyed "" |
| `Menu.GroupingExample` | src/user/pages/pasindu/restaurent/RestaurentDetails.js:66-71 | `[Pizza, "", Pizza]` groups to `{"Pizza": [item0, item2], "Uncategorized": [item1]}` |
| `Menu.MenuFilterAsWritten` | src/user/pages/pasindu/restaurent/RestaurentDetails.js:346-353 | keeps exactly the foods whose raw category equals the chip (or chip "All") and whose name contains the query, ignoring case |
| `Menu.UncategorizedChipEmptyAsWritten` | src/user/pages/pasindu/restaurent/RestaurentDetails.js:346-353 | a food without a category is grouped under "Uncategorized" but the filter as written shows nothing under that chip |
| `Menu.MenuFilter` | src/user/pages/pasindu/restaurent/RestaurentDetails.js:346-353 | corrected filter: keeps exactly the foods whose trimmed key equals the chip (or chip "All") and whose name matches |
| `Menu.AllChipShowsMenu` | src/user/pages/pasindu/restaurent/RestaurentDetails.js:346-353 | with an empty query the "All" chip shows the whole menu in order |
| `Menu.ChipShowsItsGroup` | src/user/pages/pasindu/restaurent/RestaurentDetails.js:321-353 | with an empty query, the corrected filter shows under each chip exactly that chip's group |
| `Menu.MenuFilterKeepsOrder` | src/user/pages/pasindu/restaurent/RestaurentDetails.js:346-353 | the shown foods are an ordered sub-list of the menu |
| `Cart.EffectivePrice` | src/user/pages/pasindu/restaurent/RestaurentDetails.js:108-109 | a Large line costs 3/2 of the base price; every other portion costs the base |
| `Cart.PriceByPortion` | src/user/pages/pasindu/restaurent/RestaurentDetails.js:108-109 | a Large price is 3/2 of the Medium one; every other portion pays the base; an unparsable price is 0 |
| `Cart.QuantityFor` | src/user/pages/pasindu/restaurent/RestaurentDetails.js:106 | the quantity is the selected one, or 1 when none (or 0) is selected |
| `Cart.PortionFor` | src/user/pages/pasindu/restaurent/RestaurentDetails.js:107 | the portion is the selected one, or "Medium" when none (or "") is selected |
| `Cart.NewLine` | src/user/pages/pasindu/restaurent/RestaurentDetails.js:123-133 | a new line carries the food, quantity, portion, derived price, current restaurant and order type |
| `Cart.FindLine` | src/user/pages/pasindu/restaurent/RestaurentDetails.js:114-116 | returns -1 exactly when no line has this food id and portion, else the first such line |
| `Cart.AddItem` | src/user/pages/pasindu/restaurent/RestaurentDetails.js:113-134 | on a match the cart keeps its length, only the first matching line's quantity grows, and its price is kept; otherwise exactly one new line is appended at the end; either way the cart then holds a line for this food and portion |
| `Cart.AddItemKeepsInvariant` | src/user/pages/pasindu/restaurent/RestaurentDetails.js:113-134 | merging or appending into a same-restaurant cart keeps one restaurant and no repeated (id, portion) line |
| `Cart.RepeatedAddMerges` | src/user/pages/pasindu/restaurent/RestaurentDetails.js:113-134 | two adds of the same food id and portion yield one line with quantity q1+q2 that keeps the first add's snapshot and price, whatever the second snapshot's price |
| `Cart.AddToCart` | src/user/pages/pasindu/restaurent/RestaurentDetails.js:95-172 | the checks run in the source's order: no order type, then unavailable, then conflict; only a completed add changes the cart, and it then holds a line for the food and its chosen portion. The lemma rows that follow give the rest of its meaning |
| `Cart.RejectedAddChangesNothing` | src/user/pages/pasindu/restaurent/RestaurentDetails.js:96-104 | with no order type, or an unavailable item, the cart is unchanged and the outcome is the matching warning |
| `Cart.MissingAvailabilityIsAvailable` | src/user/pages/pasindu/restaurent/RestaurentDetails.js:101 | an item without `availability` is never rejected as unavailable |
| `Cart.CompletedAddIsAddItem` | src/user/pages/pasindu/restaurent/RestaurentDetails.js:106-138 | with an order type, an available item and no conflict, the add is `addItemToCart` on the stored cart with the selected quantity and portion |
| `Cart.ConflictResolution` | src/user/pages/pasindu/restaurent/RestaurentDetails.js:140-168 | on a conflict, confirming leaves exactly the new line; declining leaves the cart as it was |
| `Cart.ConfirmationOnlyOnConflict` | src/user/pages/pasindu/restaurent/RestaurentDetails.js:140 | without a conflict the dialog's answer has no effect |
| `Cart.AddToCartKeepsInvariant` | src/user/pages/pasindu/restaurent/RestaurentDetails.js:95-172 | every outcome of an add keeps one restaurant and no repeated line; a completed add leaves the current restaurant in the cart |
| `Cart.AddScenario` | src/user/pages/pasindu/restaurent/RestaurentDetails.js:95-172 | empty cart, add f1 Medium at 200, then add f1 again with quantity 2 while it is listed at 250: one line of quantity 3 at price 200 |
| `Cart.ChangedQuantities` | src/user/pages/pasindu/restaurent/RestaurentDetails.js:88-93 | the entry becomes max(1, (current or 1) + increment), so never below 1; other entries are unchanged |
| `Cart.QuantityStepsUndo` | src/user/pages/pasindu/restaurent/RestaurentDetails.js:88-93 | a step down that stays above the floor is undone by the same step up |
| `Cart.QuantityFloor` | src/user/pages/pasindu/restaurent/RestaurentDetails.js:88-93 | after any change, the quantity an add uses is at least 1 |
| `Cart.MenuPage.constructor` | src/user/pages/pasindu/restaurent/RestaurentDetails.js:37-40 | the page state and the stored slot start as the persisted cart, or empty when there is none |
| `Cart.MenuPage.SelectOrderType` | src/user/pages/pasindu/restaurent/RestaurentDetails.js:273-281 | sets the order type and nothing else |
| `Cart.MenuPage.SelectPortion` | src/user/pages/pasindu/restaurent/RestaurentDetails.js:394-416 | sets one food's portion and nothing else |
| `Cart.MenuPage.ChangeQuantity` | src/user/pages/pasindu/restaurent/RestaurentDetails.js:88-93 | updates the quantities as `ChangedQuantities` says and nothing else |
| `Cart.MenuPage.HandleAddToCart` | src/user/pages/pasindu/restaurent/RestaurentDetails.js:95-172 | the persisted cart and the outcome are those of `AddToCart`; a completed add also sets the page's cart; a rejected or cancelled add changes nothing; the cart invariant is preserved |
| `Restaurants.ListOrEmpty` | src/admin/pages/pamaa/restaurent/RestaurantList.js:55-56 | a non-array response yields the empty list |
| `AdminRestaurants.FilterRestaurants` | src/admin/pages/pamaa/restaurent/RestaurantList.js:23-36 | keeps exactly the restaurants passing both the search step and the status step |
| `AdminRestaurants.FilterIsConjunction` | src/admin/pages/pamaa/restaurent/RestaurantList.js:24-35 | the filter chain equals one filter by the conjunction of both steps |
| `AdminRestaurants.FiltersCommute` | src/admin/pages/pamaa/restaurent/RestaurantList.js:24-35 | applying the status step before the search step gives the same list |
| `AdminRestaurants.FilterKeepsOrder` | src/admin/pages/pamaa/restaurent/RestaurantList.js:24-35 | the shown list is an ordered sub-list of the fetched one |
| `AdminRestaurants.NonBooleanStatusOnlyUnderAll` | src/admin/pages/pamaa/restaurent/RestaurantList.js:31-34 | a record whose `isEnabled` is absent or not a boolean passes the status step only under "all" |
| `AdminRestaurants.StatusSelects` | src/admin/pages/pamaa/restaurent/RestaurantList.js:31-34 | "enabled" keeps exactly strict `true`; any other value except "all" keeps exactly strict `false` |
| `AdminRestaurants.StartFetch` | src/admin/pages/pamaa/restaurent/RestaurantList.js:41-47 | a request is issued exactly when a non-empty user id is stored; otherwise the login error is set |
| `AdminRestaurants.FetchRestaurants` | src/admin/pages/pamaa/restaurent/RestaurantList.js:38-69 | a reply sets both lists to the array, or [] for a non-array; a failure keeps the lists and sets the server message or "Failed to load restaurants" |
| `AdminRestaurants.FetchedListSettles` | src/admin/pages/pamaa/restaurent/RestaurantList.js:23-36 | after a fetch, the list the filter effect settles to is an ordered sub-list of what lines 55-56 showed, and the same list when no filter is set |
| `AdminRestaurants.ToggleAction` | src/admin/pages/pamaa/restaurent/RestaurantList.js:72 | the action word is "disable" exactly when `isEnabled` is truthy, else "enable" |
| `AdminRestaurants.ToggleRequest` | src/admin/pages/pamaa/restaurent/RestaurantList.js:85-93 | a patch is sent exactly when confirmed, carrying the negated truthiness of `isEnabled` |
| `AdminRestaurants.ToggleActionMatchesPatch` | src/admin/pages/pamaa/restaurent/RestaurantList.js:72-92 | "disable" sends `false` and "enable" sends `true` |
| `AdminRestaurants.ToggleMovesBetweenViews` | src/admin/pages/pamaa/restaurent/RestaurantList.js:31-34 | once patched, a restaurant with a boolean flag moves between the "enabled" and "disabled" views |
| `UserRestaurants.EnabledRestaurants` | src/user/pages/pasindu/restaurent/RestaurentList.js:22-24 | keeps exactly the restaurants of an array response whose `isEnabled` is truthy; [] for a non-array |
| `UserRestaurants.Displayed` | src/user/pages/pasindu/restaurent/RestaurentList.js:35-37 | keeps exactly the enabled restaurants whose name contains the query, ignoring case |
| `UserRestaurants.EmptyQueryShowsAll` | src/user/pages/pasindu/restaurent/RestaurentList.js:35-37 | an empty query shows every enabled restaurant |
| `UserRestaurants.DisplayChain` | src/user/pages/pasindu/restaurent/RestaurentList.js:22-37 | displayed is an ordered sub-list of enabled, which is one of the response, and displayed is the response filtered once by both tests |
| `UserRestaurants.TruthyNotStrict` | src/user/pages/pasindu/restaurent/RestaurentList.js:23 | a numeric flag 1 is shown to customers but is not kept by the manager's "enabled" filter |
| `Login.Normalize` | src/user/pages/tharusha/LoginPage.js:29-31 | the normalised role is always lower case |
| `Login.TokenFallback` | src/user/pages/tharusha/LoginPage.js:29 | the token is the first present of `token`, `accessToken`, `jwt` |
| `Login.RoleFallback` | src/user/pages/tharusha/LoginPage.js:30 | the role is the lower-cased `role` when present (even ""), else the lower-cased `user.role`, else "" |
| `Login.UserIdFallback` | src/user/pages/tharusha/LoginPage.js:31 | the user id is `userId` when present, else `user._id`, else `user.id` |
| `Login.RouteFor` | src/user/pages/tharusha/LoginPage.js:42-48 | "admin" routes to /admindashboard, "restaurant_manager" or "manager" to /managers, everything else (including "") to / |
| `Login.RoutingIgnoresCase` | src/user/pages/tharusha/LoginPage.js:30 | replacing the role by its lower-case form leaves the normalised role, and so the route, unchanged |
| `Login.UpperCaseAdmin` | src/user/pages/tharusha/LoginPage.js:30-43 | a role of "ADMIN" routes to /admindashboard |
| `Login.ErrorMessage` | src/user/pages/tharusha/LoginPage.js:56-61 | the server's message if non-empty, else the timeout text for ECONNABORTED, else the invalid-credentials text |
| `Login.SessionWrites` | src/user/pages/tharusha/LoginPage.js:35-37 | `token` is always written, `role` exactly when non-empty, `userId` exactly when truthy, and no other key |
| `Login.Submit` | src/user/pages/tharusha/LoginPage.js:18-65 | a rejected POST shows its error text; login succeeds exactly when the reply carries a non-empty token; a success writes that token and routes to one of the three pages. The lemma rows that follow give the rest of its meaning |
| `Login.NoTokenFails` | src/user/pages/tharusha/LoginPage.js:33 | a missing or empty token fails with the invalid-credentials text and writes nothing |
| `Login.SuccessWritesSession` | src/user/pages/tharusha/LoginPage.js:33-48 | login succeeds exactly when a non-empty token arrives; then the writes are exactly the session writes (token always, role when non-empty, user id when truthy) and the route follows the role |
| `Login.WritesInOrder` | src/user/pages/tharusha/LoginPage.js:35-37 | the three conditional `setItem` calls in order add exactly the session writes |
| `Login.LoginPage.constructor` | src/user/pages/tharusha/LoginPage.js:7-10 | the form starts with empty email and password, and no error or success text |
| `Login.LoginPage.HandleChange` | src/user/pages/tharusha/LoginPage.js:13-16 | editing a field sets only that field and clears the error |
| `Login.LoginPage.HandleSubmit` | src/user/pages/tharusha/LoginPage.js:18-65 | on success storage gains exactly the session writes and the route is returned; on failure storage is untouched and the error text is set |

## Findings

| source | as written | input that shows it | evidently intended | confidence | as-written member | corrected member |
|---|---|---|---|---|---|---|
| src/user/pages/pasindu/restaurent/RestaurentDetails.js:349 | the chip filter compares the raw `food.category` with the chip | a food with no category (or " Pizza ") is grouped under "Uncategorized" (or "Pizza"), but selecting that chip shows nothing | a chip shows the foods of its group, compared by the same trimmed key the chips are built from (line 67) | medium, not executed | `Menu.UncategorizedChipEmptyAsWritten` | `Menu.ChipShowsItsGroup` |

## Left out

- Rendering, styling, animations, toasts and the SweetAlert dialogs. A dialog
  is reduced to its boolean answer (`confirmed`).
- Network calls through the axios instance: the GET, PATCH and POST requests,
  timeouts, `Promise.all` and the scheduling of React state updates. Replies
  are given as inputs (`Reply`, `PostOutcome`, `FoodsBody`, `ListBody`).
- src/api.js is not part of this model. Its interceptor attaches a bearer
  token when one is stored.
- src/user/pages/tharusha/MyProfilePage.js is not part of this model. It is
  profile requests and form binding.
- JSON serialisation of the cart. The persisted slot is a `seq<Line>` field,
  and an absent slot reads as the empty cart.
- `parseFloat` and floating point. Prices are exact `real`s, and a price that
  does not parse is given as `None` (base 0). `toFixed(2)` display
  formatting is not modelled.
- AdminRestaurants.FetchRestaurants: states `shown` as lines 55-56 write it.
  The filter effect (lines 23-36) then replaces it with the filtered list.
  The model does not sequence the two; `FetchedListSettles` relates them.
- Js.ToLower: lower-cases the ASCII letters only. `toLowerCase` also maps
  other Unicode letters.
- Js.Truthy: a `NaN` flag is not represented.
- Menu.Food: `category` and `availability` are strings or absent. A truthy
  non-string `availability` is rejected by line 101 of RestaurentDetails.js,
  and a non-string `category` makes `.trim()` throw at line 67. Neither case
  is modelled.
- Login.Normalize: models string-valued response fields only. The
  `String(...)` coercion of a numeric or boolean role, and the storage of
  non-string ids, are not modelled.
- Menu.NormalizeFoods: when the chosen value is a truthy non-array, the page
  stores it as `foods` and the category `reduce` throws. The model stops at
  `NotAList` and does not model that broken state.
- Category names that are `Object.prototype` members ("constructor",
  "toString", "__proto__", ...) make the `reduce` throw, because `acc[key]`
  is inherited and truthy. The model treats them as ordinary keys.
- The order of the category chips (`Object.keys` order) is not modelled. The
  grouping is a map.
- After a confirmed toggle the manager's page refetches its list. That is
  `FetchRestaurants` again, so it is not modelled separately. The success and
  failure dialogs of the PATCH are not modelled either.
- The restaurant detail fetch and the `reservationId` route state are not
  modelled. Neither are the `loading` flags beyond `isLoading` on the login
  page, or the page's `cart` state being changed by the cart sidebar.
