# Bookstore storefront: cart, session, checkout and password reset

A Dafny model of the client-side logic of a manga/comic storefront. Checkout is
a three-step wizard. The storefront keeps a shopping cart and a login session in
the browser's local storage, and the other pages read both. The model covers
four pieces of that logic:

- **Cart store** (`Cart`, `cart.dfy`). The ordered list of line items keyed by
  product id, with add, remove, increase, decrease and clear. The model also
  has the derived `totalItems` and `totalPrice`, and the provider's `cartItems`
  and `isClient` state. The provider saves to the storage key `cartItems`, but
  only after hydration.
- **Session store** (`Auth`, `auth.dfy`). `user`, `token`, `isLoading` and
  `isClient`, with the load-once effect and the persist effect over the keys
  `userToken` and `userInfo`, plus `login`, `logout` and `isAuthenticated`.
- **Checkout wizard** (`Checkout`, `checkout.dfy`):
  - the form state and the validators that guard `handleNextStep`: required
    shipping fields, the expiry, CVV and M-Pesa patterns, and the PayPal
    refusal;
  - the step transition system. Each step renders only its own controls: the
    shipping inputs on step 1, the payment inputs on step 2, Next on steps 1
    and 2, Previous on steps 2 and 3, and Place Order on step 3;
  - the empty-cart redirect condition;
  - `handlePlaceOrder`, with its guards, the order and STK-push requests it
    builds, and the success flag set before the cart is cleared.
- **Password reset** (`ResetPassword`, `reset_password.dfy`):
  - the token taken from the query string;
  - the password policy pattern, modelled character by character and proved
    equal to the stated policy;
  - the ordered chain of checks in `handleSubmit` (mismatch, policy, token),
    and its request and notices.

Shared modules:

- `wrappers.dfy`: `Option`.
- `chars.dfy`: digits and letters.
- `storage.dfy`: a stored value is either the serialisation of a value or some
  other text. `JSON.parse` recovers the former and fails on the latter. JS
  truthiness of a stored string is `Truthy` or `Present`.
- `http.dfy`: a request is a URL, a bearer token and a body. A reply either
  arrives or throws one of axios' three error shapes.

Modelling conventions:

- **Prices are integer cents.** Quantities are `int`, because a cart read
  back from storage may hold any number. "Every quantity is at least 1" is
  therefore an invariant (`Cart.WellFormed`) that the updaters are proved to
  keep.
- **Mutators include their persist effect.** A store mutator is modelled as
  the state update plus the persist effect that the change triggers.
- **Mounting runs three effects.** In the first commit the load effect runs
  and schedules its updates. The same commit's persist effect then sees
  `isClient` false and writes nothing. The model runs that no-op first, which
  is equivalent. The persist effect of the next commit runs on the loaded
  state.
- **Replies are inputs.** Each HTTP reply is an input to the handler, and the
  handler returns the requests it would have sent.

Where the code's behaviour differs from what its messages and names suggest, the model follows the code:

- The cart's load effect calls `JSON.parse` without a guard. Unparseable
  stored text throws out of the effect before `isClient` is set. After that
  the cart never saves (`Cart.CartStore.LoadEffect`, `crashed`).
- `isAuthenticated` is `!!user && !!token`, not a null check, so an empty
  token is not authenticated. `Auth.AuthStore.IsAuthenticated` follows this.
- An order is complete only when every awaited request returns:
  - After the order is created, an M-Pesa push that *throws* lands in the
    catch block. The order-placed flag is not set and the cart is kept.
  - A push that answers with a `ResponseCode` other than `'0'` still completes
    the order.
  - A created-order reply without `order` makes `createdOrder.order._id`
    throw. For M-Pesa that happens before the push (page.js:273), so nothing
    changes. For a card or COD order it happens after the flag is set and the
    cart cleared (page.js:315-323), so both stay done while the catch block
    shows "Operation failed: …".
- The M-Pesa pattern `254(?:7|10|11)\d{8}` accepts 13-digit numbers with the
  prefix `25410` or `25411`, although the message says 12 digits. It rejects
  `254101234567`, the 12-digit `25410` example in the `title` attribute of the
  M-Pesa `<input>` (app/checkout/page.js:573).
  `Checkout.MpesaAcceptedShape` and `Checkout.MpesaExamples` state this.

## Model

| member | source | states |
|---|---|---|
| Cart.IncrementPresent | app/context/CartContext.js:68-74 | with unique ids, increasing an id in the cart adds exactly 1 to that item; length, id order and every other item are unchanged; totalItems grows by 1 and totalPrice by the item's price |
| Cart.IncrementAbsent | app/context/CartContext.js:68-74 | increasing an id not in the cart leaves the cart unchanged |
| Cart.AddPresent | app/context/CartContext.js:49-54 | adding a product already in the cart adds exactly 1 to that item; length, id order and every other item are unchanged; totals grow by one unit of that item |
| Cart.AddAbsent | app/context/CartContext.js:55-57 | adding a new product appends one item with quantity 1 after the unchanged existing items; totals grow by 1 and by the product's price |
| Cart.AddKeepsWellFormed | app/context/CartContext.js:47-58 | adding keeps at most one item per id and all quantities at least 1, and the product's id is then in the cart |
| Cart.AddTimesCount | app/context/CartContext.js:47-58 | adding one new product n times appends a single item of quantity n, keeps the earlier items and ids unique, and adds n to totalItems |
| Cart.RepeatedAddFromEmpty | app/context/CartContext.js:47-58 | n additions of one product to an empty cart give exactly one line item of quantity n, and totalItems is n |
| Cart.RemoveIdConcat | app/context/CartContext.js:63-65 | the remove filter distributes over concatenation, so the surviving items keep their order |
| Cart.RemoveAbsent | app/context/CartContext.js:63-65 | removing an id that is not in the cart is a no-op |
| Cart.RemoveMembers | app/context/CartContext.js:63-65 | after removal no item has the id, and an item is kept exactly when it was in the cart with another id |
| Cart.RemovePresent | app/context/CartContext.js:63-65 | with unique ids, removing the id at position k yields the cart without position k, in the original order; the totals drop by that item's quantity and subtotal |
| Cart.RemoveKeepsWellFormed | app/context/CartContext.js:63-65 | removal keeps ids unique and quantities at least 1 |
| Cart.KeepPositiveSpec | app/context/CartContext.js:81 | the quantity filter keeps exactly the items with positive quantity, and keeps everything when all quantities are at least 1 |
| Cart.DecreaseNeverBelowOne | app/context/CartContext.js:77-83 | on any cart, decreasing leaves no quantity below 1 |
| Cart.DecreaseOnPositive | app/context/CartContext.js:77-83 | when all quantities are at least 1, decreasing keeps length and id order, lowers the matching item by 1 unless it is at 1, and leaves the others unchanged |
| Cart.DecreaseIsLower | app/context/CartContext.js:79-81 | when all quantities are at least 1, the filter after the Math.max map removes nothing |
| Cart.DecreasePresent | app/context/CartContext.js:77-83 | on a well-formed cart, decreasing an item keeps the cart well formed; an item at quantity 1 stays and the cart is unchanged; otherwise the totals drop by one unit of that item |
| Cart.DecreaseAbsent | app/context/CartContext.js:77-83 | decreasing an id that is not in a positive cart is a no-op |
| Cart.UpdatersKeepWellFormed | app/context/CartContext.js:47-88 | add, remove, increase, decrease and clear each keep at most one item per id with quantities at least 1 |
| Cart.TotalsAppend | app/context/CartContext.js:91-92 | totalItems and totalPrice of a concatenation are the sums of the parts' totals |
| Cart.TotalsPointUpdate | app/context/CartContext.js:91-92 | carts that differ only at one position have totals that differ only by that position's quantity and subtotal |
| Cart.TotalsExample | app/context/CartContext.js:91-92 | two items at 10.00 and one at 5.00 give totalItems 3 and totalPrice 25.00 |
| Cart.CartStore.constructor | app/context/CartContext.js:22-25 | the provider starts with an empty cart and isClient false, and storage is left as found |
| Cart.CartStore.LoadEffect | app/context/CartContext.js:28-36 | with a window and a truthy slot, the cart becomes the parsed list; unparseable text throws before isClient is set, and the cart is unchanged; otherwise isClient becomes true when a window exists |
| Cart.CartStore.SaveEffect | app/context/CartContext.js:39-44 | the slot is written with the whole list exactly when isClient holds and a window exists; otherwise storage is untouched |
| Cart.CartStore.Mount | app/context/CartContext.js:28-44 | mounting crashes exactly on a truthy unparseable slot, and then nothing is written; otherwise a stored list is loaded and written back unchanged; without a window nothing is read or written; afterwards storage mirrors the cart once hydrated |
| Cart.CartStore.AddToCart | app/context/CartContext.js:47-58 | the cart becomes the addToCart transform of the old cart; the slot holds the whole new list once hydrated and is untouched before |
| Cart.CartStore.RemoveFromCart | app/context/CartContext.js:63-65 | the cart becomes the old cart without that id; saved only once hydrated |
| Cart.CartStore.IncreaseQuantity | app/context/CartContext.js:68-74 | the cart becomes the incremented old cart; saved only once hydrated |
| Cart.CartStore.DecreaseQuantity | app/context/CartContext.js:77-83 | the cart becomes the decreased and filtered old cart; saved only once hydrated |
| Cart.CartStore.ClearCart | app/context/CartContext.js:86-88 | the cart becomes empty with both totals 0; saved only once hydrated |
| Cart.ReloadRestoresCart | app/context/CartContext.js:28-58 | mounting, adding a product and mounting a fresh provider over the same storage restores exactly that one-item cart, without a crash |
| Auth.AuthStore.constructor | app/context/AuthContext.js:20-23 | the session starts empty, loading, not hydrated and not authenticated, with storage as found |
| Auth.AuthStore.LoadEffect | app/context/AuthContext.js:28-50 | with a window and both keys truthy, a parseable user becomes the session with the stored token; a parse failure removes both keys and clears the session; in every other case the state is unchanged; isLoading ends false, and isClient becomes true when there is a window |
| Auth.AuthStore.PersistEffect | app/context/AuthContext.js:53-64 | once hydrated, storage holds both keys when the session is authenticated and neither key otherwise; before hydration nothing is written |
| Auth.AuthStore.Mount | app/context/AuthContext.js:27-64 | after mounting, loading is over and isClient is set exactly when there is a window; a stored token with a parseable user restores an authenticated session; any other stored state leaves no session, and with a window neither key; with a window, storage never holds just one key |
| Auth.AuthStore.Login | app/context/AuthContext.js:67-90 | token and user take the given values; the session is authenticated exactly when the token is a non-empty string; once hydrated both keys are written, or both removed for an empty token |
| Auth.AuthStore.Logout | app/context/AuthContext.js:93-99 | user and token become null, the session is not authenticated, and once hydrated both keys are removed |
| Auth.ReloadRestoresSession | app/context/AuthContext.js:28-71 | logging in and mounting a fresh store over the same storage restores the same user and token |
| Checkout.CheckNext | app/checkout/page.js:143-191 | Next advances exactly when, on step 1, the required shipping fields are filled and, on step 2, payment is ready; a missing method and PayPal each block with their own reason |
| Checkout.MonthFieldIsMonth | app/checkout/page.js:162 | the month alternative of the expiry pattern accepts exactly two digits that read as 1..12 |
| Checkout.ExpiryAcceptsMonthYear | app/checkout/page.js:162 | every month 01..12 followed by two digits is accepted, with and without the slash |
| Checkout.ExpiryAcceptedIsMonthYear | app/checkout/page.js:162 | every accepted expiry is a month 01..12, an optional slash, then two digits |
| Checkout.ExpiryExamples | app/checkout/page.js:162 | 09/26 and 0926 are accepted; 13/25, 00/25 and 9/26 are rejected |
| Checkout.CvvExamples | app/checkout/page.js:166 | 3 and 4 digits are accepted; 2 or 5 digits and a non-digit are rejected |
| Checkout.MpesaAcceptedShape | app/checkout/page.js:178-179 | every accepted number is all digits: 12 long with prefix 2547, or 13 long with prefix 25410 or 25411 |
| Checkout.MpesaAcceptsPrefixes | app/checkout/page.js:178 | each of 2547, 25410 and 25411 followed by exactly eight digits is accepted |
| Checkout.MpesaExamples | app/checkout/page.js:178-179 | 254712345678 and 2541012345678 are accepted; a short number and 254101234567 are rejected |
| Checkout.StepKeepsInvariant | app/checkout/page.js:143-195 | every input or click on a rendered control keeps the wizard invariant: the step stays in 1..3, the shipping on record is complete past step 1, and the payment on record is ready on step 3 |
| Checkout.ReplayInvariant | app/checkout/page.js:143-195 | any sequence of inputs and clicks from a state that meets the wizard invariant ends in a state that meets it |
| Checkout.ReviewStepIsValidated | app/checkout/page.js:143-195 | whatever the user does from the empty form, the review step holds complete shipping and a method other than none or PayPal, with an expiry and a CVV that match their patterns for a card and a number that matches the M-Pesa pattern for M-Pesa |
| Checkout.LinesTotalOfCart | app/checkout/page.js:239-247 | the sum of price times quantity over the order lines equals the cart's totalPrice |
| Checkout.BuildOrderFaithful | app/checkout/page.js:238-250 | the order has the cart's lines in order, with productId, name, quantity and price from each item; its totalAmount is totalPrice and matches its own lines; card details are sent exactly for a card payment |
| Checkout.ReviewGuard | app/checkout/page.js:201-232 | on the review step of a reachable state, handlePlaceOrder's guards let the order out exactly when the cart is non-empty and the token is truthy; the PayPal and M-Pesa refusals cannot fire there |
| Checkout.PlaceGuardBlocks | app/checkout/page.js:201-232 | the order goes out exactly when the cart is non-empty, the token is truthy, the method is not PayPal, and an M-Pesa number is present and valid; an empty cart is refused first |
| Checkout.FailureNoticeExample | app/checkout/page.js:332-334 | a server error shows its message, or "Server error" when the message is empty |
| Checkout.CheckoutPage.constructor | app/checkout/page.js:18-39 | the wizard starts on step 1 with an empty form and the order-placed flag false, a state that meets the wizard invariant |
| Checkout.CheckoutPage.EditShipping | app/checkout/page.js:377-449 | on step 1, where the shipping inputs are rendered, they replace the shipping info and nothing else; the wizard invariant is kept |
| Checkout.CheckoutPage.EditPayment | app/checkout/page.js:467-591 | on step 2, where the payment inputs are rendered, they replace the method, card details and M-Pesa number and not the shipping; the wizard invariant is kept |
| Checkout.CheckoutPage.HandleNextStep | app/checkout/page.js:143-191 | from a rendered Next button (steps 1 and 2), the step grows by exactly 1 when the checks pass and is unchanged otherwise; the returned check is the step's decision; the wizard invariant is kept |
| Checkout.CheckoutPage.HandlePreviousStep | app/checkout/page.js:193-195 | from a rendered Previous button (steps 2 and 3), the step drops by exactly 1 and the wizard invariant is kept |
| Checkout.CheckoutPage.PlaceOrder | app/checkout/page.js:198-343 | on the review step of a reachable state (Place Order is rendered only there); a guard refuses with its reason and sends nothing; otherwise the order request has the cart's lines, the bearer token and the orders URL; an M-Pesa push goes out once the order reply carries an id. The order is placed exactly when every awaited reply arrives and the reply carries an id, whatever the push's ResponseCode. The flag is set and the cart emptied exactly when every awaited reply arrived, and for M-Pesa the id was read; a card or COD reply without `order` still commits both, then fails. When the flag and cart change, the flag is set first, so the redirect condition is false after each update. A failure shows the catch block's toast; in the uncommitted cases flag, cart and storage are unchanged. Every order sent carries complete shipping, a method other than none or PayPal, and, for a card, an expiry and a CVV that match their patterns |
| ResetPassword.LookaheadOverAlphabet | app/auth/reset-password/page.js:57 | on a password within the pattern's alphabet, each lookahead holds exactly when the password contains a character of its class |
| ResetPassword.RegexIsPolicy | app/auth/reset-password/page.js:57-60 | the password pattern accepts exactly the passwords of at least 8 characters, over letters, digits and !@#$%^&*()_+, with a lowercase letter, an uppercase letter, a digit and a special character |
| ResetPassword.PolicyAcceptsExample | app/auth/reset-password/page.js:57 | Passw0rd! satisfies the policy |
| ResetPassword.PolicyRejectsExamples | app/auth/reset-password/page.js:57 | no special character, fewer than 8 characters, or a character outside the alphabet each fail the policy |
| ResetPassword.Validate | app/auth/reset-password/page.js:50-70 | a mismatch is rejected first; a mismatch-free password outside the policy is rejected next; an empty token only after both pass; nothing is rejected exactly when all three hold |
| ResetPassword.ResetPasswordForm.constructor | app/auth/reset-password/page.js:14-17 | the form starts with empty password, confirmation and token, not loading |
| ResetPassword.ResetPasswordForm.ReadToken | app/auth/reset-password/page.js:25-34 | a truthy query token becomes the token; otherwise the token is unchanged and the page redirects |
| ResetPassword.ResetPasswordForm.Edit | app/auth/reset-password/page.js:119-151 | the two inputs' handlers set password and confirmation |
| ResetPassword.ResetPasswordForm.HandleSubmit | app/auth/reset-password/page.js:46-98 | loading ends false. A rejection sends nothing. The PUT to backendUrl/users/reset-password/token with the password goes out exactly when validation passes and the backend URL is set; a missing URL shows the generic error. A reply shows its message or the default success text; a thrown error shows "Error: " and the server's message, or the generic error |

## Left out

- Rendering, JSX, styling and the loading and empty-cart screens of the checkout page: presentation only.
- The PayPal SDK integration (app/checkout/page.js:51-140): callbacks of a foreign script. The model only captures that Next and Place Order refuse PayPal.
- HTTP I/O: each reply is an input to the handler, and the handlers return the requests they would send. Request headers other than the bearer token are not modelled.
- Toasts, router navigation, `router.refresh`, `setTimeout` delays and `console` logging: side effects with no state in the model. The handlers' notices stand in for the toasts, and `ReadToken`'s `redirected` stands in for the reset page's redirect to forgot-password.
- Floating-point prices and `toFixed(2)`: prices are integer cents, so rounding is not modelled.
- `JSON.parse` and `JSON.stringify` are abstract: text either is the serialisation of a value or does not parse. Text that parses to a value of another shape (for example `"null"` under `userInfo`) is not modelled. `jwtDecode` is not called by the modelled code.
- React's batching and double-invoked effects, and concurrent tabs writing the same storage: the model runs each commit's effects one at a time, with the first commit's no-op persist effect moved before the load effect (equivalent, as it writes nothing).
- The intermediate `loading == true` while the reset request is awaited is not observable in the model, which runs the handler to completion.
- The password visibility toggles of the reset page: display state only.
- The login, register, forgot-password, shop, cart, order and confirmation pages, the navigation bar and the welcome-email route are not part of this model.
- Auth.AuthStore.Valid: the model assumes the session store is the only writer of `userToken` and `userInfo`. In the program, registering writes both keys directly (app/auth/register/page.js:54-61), and the home page's logout removes both directly (app/page.js:41-47). Until the next reload, storage and the store's state can then disagree: for example, after registering, `logout` changes no state and leaves both keys in storage. The `Login`, `Logout` and `Mount` contracts hold only under this assumption.
- Checkout.CheckoutPage.PlaceOrder: an `order` object without `_id` is not modelled. The source would then use the id `undefined` in the STK push and the confirmation URL. The reply is either an id or no `order` at all.
