# Storefront cart, checkout and payment rules in Dafny

This project models the decision logic of a small e-commerce storefront:

- the **cart** the storefront page keeps: a list of entries, each a product snapshot with a quantity, keyed by product id; the handlers that add a product, set a quantity, remove an entry and clear the cart after an order;
- the **cart panel**: its item count and money total, the badge and the checkout action it shows, and the rules of its minus, plus and remove buttons;
- the **checkout dialog**: the order summary (subtotal, shipping, tax, final total), the partial form record it edits, and the three-step wizard with its guarded forward buttons, unconditional back buttons and submit flag;
- the **payment edge function**: the line items and redirect URLs it builds for the payment provider's checkout-session call, and the total it computes beside them.

Money is modelled as exact `real`s. JavaScript's `Math.round(x)` is `(x + 0.5).Floor`. Quantities are `int`s. The `reduce` folds are left folds: the fold of the list without its last entry, plus that entry.

Modules:

| file | module | source |
|---|---|---|
| wrappers.dfy | `Wrappers` | `Option`, for JavaScript values that may be `undefined`/`null` |
| cart_items.dfy | `CartItems` | `Product`, `CartItem`, the count and total folds |
| cart_store.dfy | `CartStore` | the handlers of `src/pages/Index.tsx` |
| cart_panel.dfy | `CartPanel` | `src/components/Cart.tsx` |
| checkout.dfy | `Checkout` | `src/components/CheckoutForm.tsx` |
| payment.dfy | `Payment` | `supabase/functions/create-payment/index.ts` |

The page's handlers are pure `prev -> next` functions on `seq<CartItem>`, as in the source. The checkout dialog's hook state (`currentStep`, `formData`, `isSubmitting`) is the class `Checkout.CheckoutForm`. Its methods are the button and input events. Its invariant `Valid()` says that the step is 1, 2 or 3, and that the submit flag is up exactly while a submission is pending.

The model follows the code where it departs from the usual checkout design:

- The payment function has no empty-cart check. An empty `items` list still goes to the provider (`Payment.EmptyItemsReachProvider`).
- The payment function does no customer lookup and writes no pending order.
- `updateQuantity` never removes an entry, even at quantity 0. At quantity 1 the panel's minus button removes the entry instead of setting 0. The panel's remove button removes an entry at any quantity.
- `totalAmount` is computed but never sent to the provider. When every price is a whole number of cents, it equals what the line items charge (`Payment.TotalAmountMatchesCharge`). Otherwise it can differ (`Payment.HalfCentPriceDiffers`).

## Model

| member | source | states |
|---|---|---|
| `CartItems.ItemCount` | src/components/Cart.tsx:29 | the item count is at least the number of entries when quantities are positive, and then it is 0 exactly for the empty cart |
| `CartItems.Total` | src/components/Cart.tsx:28 | the total is non-negative when every line amount is |
| `CartItems.ItemCountPermutation` | src/components/Cart.tsx:29 | the item count is the same for any reordering of the entries |
| `CartItems.TotalPermutation` | src/components/Cart.tsx:28 | the total is the same for any reordering of the entries |
| `CartStore.Find` | src/pages/Index.tsx:65 | finds an entry exactly when some entry carries the id, and what it finds is an entry of the cart with that id |
| `CartStore.FindIsFirst` | src/pages/Index.tsx:65 | the lookup returns the first entry carrying the id |
| `CartStore.FindUnique` | src/pages/Index.tsx:65 | with unique ids, the find returns the one entry with the id |
| `CartStore.AddToCart` | src/pages/Index.tsx:63-74 | if the id is present, the length and every product snapshot stay the same, and exactly the entries with that id gain 1; if it is absent, the old entries are kept as a prefix and one entry with quantity 1 is appended |
| `CartStore.AddToCartExisting` | src/pages/Index.tsx:65-71 | with unique ids, adding a product already present changes only that entry, by one unit |
| `CartStore.AddToCartCount` | src/pages/Index.tsx:63-74 | with unique ids, adding raises the item count by exactly 1 |
| `CartStore.AddToCartTotal` | src/pages/Index.tsx:63-74 | with unique ids, adding raises the total by the price of the snapshot already in the cart, or by the product's price when new |
| `CartStore.AddToCartWellFormed` | src/pages/Index.tsx:63-74 | on a well-formed cart, adding keeps ids unique and quantities at least 1 |
| `CartStore.AddTwice` | src/pages/Index.tsx:63-74 | adding the same product twice to an empty cart gives one entry with quantity 2 |
| `CartStore.UpdateQuantity` | src/pages/Index.tsx:82-88 | the length, order and product snapshots are kept; entries with the id get exactly the given quantity (0 included); other entries are untouched |
| `CartStore.UpdateQuantityWellFormed` | src/pages/Index.tsx:82-88 | on a well-formed cart, a quantity of at least 1 keeps it well formed |
| `CartStore.UpdateQuantityCount` | src/pages/Index.tsx:82-88 | with unique ids, the update replaces one entry and moves the count by the difference of the quantities |
| `CartStore.UpdateQuantityAbsent` | src/pages/Index.tsx:82-88 | updating an absent id changes nothing |
| `CartStore.RemoveItem` | src/pages/Index.tsx:90-92 | the result holds exactly the entries whose id differs, is no longer than the cart, and keeps ids unique |
| `CartStore.RemoveItemAppend` | src/pages/Index.tsx:90-92 | removal from a concatenation is the concatenation of the removals, which fixes the order and multiplicity of the result for every cart |
| `CartStore.RemoveItemSingle` | src/pages/Index.tsx:90-92 | a one-entry list keeps its entry exactly when the id differs |
| `CartStore.RemoveAbsent` | src/pages/Index.tsx:90-92 | removing an absent id leaves the cart unchanged |
| `CartStore.RemoveIdempotent` | src/pages/Index.tsx:90-92 | removing twice equals removing once |
| `CartStore.RemoveAt` | src/pages/Index.tsx:90-92 | with unique ids, removal cuts out exactly the entry with the id and keeps the order of the rest |
| `CartStore.RemoveItemWellFormed` | src/pages/Index.tsx:90-92 | on a well-formed cart, removal keeps it well formed |
| `CartStore.RemoveItemTotals` | src/pages/Index.tsx:90-92 | with unique ids, removal lowers the count by the entry's quantity and the total by its line amount |
| `CartStore.PlaceOrder` | src/pages/Index.tsx:99-106 | placing an order leaves an empty cart with count 0 and total 0 |
| `CartStore.CartItemsCount` | src/pages/Index.tsx:108 | with positive quantities, the header count is 0 exactly for the empty cart |
| `CartPanel.View` | src/components/Cart.tsx:40-137 | the checkout action is offered exactly when the cart is non-empty; the badge shows the item count exactly when it is positive; the entry list shows the cart and its total |
| `CartPanel.BadgeIffCheckout` | src/components/Cart.tsx:40-52 | with positive quantities, the badge appears exactly when checkout is offered |
| `CartPanel.MinusButton` | src/components/Cart.tsx:91-95 | above 1 it sets quantity - 1, otherwise it removes the entry; no quantity drops below 1 and ids stay unique |
| `CartPanel.PlusButton` | src/components/Cart.tsx:106 | the length and every product snapshot are kept, entries with the id get quantity + 1, others are untouched, and the cart stays well formed |
| `CartPanel.MinusButtonAt` | src/components/Cart.tsx:91-95 | with unique ids, on the entry at k: one unit less, or that entry is cut out |
| `CartPanel.MinusLowersCount` | src/components/Cart.tsx:91-95 | on a well-formed cart each minus press lowers the item count by 1 |
| `CartPanel.PlusRaisesCount` | src/components/Cart.tsx:106 | with unique ids, each plus press raises the item count by 1 |
| `CartPanel.ApplyWellFormed` | src/components/Cart.tsx:91-114 | on a well-formed cart, every UI action (add, plus, minus, remove) keeps it well formed |
| `CartPanel.RunWellFormed` | src/components/Cart.tsx:91-114 | from a well-formed cart, any sequence of UI actions keeps it well formed |
| `CartPanel.QuantitiesStayPositive` | src/components/Cart.tsx:91-114 | from the empty cart, any sequence of UI actions keeps ids unique and every quantity at least 1 |
| `Checkout.Shipping` | src/components/CheckoutForm.tsx:48 | shipping is 0 exactly when the subtotal is strictly above 100, and 9.99 otherwise |
| `Checkout.OrderSummary` | src/components/CheckoutForm.tsx:47-50 | the subtotal is the cart total, tax is 8% of the subtotal alone, and the final total adds subtotal, shipping and tax |
| `Checkout.FinalTotalFormula` | src/components/CheckoutForm.tsx:48-50 | the final total is 1.08 times the subtotal, plus 9.99 at or below the threshold |
| `Checkout.ThresholdIsStrict` | src/components/CheckoutForm.tsx:48 | a subtotal of exactly 100 pays shipping, and 100.01 does not |
| `Checkout.CrossingThresholdLowersTotal` | src/components/CheckoutForm.tsx:48-50 | a subtotal of 100.00 costs 117.99 in all, more than the 108.0108 a subtotal of 100.01 costs |
| `Checkout.FinalTotalMonotoneOnEachSide` | src/components/CheckoutForm.tsx:48-50 | on one side of the threshold, a larger subtotal never gives a smaller final total |
| `Checkout.WithField` | src/components/CheckoutForm.tsx:52-54 | the edited field holds the new value, the keys grow by that field only, and every other field is unchanged |
| `Checkout.GatesAreFieldSets` | src/components/CheckoutForm.tsx:161-311 | each forward or submit gate holds exactly when every field of its set is non-empty |
| `Checkout.EditOutsideGate` | src/components/CheckoutForm.tsx:161-311 | editing a field outside a gate's set never opens or closes that gate |
| `Checkout.DeliveryNotesNeverGate` | src/components/CheckoutForm.tsx:222-246 | delivery notes gate no step and not the submit |
| `Checkout.ClearingClosesGate` | src/components/CheckoutForm.tsx:161-311 | emptying any required field closes its gate |
| `Checkout.InitialFormOpensNoGate` | src/components/CheckoutForm.tsx:42-44 | the initial form, holding only the card payment method, opens no gate |
| `Checkout.CheckoutForm.constructor` | src/components/CheckoutForm.tsx:41-45 | the dialog starts at step 1 with the card payment method, no submission pending |
| `Checkout.CheckoutForm.HandleInputChange` | src/components/CheckoutForm.tsx:52-54 | the form record becomes the record with one field set; the step and flag are untouched |
| `Checkout.CheckoutForm.ContinueToDelivery` | src/components/CheckoutForm.tsx:161-166 | moves 1 to 2 exactly when on step 1 with email, first name, last name and phone filled; otherwise nothing changes |
| `Checkout.CheckoutForm.ContinueToPayment` | src/components/CheckoutForm.tsx:241-246 | moves 2 to 3 exactly when on step 2 with address, city, state and ZIP code filled; otherwise nothing changes |
| `Checkout.CheckoutForm.Back` | src/components/CheckoutForm.tsx:234-302 | goes back one step from step 2 or 3 without any condition, and the step stays in 1..3 |
| `Checkout.CheckoutForm.BeginSubmit` | src/components/CheckoutForm.tsx:56-58 | a submission starts exactly when on step 3, not submitting, and the card fields are filled; it raises the flag, captures the form record, and disables a second submission |
| `Checkout.CheckoutForm.FinishSubmit` | src/components/CheckoutForm.tsx:59-60 | the pending call hands its captured record to the order callback and lowers the flag |
| `Payment.Round` | supabase/functions/create-payment/index.ts:35 | the rounded value lies in (x - 1/2, x + 1/2], which is rounding to nearest with halves going up |
| `Payment.RoundUnique` | supabase/functions/create-payment/index.ts:35 | that interval determines the rounded value |
| `Payment.UnitAmount` | supabase/functions/create-payment/index.ts:35 | the unit amount is within half a cent of price times 100 |
| `Payment.UnitAmountOfCents` | supabase/functions/create-payment/index.ts:35 | a price with at most two decimals converts to its exact cents |
| `Payment.UnitAmountHalfCentRoundsUp` | supabase/functions/create-payment/index.ts:35 | a price half a cent past a cent value rounds up |
| `Payment.ToLineItem` | supabase/functions/create-payment/index.ts:28-38 | the currency is "usd"; name and quantity are copied; images is the one-element list of the URL only when the URL is truthy; the unit amount is the rounded cents |
| `Payment.LineItems` | supabase/functions/create-payment/index.ts:28-38 | one line item per request item, in the same order |
| `Payment.TotalAmount` | supabase/functions/create-payment/index.ts:20 | the computed total is non-negative whenever every item's price times quantity times 100 is |
| `Payment.TotalAmountMatchesCharge` | supabase/functions/create-payment/index.ts:20-38 | when every price is whole cents, the computed total equals the sum of unit amount times quantity over the line items |
| `Payment.HalfCentPriceDiffers` | supabase/functions/create-payment/index.ts:20-35 | at a price of 0.005 the computed total is 0.5 cents while the line item charges 1 cent |
| `Payment.TotalAmountOfCart` | supabase/functions/create-payment/index.ts:20 | for items built from a cart, the computed total is 100 times the cart total |
| `Payment.WorkedExample` | supabase/functions/create-payment/index.ts:28-38 | 10.00 x 2 and 5.50 x 1 give a cart total of 25.50 and line items of 1000 and 550 cents with quantities 2 and 1 |
| `Payment.OriginText` | supabase/functions/create-payment/index.ts:44-45 | the origin header's value when present, and the text "null" when the header is missing |
| `Payment.SuccessUrl` | supabase/functions/create-payment/index.ts:44 | the success URL is the origin text followed by the success path carrying the session-id placeholder |
| `Payment.CancelUrl` | supabase/functions/create-payment/index.ts:45 | the cancel URL is the origin text followed by the cancel path |
| `Payment.RedirectTargets` | supabase/functions/create-payment/index.ts:44-45 | success and cancel URLs never coincide, and each determines the origin text |
| `Payment.Handle` | supabase/functions/create-payment/index.ts:9-63 | OPTIONS is exactly the pre-flight; a 500 comes exactly from a missing items list; otherwise the session request carries the line items, both URLs and payment mode |
| `Payment.EmptyItemsReachProvider` | supabase/functions/create-payment/index.ts:17-50 | an empty items list is not rejected and reaches the provider with no line items |

## Left out

- JSX rendering, class names, icons, the step-indicator colouring, toasts, and the open/close flags of the cart, checkout dialog and menu. These are presentation only.
- The header, category filter, product card (discount and star display), payment success and payment canceled pages. They are presentation only.
- `sampleProducts` in `src/pages/Index.tsx`. It is data, not logic.
- The provider call that creates the checkout session, and its response or failure. Both belong to the provider's SDK. The model stops at the request parameters.
- The CORS header values and the JSON encoding of responses.
- OTP issuance and verification (`supabase/functions/send-otp/index.ts`, `src/components/OTPVerification.tsx`, `src/components/AuthModal.tsx`). They use randomness, the clock and the auth provider. The verifier itself is not part of this model.
- The receipt function (`supabase/functions/send-receipt/index.ts`). It is a provider read and an unconditional database write with logged errors. The model has no compare-and-swap to state.
- `server.js`. It is a separate payment-intent server outside the storefront's flow.
- The two-second `setTimeout` in `handleSubmit`. It becomes the gap between `BeginSubmit` and `FinishSubmit`.
- React's batched and asynchronous state updates and stale closures. The button handlers read the entry as currently rendered, modelled as the current cart.
- Floating point: prices and totals are exact reals, so IEEE rounding of `price * 100` before `Math.round` and `toFixed(2)` display rounding are not captured.
- Malformed request items (a missing or non-numeric price giving `NaN`). Request items are typed. Only a missing `items` list is modelled as the 500 error.
- The storefront page never calls the payment function: its order handler (src/pages/Index.tsx:99-106) only shows a toast, clears the cart and closes the checkout. `Payment.FromCart` assumes the request carries the cart entries' id, name, price, image URL and quantity.
