# Storefront model

A Dafny model of the logic of a small React/Firebase storefront: the session-backed
shopping cart, the checkout panel, the record normalisers and writes of the Firestore
layer, the catalog's category filter, the product forms, the order-details page, and the
account operations of the authentication context.

The remote side is one abstract class, `Backend.DocumentStore`. It holds three
collections of schemaless documents (`products`, `orders` and `users`), each a map from
document id to document. It also holds the set of principals of the identity service and
a log of the writes that took effect. Every remote call is a single step. Whether it
succeeds is an input to that step, and so are the id the store assigns and the message of
a rejection. UI handlers are methods of classes whose fields are the component's state;
the values a handler reads from outside are its parameters. Prices are integer cents.
JavaScript's `Number(...)` parse is an input of type `Option<int>`, where `None` stands
for NaN. The truthiness of an optional string is `Wrappers.Truthy`.

Modules follow the source files:

- `Cart`: the reducers of `src/store/cartSlice.ts`. This module has the functions that
  specify them, the lemmas about them, and the `CartStore` class that applies them to
  `items` and the session slot.
- `ShoppingCart`: the totals fold, the quantity input and the checkout handler.
- `Firestore`: `normalizeRating`, the product and order normalisers, and the product and
  order writes.
- `Catalog`: the category list, the filter and the selection reset. `src/pages/Products.tsx`
  and `src/pages/Home.tsx` carry the same code, so one model serves both.
- `ProductValidation`: the form validation and payload shared by `ProductManager.tsx` and
  `ProductForm.tsx`. Both files check the fields in the same order and build the same
  trimmed payload (`src/pages/ProductForm.tsx:76-96`).
- `ProductManager`, `ProductForm` and `OrderDetails`: one class each, for the handlers and
  effects of those components.
- `Auth`: the profile mapping, registration, the profile update and account deletion.
- `Text`: ECMAScript `trim` and number rendering.
- `Types`, `Wrappers` and `Backend`: records, options and the store.

Observations from the model:

- A product whose category is the literal string `"all"` gives a category list that holds
  `"all"` twice. `Catalog.CategoriesSpec` shows the entries after the first are distinct;
  the first one may repeat among them, as `Catalog.CategoryAllRepeats` shows.
- The cart restore does not merge entries with the same id (`Cart.RestoreKeepsDuplicates`).
  The reducers keep ids unique only when they start from unique ids, so `CartStore.Valid`
  states only that quantities are positive. After such a restore, `removeFromCart` drops
  every line with the id, but `addToCart` and `updateQuantity` change only the first one.
- `updateProduct` always writes `normalizeRating(input.rating)`. The forms never pass a
  rating, so editing a product resets its stored rating to `{rate: 0, count: 0}`. This is
  `Firestore.UpdateWithoutRatingResetsIt`.
- The order-details effect has no cancellation flag, unlike the product form's. A result
  that arrives after the user or the order id has changed is still applied.
  `OrderDetails.OrderDetailsView.Complete` models that.

## Model

| member | source | states |
|---|---|---|
| `Types.QuantityFrom` | src/store/cartSlice.ts:18 | a parsed quantity is at least 1: a positive number is kept, and NaN, zero or a negative number becomes 1 |
| `Cart.IndexOf` | src/store/cartSlice.ts:48 | `find` by id as a position: the line there has the id, no earlier line does, and there is no position exactly when no line has the id |
| `Cart.AddedMerges` | src/store/cartSlice.ts:47-53 | adding a product already in the cart increases that line's quantity by 1 and changes nothing else, length included; adding a new product appends one line with quantity 1 at the end |
| `Cart.QuantitySetAt` | src/store/cartSlice.ts:60-66 | setting a quantity sets the first line with the id to `max(1, q)` and changes nothing else; an absent id leaves the list as it was |
| `Cart.RemovedMembers` | src/store/cartSlice.ts:57 | after removal a line is present exactly when it was present before and has another id |
| `Cart.RemovedAbsent` | src/store/cartSlice.ts:57 | removing an id that no line has leaves the list unchanged |
| `Cart.RemovedAt` | src/store/cartSlice.ts:56-58 | with unique ids, removing the id of line `k` cuts out exactly that line and keeps the rest in order |
| `Cart.ReducersKeepIdsUnique` | src/store/cartSlice.ts:47-66 | add, remove and set-quantity all keep every id on at most one line |
| `Cart.ReducersKeepQuantitiesPositive` | src/store/cartSlice.ts:47-66 | add, remove and set-quantity all keep every quantity at least 1 |
| `Cart.RepeatedAdds` | src/store/cartSlice.ts:47-53 | adding a new product `n >= 1` times leaves one line for it, at the end, with quantity `n` |
| `Cart.AddedOther` | src/store/cartSlice.ts:47-53 | adding a product with another id leaves the position and the contents of the line for `id` as they were |
| `Cart.AddsCounted` | src/store/cartSlice.ts:47-53 | after any sequence of adds, other products interleaved, on a cart without the id: a line for the id exists exactly when some add had that id, and its quantity is the number of such adds |
| `Cart.SlotFor` | src/store/cartSlice.ts:26-33 | after persisting, the slot is absent exactly when the cart is empty |
| `Cart.RestoreEntries` | src/store/cartSlice.ts:13-19 | the restore never produces more lines than entries, and every restored quantity is at least 1 |
| `Cart.Restore` | src/store/cartSlice.ts:6-24 | a missing, empty, unparsable or non-array slot gives an empty cart, and any restored cart has positive quantities |
| `Cart.RestoreConcat` | src/store/cartSlice.ts:13-19 | the restore treats entries one at a time, in order: restoring `a + b` is restoring `a` followed by restoring `b` |
| `Cart.RestoreWellFormed` | src/store/cartSlice.ts:13-19 | when every entry has a string or number id, none is dropped and entry `i` becomes line `i` |
| `Cart.RestoreDropsMalformed` | src/store/cartSlice.ts:14 | entries that are not objects, or whose id is neither a string nor a number, are all dropped |
| `Cart.RestoreKeepsDuplicates` | src/store/cartSlice.ts:13-19 | the restore does not merge entries: a slot holding the same line twice restores as two lines with the same id |
| `Cart.RestoreAfterPersist` | src/store/cartSlice.ts:6-33 | a cart with positive quantities that is persisted and then restored comes back unchanged |
| `Cart.CartStore.constructor` | src/store/cartSlice.ts:39-41 | the initial items are those restored from the slot found at start-up |
| `Cart.CartStore.Persist` | src/store/cartSlice.ts:26-33 | the slot is removed for an empty cart and otherwise holds exactly the items |
| `Cart.CartStore.AddToCart` | src/store/cartSlice.ts:47-55 | the items become `Added(old items, p)` and the slot mirrors them; quantities stay positive |
| `Cart.CartStore.RemoveFromCart` | src/store/cartSlice.ts:56-59 | the items become `Removed(old items, id)` and the slot mirrors them |
| `Cart.CartStore.UpdateQuantity` | src/store/cartSlice.ts:60-66 | the items become `QuantitySet(old items, id, q)`; the slot is rewritten only when the id is present, and an absent id changes nothing, slot included |
| `Cart.CartStore.ClearCart` | src/store/cartSlice.ts:67-70 | the items are empty and the slot is removed |
| `ShoppingCart.FoldTotals` | src/commponents/ShoppingCart.tsx:19-26 | the reduce adds the sum of quantities and the sum of quantity × price to its accumulator |
| `ShoppingCart.CartTotals` | src/commponents/ShoppingCart.tsx:17-28 | `totalItems` is the sum of the quantities and `totalPrice` the sum of quantity × price |
| `ShoppingCart.TotalItemsCoverLines` | src/commponents/ShoppingCart.tsx:17-28 | with positive quantities, the item total is at least the number of lines |
| `ShoppingCart.AddedTotals` | src/commponents/ShoppingCart.tsx:17-28 | after `addToCart` the item total grows by 1 and the price total by the price of the line that received the unit |
| `ShoppingCart.HandleQuantityChange` | src/commponents/ShoppingCart.tsx:30-33 | the cart sets the line to `Math.max(1, Number(value) \|\| 1)`, which is at least 1; an absent id changes nothing |
| `ShoppingCart.CheckoutPanel.constructor` | src/commponents/ShoppingCart.tsx:13-15 | no message, no error, not submitting |
| `ShoppingCart.CheckoutPanel.HandleCheckout` | src/commponents/ShoppingCart.tsx:35-60 | an empty cart changes nothing; with no user there is a sign-in error, no write and the same cart; otherwise the order is written with the uid, the items and the price total, and only on success is the cart cleared with the success message, while a failure leaves the cart and sets the error; submitting is false after either outcome |
| `Firestore.NormalizeRatingIdempotent` | src/firebase/firestore.ts:26-27 | normalising a normalised rating changes nothing |
| `Firestore.NormalizeProductDefaults` | src/firebase/firestore.ts:42-53 | a product document with no fields reads back with the document id, empty strings, price 0 and the zero rating |
| `Firestore.SnapshotRoundTrip` | src/firebase/firestore.ts:42-80 | a snapshot of documents written from inputs reads back, one product per document in snapshot order, with each input's fields and its normalised rating |
| `Firestore.ProductRoundTrip` | src/firebase/firestore.ts:42-80 | a product written from an input reads back with the input's fields and its normalised rating |
| `Firestore.UpdateWithoutRatingResetsIt` | src/firebase/firestore.ts:73-80 | an update whose input has no rating stores the zero rating |
| `Firestore.CreateProduct` | src/firebase/firestore.ts:63-71 | on success a new document with the input's fields is added under the assigned id, and nothing else changes |
| `Firestore.UpdateProduct` | src/firebase/firestore.ts:73-80 | it succeeds only for an existing document, which then holds the input's fields; on failure nothing changes |
| `Firestore.DeleteProduct` | src/firebase/firestore.ts:82-84 | on success the document is gone, and nothing else changes |
| `Firestore.ItemForWrite` | src/firebase/firestore.ts:94-99 | a written item keeps its id and every other field, has a normalised rating, and has a quantity of at least 1 that equals the line's when that is at least 1 |
| `Firestore.BuildOrderPayload` | src/firebase/firestore.ts:92-106 | the payload has the user id, the written items and the total; email, name and address are present exactly when non-empty |
| `Firestore.CreateOrder` | src/firebase/firestore.ts:86-109 | on success exactly one new order holds that payload and the other orders are untouched; on failure nothing changes |
| `Firestore.ItemRoundTrip` | src/firebase/firestore.ts:94-141 | an item written by `createOrder` reads back exactly as written |
| `Firestore.ItemForWriteIdempotent` | src/firebase/firestore.ts:94-99 | writing an already written item changes nothing |
| `Firestore.ItemForWriteKeepsNormalItems` | src/firebase/firestore.ts:94-99 | a line with a rating and a quantity of at least 1 is written as it is |
| `Firestore.NormalizeOrderDefaults` | src/firebase/firestore.ts:129-145 | an order document with no fields reads back with the queried uid, no user fields, no items and a total of 0 |
| `Firestore.NormalizeOrderKeepsUser` | src/firebase/firestore.ts:131 | a stored user id wins over the queried one |
| `Firestore.OrderRoundTrip` | src/firebase/firestore.ts:92-145 | an order written by `createOrder` reads back with its user, its total, its non-empty user fields and its items as written, in order |
| `Firestore.OrdersSnapshotRoundTrip` | src/firebase/firestore.ts:86-146 | a snapshot of orders written by `createOrder` for the queried user reads back, one order per document in snapshot order, with that user, each total and each order's items as written |
| `Catalog.UniqueMembers` | src/pages/Products.tsx:33-35 | the distinct elements listed, not counting those already `seen`, are exactly the elements of `xs` outside `seen`, so `Array.from(new Set(xs))` holds exactly the elements of `xs` |
| `Catalog.UniqueNoDuplicates` | src/pages/Products.tsx:33-35 | `Array.from(new Set(xs))` holds each element once |
| `Catalog.UniqueFirstSeen` | src/pages/Products.tsx:33-35 | `Array.from(new Set(xs))` lists elements in order of their first occurrence in `xs` |
| `Catalog.NonEmpty` | src/pages/Products.tsx:34 | `.filter(Boolean)` keeps exactly the non-empty strings |
| `Catalog.NonEmptyKeepsOrder` | src/pages/Products.tsx:34 | filtering keeps the order in which non-empty strings first occur |
| `Catalog.Categories` | src/pages/Products.tsx:32-37 | the list is never empty and starts with "all" |
| `Catalog.CategoriesMembers` | src/pages/Products.tsx:33-36 | the entries after "all" are exactly the non-empty categories some product has |
| `Catalog.CategoriesOrder` | src/pages/Products.tsx:33-36 | the entries after "all" are in order of first appearance among the products |
| `Catalog.CategoriesSpec` | src/pages/Products.tsx:32-37 | "all" first, then each non-empty product category exactly once, in first-appearance order, and nothing else |
| `Catalog.CategoryAllRepeats` | src/pages/Products.tsx:32-37 | a lone product whose category is "all" gives the list `["all", "all"]` |
| `Catalog.Matching` | src/pages/Products.tsx:47 | the kept products are exactly those with the selected category |
| `Catalog.MatchingIsSubsequence` | src/pages/Products.tsx:47 | the kept products are a subsequence of the products, in their order |
| `Catalog.MatchingConcat` | src/pages/Products.tsx:47 | the filter treats products one at a time: filtering `a + b` is filtering `a` followed by filtering `b` |
| `Catalog.FilterByCategory` | src/pages/Products.tsx:45-48 | "all" shows every product as listed; any other selection shows the order-preserving subsequence with that category |
| `Catalog.ResetSelection` | src/pages/Products.tsx:39-43 | a selection that is neither "all" nor listed becomes "all"; any other selection is kept |
| `Catalog.SettledSelection` | src/pages/Products.tsx:39-48 | after the reset the selection is listed, a second reset keeps it, and a selection other than "all" shows at least one product |
| `Catalog.SettledView` | src/pages/Home.tsx:33-49 | once the reset has run, the home page shows the category list, a listed selection and its filtered products, which are non-empty unless the selection is "all" |
| `ProductValidation.Validate` | src/commponents/ProductManager.tsx:85-105 | an accepted form has a parsed price that is positive and equals the payload's price |
| `ProductValidation.ValidationOrder` | src/commponents/ProductManager.tsx:86-105 | the first failing check decides the error: a blank title, category or description, then a blank image, then a price that is NaN or not positive; a form passing all three gives the trimmed payload |
| `ProductValidation.AcceptedPayload` | src/commponents/ProductManager.tsx:99-105 | an accepted payload has a positive price and four non-empty fields that are already trimmed |
| `ProductValidation.WhitespaceIsBlank` | src/commponents/ProductManager.tsx:86-89 | a required field holding only whitespace is rejected like an empty one |
| `ProductValidation.EditThenSubmit` | src/commponents/ProductManager.tsx:49-105 | editing a product whose four text fields are trimmed and non-empty and whose price is positive, and submitting the form unchanged, passes validation with exactly that product's fields |
| `Text.Trim` | src/commponents/ProductManager.tsx:100-104 | the trimmed string is no longer than the input and neither starts nor ends with whitespace |
| `Text.TrimSplits` | src/commponents/ProductManager.tsx:100-104 | the input is whitespace, then the trimmed string, then whitespace |
| `Text.TrimEmptyIff` | src/commponents/ProductManager.tsx:86-90 | a string trims to empty exactly when it is all whitespace |
| `Text.TrimIdempotent` | src/commponents/ProductManager.tsx:100-104 | trimming a trimmed string changes nothing |
| `Text.TrimOfTrimmed` | src/commponents/ProductManager.tsx:100-104 | a string with no whitespace at either end trims to itself |
| `ProductManager.ProductManagerPanel.constructor` | src/commponents/ProductManager.tsx:29-33 | an empty form, not editing, not saving, no feedback and no error |
| `ProductManager.ProductManagerPanel.ResetForm` | src/commponents/ProductManager.tsx:44-47 | the form is empty and no product is being edited |
| `ProductManager.ProductManagerPanel.HandleEdit` | src/commponents/ProductManager.tsx:49-60 | the panel edits the product, the form holds its fields, and feedback and error are cleared |
| `ProductManager.ProductManagerPanel.HandleDelete` | src/commponents/ProductManager.tsx:62-78 | without confirmation nothing happens; a successful delete of the edited product resets the form, while deleting another product keeps the edit state; a failure sets the error; saving is false afterwards |
| `ProductManager.ProductManagerPanel.Save` | src/commponents/ProductManager.tsx:107-121 | the update request is issued when editing and the create request otherwise; success empties the form and stops editing, failure keeps both and sets the error |
| `ProductManager.ProductManagerPanel.HandleSubmit` | src/commponents/ProductManager.tsx:80-122 | a rejected form issues no request, sets the check's message and leaves form, edit state and saving as they were; an accepted form issues `onUpdate(editingId, payload)` or `onCreate(payload)` and then resets or keeps the form according to the outcome |
| `ProductForm.ProductFormPage.constructor` | src/pages/ProductForm.tsx:28-31 | an empty form, not loading, not saving, no error |
| `ProductForm.ProductFormPage.Cleanup` | src/pages/ProductForm.tsx:67-69 | the live load run is cancelled and nothing else changes |
| `ProductForm.ProductFormPage.RunLoadEffect` | src/pages/ProductForm.tsx:33-43 | without a product id the form is emptied and nothing is fetched; with one, a fresh run fetches it with loading set and the error cleared |
| `ProductForm.ProductFormPage.CompleteLoad` | src/pages/ProductForm.tsx:43-65 | a cancelled run changes nothing; for the live run, a found product fills the form, a missing one sets "Product not found." and keeps the form, a failure sets the error, and loading ends |
| `ProductForm.ProductFormPage.Save` | src/pages/ProductForm.tsx:98-110 | with a product id the product is updated, otherwise created; navigation to the product list happens only after a successful save; on failure the error is set and the store is unchanged |
| `ProductForm.ProductFormPage.HandleSubmit` | src/pages/ProductForm.tsx:72-111 | a rejected form writes nothing, does not navigate and sets the check's message; an accepted form updates or creates the product with the trimmed payload and navigates only on success |
| `OrderDetails.OrderDetailsView.constructor` | src/pages/OrderDetails.tsx:10-12 | no order, not loading, no error |
| `OrderDetails.OrderDetailsView.RunEffect` | src/pages/OrderDetails.tsx:14-26 | a fetch starts exactly when there is a user and an order id; otherwise the order is cleared and loading ends, and a missing order id sets "Missing order ID." |
| `OrderDetails.OrderDetailsView.Complete` | src/pages/OrderDetails.tsx:27-43 | the order changes only to a fetched order whose user id is the signed-in uid; a missing order, another user's order or a failure sets its error and keeps the order; loading ends after every outcome |
| `Auth.ProfileFrom` | src/context/AuthContext.tsx:85-103 | there is a profile exactly when the document exists; a missing document or a listener error gives none |
| `Auth.ProfileDefaults` | src/context/AuthContext.tsx:90-98 | a document with no fields gives the user's uid, the user's email or "", and empty name and address |
| `Auth.ProfileKeepsPresent` | src/context/AuthContext.tsx:90-98 | every field the document has is taken over unchanged, ahead of the user's own |
| `Auth.RegisteredProfile` | src/context/AuthContext.tsx:109-119 | the registered document reads back as the profile with the new uid, its email (or the given one), the given name and address |
| `Auth.UpdateKeepsCreation` | src/context/AuthContext.tsx:134-146 | an update keeps the loaded profile's creation time when it has one, stamps the update time, and reads back with the new name and address |
| `Auth.Register` | src/context/AuthContext.tsx:109-120 | the profile is written, under the new principal's uid, only after the account was created; the outcome is success only when both steps succeed |
| `Auth.OrderDeletionsMembers` | src/context/AuthContext.tsx:154 | an order is recorded as deleted exactly when its deletion was issued and did not fail |
| `Auth.DeleteOrdersOf` | src/context/AuthContext.tsx:152-154 | one deletion is issued per order the query matched, each once; exactly the matched orders that did not fail are gone, others untouched; the failure flag says whether any failed |
| `Auth.AuthSession.constructor` | src/context/AuthContext.tsx:64-66 | no user, no profile, loading |
| `Auth.AuthSession.OnAuthStateChanged` | src/context/AuthContext.tsx:68-80 | the session takes the reported user, loading ends, and signing out clears the profile |
| `Auth.AuthSession.OnProfileSnapshot` | src/context/AuthContext.tsx:82-104 | the published profile is the snapshot mapped for the watched user |
| `Auth.AuthSession.UpdateProfile` | src/context/AuthContext.tsx:130-147 | with no user it rejects and writes nothing; otherwise it writes the user's document with the new name and address and the kept creation time |
| `Auth.AuthSession.DeleteAccount` | src/context/AuthContext.tsx:149-158 | with no user nothing changes; all matched orders are deleted first, the profile only when all of them succeeded, and the principal last; on success no order of the user, no profile and no account remain, and other users' data is untouched |

## Left out

- Session storage and JSON: the slot is a value of `Cart.SlotValue` (absent, empty text, a parsed array, a non-array, unparsable); `typeof sessionStorage === "undefined"` during server rendering is not modelled.
- Floating point: prices and totals are integer cents, so `toFixed(2)` and rounding are not modelled; `Text.CentsToText` renders `price.toString()` for a price in cents.
- NaN: `Number(...)` gives `Option<int>`; `Math.max(1, NaN)` in `updateQuantity` has no integer counterpart, and its only caller passes a value of at least 1.
- Timestamps: `serverTimestamp()` and `toDate()` are opaque instants (`now` parameters); the pending state of a server timestamp and the `orderBy("createdAt", "desc")` of the orders query are not modelled.
- Listener lifecycle: subscribing and unsubscribing of `onSnapshot`, and the error callbacks of the product and order subscriptions, are not modelled beyond the profile listener.
- `getProduct` and `getOrderById` are not part of this model; their results are inputs of `ProductForm.LoadResult` and `OrderDetails.FetchResult`.
- `window.confirm` is the `confirmed` input of `HandleDelete`, and the `setTimeout` that clears the checkout message after three seconds is not modelled.
- `Auth.DeleteOrdersOf`: the `Promise.all` deletions are issued one after another; only that all of them settle before the profile step is kept, not their concurrency.
- `Auth.AuthSession.UpdateProfile`: `setDoc` with `merge: true` is modelled as writing the whole document, since every field is supplied.
- `Auth.Register`: the automatic sign-in that follows account creation arrives through `OnAuthStateChanged` and is not part of `Register`.
- `login` and `logout` are single calls into the identity service; their effect is the user reported to `OnAuthStateChanged`.
- The `localeCompare` sort of the product manager's list is locale-dependent and only affects display.
- Ids that are objects or other non-scalar values are represented by the cases of `Backend.StoredId`; order items that are not objects are not modelled.
- All rendering, routing and the pages that only display state or forward to the calls above.
- Quantities are integers. The quantity input and `Number(...)` accept fractional values (`src/commponents/ShoppingCart.tsx:31`, `:110`; `src/store/cartSlice.ts:18`; `src/firebase/firestore.ts:98`, `:140`), and a fractional quantity such as 1.5 is kept. The model has no such value.
- The fields of `Backend.StoredItem` other than the id are typed. The `...item` spreads (`src/store/cartSlice.ts:16`, `src/firebase/firestore.ts:95`, `:137`) copy whatever a stored item holds, including missing or mistyped fields, and the model does not represent those.
- `Auth.AuthSession.DeleteAccount`: its promise that no order of the user remains assumes that nobody else writes an order for the uid between the `getDocs` query (`src/context/AuthContext.tsx:152-153`) and the deletions. Each remote call is one step, so the model has no such interleaving.
