# Storefront checkout, cart summary and admin catalog, modelled in Dafny

This project models the parts of the storefront that hold logic:

- **Checkout** (`checkout.dfy`, module `Checkout`). The page shows a price breakdown: the cart store's total price, shipping of 12 when the cart has lines, VAT at 20% and their sum. Its "Place Order" handler tries three guards in a fixed order: a signed-in user, a non-empty cart, then the four required address fields. Only after all three pass does it build one order record with status `"pending"`, switch `isLoading` on and send the insert. After the backend answers, it clears the cart on success or leaves it on failure, and always switches `isLoading` off. `Decide` is the decision as a pure function (`Reject(reason)` or `Insert(record)`). `CheckoutPage.PlaceOrder` is the handler as an imperative method, tied to `Decide` and to `PlaceOrderEffects`, the sequence of toasts, loading changes, insert request, cart clearing and navigation it produces.
- **Admin catalog list** (`admin.dfy`, module `Admin`, and `catalog.dfy`, module `Catalog`). The admin page's `products` list starts empty. Its three callbacks rebuild the list: `Added` uses spread with a new id from the clock, `Updated` merges a `Partial<Product>` into every entry with a matching id, and `Deleted` filters matching ids out. `Catalog.Merge` is the object spread `{ ...product, ...patch }`.
- **Product manager form** (`manager.dfy`, module `Manager`). This is a class holding the component state `isAdding`, `editingId`, `formData` and `loading`, plus a log of loading changes, backend requests and toasts. Its transitions are `OpenForm`, `ResetForm`, `StartEdit`, `HandleSubmit` and `HandleDelete`. Each takes the backend's reply, the confirmation answer or the clock reading as a parameter. The class holds a reference to the `AdminPage`, which stands for the `onAddProduct`, `onUpdateProduct` and `onDeleteProduct` callbacks.
- **Cart page summary** (`cart.dfy`, module `Cart`). The subtotal is a left fold of price × quantity, proved equal to the plain sum. Shipping is a flat 15 and tax is 8%. An empty item list shows the empty-cart screen instead of the summary. The lemmas record that the cart page and the checkout page use different pricing rules.

Money is Dafny's exact `real`. The signed-in user, the cart store's lines and its total price (`getTotalPrice()`), the clock (`Date.now()`), the confirmation dialog and every backend reply are inputs to the operations.

Notes on how the code reads, which the model follows:

- The submit handler tests `if (editingId)`. An `editingId` that is the empty string therefore takes the insert path, just as null does (`Manager.Editing`).
- On a successful insert, the product manager passes the row id returned by the backend to `onAddProduct`. The admin page's `addProduct` then replaces it with `Date.now().toString()`. The local list entry ends up with an id the backend does not know, so a later edit or delete of it targets no row. `Manager.InsertedEntryLosesRowId` states this.
- The checkout line amount uses `sale_price || price`, so a sale price of 0 shows the full price.
- `startEdit` followed by an unchanged submit turns an empty-string image or description into null. `Manager.EditRoundTrip` states the round trip for every other product.

## Model

| member | source | states |
|---|---|---|
| Checkout.LineAmount | src/pages/Checkout.tsx:246 | a line shows sale price × quantity when the sale price is present and non-zero, and price × quantity otherwise, including for a zero sale price |
| Checkout.ComputeTotals | src/pages/Checkout.tsx:34-37 | shipping is 12 exactly when the cart has lines and 0 exactly when it is empty; VAT is one fifth of the subtotal; the total is 6/5 of the subtotal plus shipping |
| Checkout.TotalsExample | src/pages/Checkout.tsx:35-37 | a non-empty cart with subtotal 210 gives shipping 12, VAT 42 and total 264 |
| Nullable.NullIfEmpty | src/pages/Checkout.tsx:78-80 | an empty text becomes null; any other text is kept (also the image and description mapping of the product form) |
| Checkout.BuildOrder | src/pages/Checkout.tsx:74-90 | the record has status "pending" and the user's id; it copies the cart lines, the four computed amounts and the address fields unchanged; phone and address line 2 are null exactly when empty |
| Checkout.RequiredFieldsFilled | src/pages/Checkout.tsx:62 | the address passes exactly when none of full name, address line 1, city and postal code is the empty string |
| Checkout.Decide | src/pages/Checkout.tsx:43-90 | no user: rejected for authentication before anything else; a user and an empty cart: rejected as empty; then a missing required field: rejected as missing information; otherwise (and only then) the record built from the totals is inserted |
| Checkout.OnlyRequiredFieldsChecked | src/pages/Checkout.tsx:62-69 | two forms that agree on full name, address line 1, city and postal code get the same verdict, whatever their email, phone, address line 2 and country |
| Checkout.InsertedOrderPricing | src/pages/Checkout.tsx:74-90 | an inserted order is pending, has shipping 12, and its total is its subtotal plus shipping plus VAT, which is 6/5 of the subtotal plus 12 |
| Checkout.PlaceOrderEffects | src/pages/Checkout.tsx:44-110 | a rejection is one destructive toast; an accepted order sends the insert of its record second, and shows the success toast exactly when the insert succeeded and the failure toast exactly when it failed |
| Checkout.RejectionHasNoOtherEffect | src/pages/Checkout.tsx:44-69 | a rejection produces exactly one destructive toast with its reason's title: no loading, no insert, no cart clearing |
| Checkout.LoadingOnlyAfterGuards | src/pages/Checkout.tsx:71-110 | loading is switched on exactly when all guards pass; it is then the first effect, and switching it off is the last, on success and failure alike |
| Checkout.CartClearedOnlyOnSuccess | src/pages/Checkout.tsx:92-107 | the cart is cleared exactly when an insert was sent and came back without error |
| Checkout.CheckoutPage.constructor | src/pages/Checkout.tsx:16-32 | the form starts with the user's email (or "") and country "UK", every other field empty, and loading off |
| Checkout.CheckoutPage.ChangeForm | src/pages/Checkout.tsx:39-41 | editing the form replaces it and changes nothing else |
| Checkout.CheckoutPage.PlaceOrder | src/pages/Checkout.tsx:43-111 | the handler's effects are those of Decide's verdict; the cart becomes empty only after an accepted and successful insert and is otherwise untouched; loading ends off whenever the guards passed; the form is unchanged |
| Catalog.Merge | src/pages/Admin.tsx:18 | every key present in the partial, including a present null, overrides the product's value; every absent key keeps the product's value |
| Catalog.MergeNoChanges | src/pages/Admin.tsx:18 | merging an empty partial leaves the product as it was |
| Catalog.MergeIdempotent | src/pages/Admin.tsx:18 | merging the same partial twice equals merging it once |
| Admin.Added | src/pages/Admin.tsx:8-14 | the list grows by one; the earlier entries are unchanged; the appended entry is the argument with its id replaced by the new one |
| Admin.Updated | src/pages/Admin.tsx:16-20 | length and positions are preserved; each entry with the id is merged with the partial; every other entry is unchanged |
| Admin.Deleted | src/pages/Admin.tsx:22-24 | an entry remains exactly when it was in the list and has a different id; no entry with the id is left; the list does not grow |
| Admin.DeletedKeepsOrder | src/pages/Admin.tsx:23 | deletion distributes over concatenation, so the remaining entries keep their relative order |
| Admin.DeletedAbsent | src/pages/Admin.tsx:23 | deleting an id that no entry carries leaves the list unchanged |
| Admin.DeletedIdempotent | src/pages/Admin.tsx:23 | deleting the same id twice equals deleting it once |
| Admin.DeleteUndoesAdd | src/pages/Admin.tsx:8-24 | deleting under the id a product was just added with gives the same list as deleting that id from the list before the addition |
| Admin.UpdatedAbsent | src/pages/Admin.tsx:17-18 | updating an id that no entry carries leaves the list unchanged |
| Admin.UpdatedIdempotent | src/pages/Admin.tsx:16-20 | applying the same update twice equals applying it once, even when the partial changes the id |
| Admin.AdminPage.constructor | src/pages/Admin.tsx:6 | the products list starts empty |
| Admin.AdminPage.AddProduct | src/pages/Admin.tsx:8-14 | the new list is Added of the old one |
| Admin.AdminPage.UpdateProduct | src/pages/Admin.tsx:16-20 | the new list is Updated of the old one |
| Admin.AdminPage.DeleteProduct | src/pages/Admin.tsx:22-24 | the new list is Deleted of the old one |
| Manager.Categories | src/components/ProductManager.tsx:52 | there are exactly five distinct choices: TOPS, SHORTS, TSHIRTS, JACKETS and SETS |
| Manager.EmptyIfNull | src/components/ProductManager.tsx:128-129 | a missing value becomes ""; a present one is kept |
| Manager.ToProductData | src/components/ProductManager.tsx:72-79 | name, price, category and featured are copied from the form; image and description are null exactly when the form's text is empty and are copied otherwise |
| Manager.FormOf | src/components/ProductManager.tsx:124-131 | name, category and featured are copied; the price input holds the product's price; a present image or description is copied, and the form's field is "" exactly when it is missing or empty |
| Manager.ErrorText | src/components/ProductManager.tsx:114 | the message shown is the error's message when that is non-empty, and "An error occurred" otherwise |
| Manager.AsPatch | src/components/ProductManager.tsx:89 | merging the update's partial into any product sets the six form fields and keeps its id, sale price and discount |
| Manager.AsProduct | src/components/ProductManager.tsx:103 | the product passed on after an insert carries the backend's row id and the six form fields, with no sale price or discount |
| Manager.Editing | src/components/ProductManager.tsx:81 | the update path is taken exactly when editingId is neither null nor the empty string |
| Manager.SubmitEvents | src/components/ProductManager.tsx:69-119 | a submit switches loading on, sends one request, shows one notice that reports success exactly when the reply is an error-free one (with the error text otherwise), and switches loading off |
| Manager.DeleteEvents | src/components/ProductManager.tsx:136-160 | a delete click produces no event exactly when the confirmation is declined; otherwise it sends the delete of that id, shows one notice that reports success exactly when the reply is error-free, and ends with loading off |
| Manager.EditRoundTrip | src/components/ProductManager.tsx:72-133 | loading a product into the form and building productData from it gives back its six fields, unless its image or description is the empty string |
| Manager.UnchangedEditIsNoOp | src/components/ProductManager.tsx:81-89 | saving an edit without changing the form leaves the admin list unchanged |
| Manager.SubmitSendsOneRequest | src/components/ProductManager.tsx:67-120 | a submit sends exactly one request, and it is sent after loading is switched on and before it is switched off; the request is the update of editingId when editingId is non-empty and the insert otherwise |
| Manager.DeleteGate | src/components/ProductManager.tsx:135-161 | a declined confirmation produces no event at all, and only a declined one does; an accepted one sends exactly the delete of that id, inside the loading window |
| Manager.InsertedEntryLosesRowId | src/components/ProductManager.tsx:103 | after a successful insert, the new list entry carries the admin page's clock id and not the row id the backend returned, whenever the two differ |
| Manager.ProductManager.constructor | src/components/ProductManager.tsx:39-49 | the component starts closed, with no edit, an empty form and loading off |
| Manager.ProductManager.OpenForm | src/components/ProductManager.tsx:168 | the "Add Product" button opens the form and changes nothing else |
| Manager.ProductManager.ChangeForm | src/components/ProductManager.tsx:193-258 | editing an input replaces the form and changes nothing else |
| Manager.ProductManager.ResetForm | src/components/ProductManager.tsx:54-65 | every text field is emptied, featured is false, the form is closed and no product is being edited; loading is untouched |
| Manager.ProductManager.StartEdit | src/components/ProductManager.tsx:122-133 | editingId becomes the product's id, the form opens and is filled by FormOf |
| Manager.ProductManager.HandleSubmit | src/components/ProductManager.tsx:67-120 | the log gains the submit's events; on success the admin list is updated (when editing) or appended to (otherwise) and the form is reset; on error the list, form, editingId and isAdding are unchanged; loading ends off |
| Manager.ProductManager.HandleDelete | src/components/ProductManager.tsx:135-161 | a declined confirmation changes nothing at all; otherwise the list loses the id only after an error-free delete, and loading ends off; the form state is never touched |
| Cart.FoldFromIsSum | src/pages/Cart.tsx:29 | the left fold from any start value equals that start plus the sum of price × quantity |
| Cart.Subtotal | src/pages/Cart.tsx:29 | the subtotal is the sum of price × quantity over the items, and 0 for no items |
| Cart.SumAppend | src/pages/Cart.tsx:29 | the subtotal of two lists joined is the sum of their subtotals |
| Cart.SumNonNegative | src/pages/Cart.tsx:29 | with no negative prices or quantities, the subtotal is not negative |
| Cart.Summarize | src/pages/Cart.tsx:29-32 | shipping is 15 whatever the items; tax is 2/25 (8%) of the subtotal; the total is 27/25 of the subtotal plus 15 |
| Cart.Render | src/pages/Cart.tsx:34-52 | the empty-cart screen is shown exactly when there are no items; otherwise the summary of the items is shown |
| Cart.MockSummary | src/pages/Cart.tsx:10-32 | for the two mock items the summary is subtotal 597, shipping 15, tax 47.76 and total 659.76 |
| Cart.TotalsAgreeOnlyAt25 | src/pages/Cart.tsx:30-32 | the cart page's total and the checkout page's total for a non-empty cart agree only at a subtotal of exactly 25 |
| Cart.MockTotalsDiffer | src/pages/Cart.tsx:10-32 | for the mock items the checkout rules would give 728.40 where the cart page shows 659.76 |

## Left out

- Markup, styling and the route table. The checkout page's own empty-cart screen (src/pages/Checkout.tsx:113-128) is rendering only; the handler's empty-cart guard is modelled.
- The cart store and auth hooks (`useCart`, `useAuth`) are not part of this model. The signed-in user, the cart's lines and `getTotalPrice()` are inputs, and `clearCart()` is modelled as emptying the page's `cartItems`.
- The backend calls (insert, update, delete on the products and orders tables) are not modelled as I/O. Each is a parameter carrying its outcome, and the request appears as an event in the component's log.
- Toasts, `navigate("/")` and `console.error` appear only as entries in the effect and event logs. The checkout page's log keeps each toast's title and whether it is destructive, not its description. The product manager's log keeps each toast's description and whether it reports success, not its title ("Success" or "Error").
- `Date.now()` and `window.confirm` are parameters: the clock's text, and a boolean for the answer.
- `parseFloat` and `toString` of the price are not modelled. The price input holds either nothing or a number, and parsing gives back that number. NaN and IEEE rounding in the VAT, tax and total arithmetic are not modelled either: all amounts are exact reals.
- Manager.ProductManager.HandleSubmit: requires the price input to hold a number. The handler is bound only to the form's submit, and the browser fires that only after the `required` number input has passed validation. A submit with an empty price, which would send NaN, is not modelled.
- Catalog.Merge: JavaScript's `null` and `undefined` are one value (None) for optional fields. A present-but-undefined key in a partial is modelled as present-null.
- Async interleavings are not modelled, for example a second click while a request is pending or a state update after unmount. Each handler is one atomic step, so the intermediate `loading`/`isLoading` value is visible only through the event logs.
- The individual input bindings are not modelled one by one. The product form's `setFormData({ ...formData, x })` handlers are modelled as `ProductManager.ChangeForm`, and the checkout form's `handleInputChange` as `CheckoutPage.ChangeForm`. Each replaces the whole form.
- The cart page's quantity and remove buttons have no handlers (src/pages/Cart.tsx:80-92), so there is nothing to model for them.
