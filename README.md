# Storefront core in Dafny

This project models the client-side core of a Next.js clothing storefront. It covers:

- the three client stores:
  - the **cart**: line items with quantities and a running `total`;
  - the **wishlist**: a list of products;
  - the **auth store**: session, profile, saved addresses and saved payment methods, each action mirroring one backend call;
- the pages and components that drive those stores:
  - the **multi-step checkout**: shipping → payment → review → confirmation, with pricing, the `canProceed` guard, address prefill and order placement;
  - the **contact form** and its validator;
  - the **search page**: filter toggling and the request it sends;
  - the **product query builder** behind `getProducts`;
  - the **product card**: main image and wishlist heart;
  - the **similar-products strip**;
  - the **wishlist page**;
  - the **search bar** dropdown;
  - the **add-card dialog**'s card record.

Prices are integers in cents. The checkout tax is the one `real`.

Backend outcomes, the clock and `Math.random()` are parameters of the operations that use them. A store or page whose state the source updates in place is a `class`. Pure derivations are functions, with lemmas that relate them.

Modules, one per file:

- `Wrappers`: `Option`.
- `Seqs`: find, filter, take, subsequence, distinctness.
- `Text`:
  - JavaScript `trim` and `\s`;
  - ASCII `toLowerCase` and `includes`;
  - integer `toString`, and reading the digits back.
- `Catalog`: products and the name filter.
- `Cart`, `Wishlist`, `Auth`: the stores.
- `Checkout`, `Contact`, `Search`, `ProductQuery`, `ProductCard`, `SimilarProducts`, `WishlistPage`, `SearchBar`, `AddCard`: the pages and components.

## Model

| member | source | states |
|---|---|---|
| Cart.CartStore.constructor | src/store/cart.ts:25-27 | The cart starts empty with total 0, and the total agrees with the lines. |
| Cart.CartStore.AddItem | src/store/cart.ts:28-47 | `total` grows by the product's price. A product already in the cart gets its quantity raised by one in place. A new product is appended with quantity 1. Ids stay unique. The total still equals the sum of the lines when the stored price agrees with the product's price. |
| Cart.CartStore.RemoveItem | src/store/cart.ts:48-57 | A present line is removed and its price × quantity is subtracted from the total. An absent id changes nothing. No line with that id remains, and a balanced total stays balanced. |
| Cart.CartStore.UpdateQuantity | src/store/cart.ts:58-70 | A present line takes the new quantity, with no lower bound. The total moves by price × (new − old). An absent id changes nothing. A balanced total stays balanced. |
| Cart.CartStore.ClearCart | src/store/cart.ts:71 | No lines and a total of 0. |
| Cart.StalePriceDrift | src/store/cart.ts:28-47 | When the stored line's price differs from the product passed in, `addItem` adds the new price to `total` while the line's value grows by the old one. The two drift apart. |
| Cart.AddTwiceKeepsOneLine | src/store/cart.ts:28-47 | Adding one product twice to an empty cart gives one line of quantity 2 and a total of twice the price. |
| Wishlist.RemoveId | src/store/wishlist.ts:24-28 | No item with the id remains. The result is a subsequence of the list. Every other item keeps all its copies, including duplicates. |
| Wishlist.RemoveAbsent | src/store/wishlist.ts:24-28 | Removing an id that is not listed leaves the list unchanged. |
| Wishlist.RemoveKeepsUnique | src/store/wishlist.ts:24-28 | Removal keeps ids unique. |
| Wishlist.WishlistStore.constructor | src/store/wishlist.ts:17-18 | The wishlist starts empty. |
| Wishlist.WishlistStore.AddItem | src/store/wishlist.ts:19-23 | The product is appended without a duplicate check and is then listed. |
| Wishlist.WishlistStore.RemoveItem | src/store/wishlist.ts:24-28 | The list becomes `RemoveId` of the old list, and the id is no longer listed. |
| Wishlist.WishlistStore.ClearWishlist | src/store/wishlist.ts:32-34 | The list is empty. |
| Wishlist.IsInWishlistMeaning | src/store/wishlist.ts:29-31 | `isInWishlist` holds exactly when some item has the id. |
| Wishlist.AddThenRemove | src/store/wishlist.ts:19-28 | Adding then removing a product equals removing it from the old list. When the product was absent, that is the old list itself. |
| Auth.MergeIdempotent | src/store/auth.ts:143-155 | Merging the same address patch twice equals merging it once. |
| Auth.MergeEmpty | src/store/auth.ts:143-155 | An empty patch leaves an address as it was. |
| Auth.ApplyProfile | src/store/auth.ts:118-128 | The names are replaced. The id and email of an existing user are kept. The phone number is replaced only when one is given. |
| Auth.UpdateAddresses | src/store/auth.ts:143-155 | The length is unchanged. Each address with the id becomes its merge with the patch, and every other address stays as it was. |
| Auth.UpdateAddressesIdempotent | src/store/auth.ts:143-155 | Applying the same update twice equals applying it once. |
| Auth.RemoveAddressId | src/store/auth.ts:157-167 | No address with the id remains. The result is a subsequence. Every other address keeps all its copies. |
| Auth.RemoveMethodId | src/store/auth.ts:182-194 | No payment method with the id remains. The result is a subsequence. Every other method keeps all its copies. |
| Auth.MarkDefault | src/store/auth.ts:196-209 | Same length. A method is the default exactly when its id matches. Every other field is unchanged. |
| Auth.MarkDefaultExactlyOne | src/store/auth.ts:196-209 | With unique ids, at most the chosen method is the default afterwards. An unknown id leaves no default at all. |
| Auth.AuthStore.constructor | src/store/auth.ts:67-72 | Signed out, with no addresses and no payment methods. |
| Auth.AuthStore.SetAuth | src/store/auth.ts:73-75 | Stores the token and user and marks the session authenticated. |
| Auth.AuthStore.Login | src/store/auth.ts:76-89 | A failed call leaves the state unchanged and returns "Login failed". A successful call stores the session. |
| Auth.AuthStore.Register | src/store/auth.ts:91-108 | A failed call leaves the state unchanged and returns "Registration failed". A successful call stores the session. |
| Auth.AuthStore.Logout | src/store/auth.ts:110-116 | Clears the token and user and marks the session signed out. The saved addresses and payment methods stay. |
| Auth.AuthStore.UpdateProfile | src/store/auth.ts:118-128 | On success the user becomes `ApplyProfile` of the old user. On failure the state is unchanged and the message is "Profile update failed". |
| Auth.AuthStore.AddAddress | src/store/auth.ts:130-141 | On success the returned address is appended. On failure the state is unchanged and the message is "Failed to add address". |
| Auth.AuthStore.UpdateAddress | src/store/auth.ts:143-155 | On success the patch is merged into the addresses with the id. On failure the state is unchanged and the message is "Failed to update address". |
| Auth.AuthStore.RemoveAddress | src/store/auth.ts:157-167 | On success the list becomes `RemoveAddressId`. On failure the state is unchanged and the message is "Failed to remove address". |
| Auth.AuthStore.AddPaymentMethod | src/store/auth.ts:169-180 | On success the returned method is appended. On failure the state is unchanged and the message is "Failed to add payment method". |
| Auth.AuthStore.RemovePaymentMethod | src/store/auth.ts:182-194 | On success the list becomes `RemoveMethodId`. On failure the state is unchanged and the message is "Failed to remove payment method". |
| Auth.AuthStore.SetDefaultPaymentMethod | src/store/auth.ts:196-209 | On success the list becomes `MarkDefault`. On failure the state is unchanged and the message is "Failed to set default payment method". |
| Auth.AuthStore.ResetPassword | src/store/auth.ts:211-217 | No state changes. The error is "Password reset request failed" exactly when the call fails. |
| Auth.AuthStore.ChangePassword | src/store/auth.ts:219-228 | No state changes. The error is "Password change failed" exactly when the call fails. |
| Checkout.ChangeOneField | src/app/checkout/page.tsx:122-125 | A shipping input sets its own field and leaves every other field as it was. |
| Checkout.CanProceed | src/app/checkout/page.tsx:196-219 | The shipping step opens exactly when every required field (all but email and phone) is non-empty. PayPal always opens the payment step. Paying by card, the payment step opens exactly when the card name, number, expiry and CVV are all non-empty. Review and confirmation are always open. |
| Checkout.ShippingGuardFields | src/app/checkout/page.tsx:196-219 | Clearing any required field blocks the shipping step. Editing email or phone never changes the verdict. |
| Checkout.PaymentGuardFields | src/app/checkout/page.tsx:196-219 | When paying by card, clearing any card input blocks the payment step. With PayPal the card inputs never matter. |
| Checkout.FillingAllRequiredProceeds | src/app/checkout/page.tsx:196-219 | Filling every required field with a non-empty value opens the shipping step. |
| Checkout.ShippingCost | src/app/checkout/page.tsx:184 | 1500 cents for express and 500 otherwise. |
| Checkout.OrderTotal | src/app/checkout/page.tsx:186-193 | For a non-empty cart: subtotal × 1.1 + shipping. For an empty cart: shipping alone. |
| Checkout.OrderDigits | src/app/checkout/page.tsx:175-176 | For `Math.random()` in [0, 1), the number is between 100000 and 999999. |
| Checkout.OrderNumber | src/app/checkout/page.tsx:175-176 | "ORD-" followed by exactly six digits, and those digits read back as `OrderDigits`. |
| Text.NatToStringRoundTrip | src/app/checkout/page.tsx:176 | Reading the digits of `n.toString()` back gives `n`. |
| Text.NatToStringLength | src/app/checkout/page.tsx:176 | A number with k significant digits renders as k characters. |
| Checkout.CheckoutPage.constructor | src/app/checkout/page.tsx:55-87 | The page starts at the shipping step with standard shipping, card payment, empty drafts and no order number. |
| Checkout.CheckoutPage.ChooseShippingMethod | src/app/checkout/page.tsx:486-489 | Sets the shipping method. Nothing else changes. |
| Checkout.CheckoutPage.ChoosePaymentMethod | src/app/checkout/page.tsx:529-532 | Sets the payment method. Nothing else changes. |
| Checkout.CheckoutPage.HandleShippingChange | src/app/checkout/page.tsx:122-125 | The shipping draft takes the new value in the named field. |
| Checkout.CheckoutPage.HandlePaymentChange | src/app/checkout/page.tsx:128-131 | The payment draft takes the new value in the named card field. |
| Checkout.CheckoutPage.SetSavePaymentInfo | src/app/checkout/page.tsx:636-645 | The checkbox sets only `savePaymentInfo`. |
| Checkout.CheckoutPage.PlaceOrder | src/app/checkout/page.tsx:170-181 | Sets an `ORD-` number and the confirmation step and empties the cart. The displayed total then collapses to the shipping cost, and the empty-cart redirect stays off. |
| Checkout.CheckoutPage.NextStep | src/app/checkout/page.tsx:150-158 | Shipping → payment → review. From review it places the order. From confirmation nothing moves. |
| Checkout.CheckoutPage.PrevStep | src/app/checkout/page.tsx:161-167 | Payment → shipping and review → payment. Otherwise nothing changes. |
| Checkout.CheckoutPage.PressContinue | src/app/checkout/page.tsx:860-864 | A closed guard leaves everything unchanged. An open guard advances one step as `nextStep` does. From shipping or payment the cart and order number stay. From review the order is placed: an `ORD-` number from r, and an empty cart. Confirmation changes nothing. The drafts and both method choices are always kept. |
| Checkout.CheckoutPage.EditShipping | src/app/checkout/page.tsx:684 | From review, jumps back to the shipping step with the drafts intact. |
| Checkout.CheckoutPage.EditPayment | src/app/checkout/page.tsx:717 | From review, jumps back to the payment step with the drafts intact. |
| Checkout.CheckoutPage.AddressSelect | src/app/checkout/page.tsx:134-147 | Records the id. A matching saved address overwrites only the five address fields, and names, email and phone stay. |
| Checkout.CheckoutPage.PrefillDefaultAddress | src/app/checkout/page.tsx:90-107 | For a signed-in user, the first default address is selected, its fields are copied and both names are blanked. Otherwise nothing changes. |
| Checkout.ConfirmationIsFinal | src/app/checkout/page.tsx:150-167 | Neither step button leaves the confirmation step. |
| Text.TrimsToEmpty | src/app/contact/page.tsx:47 | `!s.trim()` holds exactly for strings made only of JavaScript whitespace. |
| Text.TrimEmptyIffBlank | src/app/contact/page.tsx:47 | `trim` yields "" exactly for whitespace-only strings. |
| Contact.EmailCheckIsPattern | src/app/contact/page.tsx:53 | The direct scan agrees with `/^[^\s@]+@[^\s@]+\.[^\s@]+$/` on every string, in both directions. |
| Contact.ValidEmail | src/app/contact/page.tsx:53 | True exactly when the address matches the pattern. |
| Contact.FieldError | src/app/contact/page.tsx:44-66 | Gives each field's check and exact message. For email, "required" is checked before the pattern; for the message, before the 20-character minimum. |
| Contact.ValidationErrors | src/app/contact/page.tsx:44-68 | A field is a key exactly when its check fails, and the value is that check's message. |
| Contact.ValidIffAllChecksPass | src/app/contact/page.tsx:67-68 | `validate()` is true exactly when all four fields pass. |
| Contact.ValidationMessagesPresent | src/app/contact/page.tsx:44-68 | Every recorded message is non-empty. |
| Contact.ContactPage.constructor | src/app/contact/page.tsx:18-26 | The form starts empty, with no errors, not loading and not submitted. |
| Contact.ContactPage.HandleChange | src/app/contact/page.tsx:29-42 | Sets the field and clears only that field's error. |
| Contact.ContactPage.Validate | src/app/contact/page.tsx:44-69 | The errors become `ValidationErrors(form)`. The result is true exactly when they are empty. |
| Contact.ContactPage.HandleSubmit | src/app/contact/page.tsx:71-100 | A failing form changes only the errors. A passing form ends submitted and not loading. |
| Contact.ContactPage.ResetForm | src/app/contact/page.tsx:102-110 | Empties the form and the submitted flag and keeps the errors. |
| ProductQuery.SentValue | src/lib/products.ts:22-29 | Each of the six keys is sent exactly when its value is truthy: a non-empty string, or a number other than 0 and NaN. Numbers are sent as their `toString()`. |
| ProductQuery.PrefixKeysOrdered | src/lib/products.ts:22-29 | After the first k conditional appends, the keys form an ordered pick from the first k keys. |
| ProductQuery.PrefixValues | src/lib/products.ts:22-29 | After any number of appends, every pair holds the value its key sends. |
| ProductQuery.PrefixHasSent | src/lib/products.ts:22-29 | After the first k appends, every one of the first k keys that has a value is present. |
| ProductQuery.AppendIfSent | src/lib/products.ts:22-29 | One `if (value) append(key, value)`: the pair is appended exactly when the key sends a value, which extends the partial list by that key's entry. |
| ProductQuery.AppendAll | src/lib/products.ts:22-29 | The six appends in source order produce the complete list for all six keys. |
| ProductQuery.PrefixComplete | src/lib/products.ts:22-29 | After all six appends: the keys are distinct and in the fixed order, every entry carries its `SentValue`, and every truthy key is present. |
| ProductQuery.BuildQueryParams | src/lib/products.ts:19-31 | No filters give an empty query. Otherwise the keys are distinct, in the order category, search, minPrice, maxPrice, page, limit. A key appears exactly when its value is truthy, with that value. |
| Search.ToggleFilter | src/app/search/page.tsx:53-59 | Toggles the filter's membership and keeps every other filter's membership. A present filter loses every copy while every other filter keeps its order and number of copies. An absent one is appended. |
| Search.ToggleTwiceRestores | src/app/search/page.tsx:53-59 | Toggling an absent filter twice gives back the same list. |
| Search.ToggleTwiceMovesToEnd | src/app/search/page.tsx:53-59 | Toggling a present filter twice keeps the same members but moves that filter to the end. |
| Search.ToggleTwiceReorders | src/app/search/page.tsx:53-59 | Concretely, toggling "Men" twice in ["Men", "Kids"] gives ["Kids", "Men"]. |
| Search.ToggleKeepsDistinct | src/app/search/page.tsx:53-59 | Toggling never creates duplicates. |
| Search.SelectedCategory | src/app/search/page.tsx:39 | The first applied filter that is one of the five categories, or none. |
| Search.PriceFilter | src/app/search/page.tsx:30-35 | With no '$' filter the bounds are 0 and 1000. Otherwise they are the parse of the first '$' filter after its first '$' is removed, as `replace('$', '')` does. |
| Search.OnlyCategoryAndPriceMatter | src/app/search/page.tsx:30-44 | Dropping every filter that is neither a category nor a price range leaves the request unchanged. |
| Search.SizesIgnored | src/app/search/page.tsx:37-44 | Size filters never affect the request. |
| Search.RequestValues | src/app/search/page.tsx:19-44 | page is "1" and limit is "12". search is sent exactly for a non-empty query, and category exactly when one is selected. With no price filter, minPrice (0) is dropped and maxPrice is "1000". |
| Search.SentIff | src/lib/products.ts:22-29 | In a built query, a key is present exactly when its value is truthy, and its pair is in the query. |
| Search.LoadProductsParams | src/app/search/page.tsx:26-44 | The query string `loadProducts` requests: ("page","1") and ("limit","12") are always sent. "search" is sent iff the query is non-empty, and "category" iff a category is applied. With no price filter there is no minPrice and ("maxPrice","1000") is sent. |
| Search.StripDollar | src/app/search/page.tsx:33 | `replace('$', '')` removes only the first '$'. |
| Search.StripDollarKeepsUpperDollar | src/app/search/page.tsx:33 | Concretely, "$20 - $100" becomes "20 - $100" and "$100 - $200" becomes "100 - $200". |
| Search.FirstRangeKeepsUpperDollar | src/app/search/page.tsx:30-35 | With "$20 - $100" applied first, the request's min and max are the parse of "20 - $100", so the upper bound is parsed from "$100". |
| Search.StripAllDollars | src/app/search/page.tsx:33 | No '$' remains. The result is a subsequence of the input. Every other character keeps exactly as many copies as the input has. |
| Search.StripAllDollarsRange | src/app/search/page.tsx:33 | A label "$lo - $hi" whose bounds have no '$' becomes "lo - hi", so both bounds reach the parse as plain text. |
| Search.StripAllDollarsLabels | src/app/search/page.tsx:33 | The two range labels become "20 - 100" and "100 - 200". |
| Catalog.NameFilter | src/components/search/SearchBar.tsx:30-32 | Keeps exactly the products whose lower-cased name includes the lower-cased query, in order, with every copy of a matching product. |
| Catalog.NameFilterEmptyQuery | src/components/search/SearchBar.tsx:30-32 | An empty query keeps every product. |
| SearchBar.SearchBox.constructor | src/components/search/SearchBar.tsx:10-13 | Starts with an empty query, closed, no products, loading. |
| SearchBar.SearchBox.FilteredProducts | src/components/search/SearchBar.tsx:30-32 | The loaded products whose names match the query, in order, with every copy of a matching product. An empty query keeps all of them. |
| SearchBar.SearchBox.LoadProducts | src/components/search/SearchBar.tsx:15-28 | The response, or [] on failure. Loading ends. |
| SearchBar.SearchBox.OnChange | src/components/search/SearchBar.tsx:40-43 | Sets the query and opens the box. The dropdown shows exactly for a non-empty query. |
| SearchBar.SearchBox.OnFocus | src/components/search/SearchBar.tsx:46 | Opens the box. The dropdown shows exactly when the query is non-empty. |
| SearchBar.SearchBox.ChooseResult | src/components/search/SearchBar.tsx:58-61 | Closes the box and clears the query, which hides the dropdown. |
| ProductCard.MainImage | src/components/product/ProductCard.tsx:18-19 | None without images. The first main image's url when non-empty, else the first image's url. |
| ProductCard.ToggleWishlist | src/components/product/ProductCard.tsx:21-27 | The product's listed status flips. An absent product is appended alone. A listed one is removed by the wishlist's own filter, which keeps the other entries in order. Unique ids stay unique. |
| ProductCard.ToggleTwice | src/components/product/ProductCard.tsx:21-27 | Two clicks restore the listed status. They restore the list itself when the product was absent. |
| ProductCard.HandleWishlist | src/components/product/ProductCard.tsx:21-27 | The store's list becomes `ToggleWishlist` of the old list, and `isInWishlist` flips. |
| SimilarProducts.Others | src/components/product/SimilarProducts.tsx:13-14 | Every product with a different id, in order, with all its copies, and never the current one. |
| SimilarProducts.Similar | src/components/product/SimilarProducts.tsx:13-15 | The first min(4, n) of the other products, never the current one. A catalogue holding only the current id gives nothing. |
| WishlistPage.FilteredItems | src/app/wishlist/page.tsx:21-25 | The items whose names match the query. An empty query keeps the whole list. |
| WishlistPage.HandleRemoveItem | src/app/wishlist/page.tsx:27-33 | Removes the item and reports a toast. |
| WishlistPage.HandleAddToCart | src/app/wishlist/page.tsx:35-41 | Adds the item to the cart as `addItem` does and leaves the wishlist unchanged. A balanced cart stays balanced when the stored price agrees. The "Added to cart" toast is reported. |
| WishlistPage.HandleClearWishlist | src/app/wishlist/page.tsx:43-50 | Empties the wishlist. A toast is shown exactly when it was non-empty. |
| AddCard.CardType | src/components/payment/add-card-modal.tsx:80-92 | A first digit 4 gives "visa", 5 "mastercard", 3 "amex" and 6 "discover". "generic" exactly for an empty number or one starting with anything else. |
| AddCard.CardTypeFirstCharOnly | src/components/payment/add-card-modal.tsx:80-92 | Only the first character decides the brand. |
| AddCard.Last4 | src/components/payment/add-card-modal.tsx:63 | The last min(4, length) characters of the number, a suffix of it. |
| AddCard.BuildCardData | src/components/payment/add-card-modal.tsx:60-68 | The record carries the brand, the last four, the name and the default flag, with the given id and expiry. |
| AddCard.CardDataForgetsSecrets | src/components/payment/add-card-modal.tsx:60-68 | Two forms that agree on the first digit, the last four, the name and the default flag give the same record. Neither the full number nor the CVV is kept. |

## Left out

- Persistence: the stores' `persist` to local storage and their rehydration are not modelled.
- Network: every backend call is a parameter, either a response `Option` or an `ok` flag. The shape of the HTTP request and the axios instance are not modelled.
- URL encoding: the query is a sequence of key/value pairs, and `URLSearchParams` percent-encoding and serialization are not modelled.
- `getProduct` and `getCategories` are single requests with no logic and are not modelled.
- Floating point: prices are integer cents and the tax is an exact `real`. `formatPrice` rounding is not modelled.
- Timers: the `setTimeout` delays in `handlePlaceOrder` and `handleSubmit` are taken as immediate.
- Randomness: `Math.random()` is the parameter `r` in [0, 1).
- Clock: `Date.now()` in the card id is the given `id`.
- Number parsing: `parseInt` of the expiry is given as integers.
- Search.PriceFilter: `split(' - ').map(Number)` on a price label is the parameter `parse`. The model does not compute which bounds come out NaN. It does compute the `replace('$', '')` before it, so the request shows which text each bound is parsed from.
- Text.LowerChar: lower-cases ASCII letters only, not all of Unicode.
- Strings are sequences of characters, so UTF-16 surrogate pairs count as one character.
- Auth.ApplyProfile: with no signed-in user, the source builds a partial object with undefined id and email. The model fills those with "".
- React effects, re-rendering and the router are not modelled. Toasts appear only as returned flags, and the empty-cart redirect only as the `EmptyCartRedirect` predicate.
- The search page's `priceRange` and `page` state is never changed by the page, so the model fixes it at its initial values. `sortBy` changes but is never sent. The results grid is display only.
- `ShowsBasePrice` (the struck-through base price) is a display predicate without a contract.
- The cart components `Cart.tsx` and `CartItem.tsx` only call the cart store and are not part of this model.
- The add-card dialog's input handlers and its loading and close flags are plain record updates around `onAdd`. Only the record it builds is modelled.
- Product fields not read by the core are not modelled: description, category, sizes, ratings and the like.

## Findings

| source | as written | input that shows it | evidently intended | confidence | as-written member | corrected member |
|---|---|---|---|---|---|---|
| src/app/search/page.tsx:33 | `f.replace('$', '')` removes only the first '$' of a price label. The upper bound keeps its '$', `Number` turns it into NaN, and `getProducts` drops a NaN `maxPrice`. | The filter "$20 - $100" becomes "20 - $100", so max = Number("$100") = NaN. Likewise "$100 - $200". | Strip every '$' so that both bounds parse (`replaceAll`). | not executed | Search.StripDollarKeepsUpperDollar | Search.StripAllDollars |
