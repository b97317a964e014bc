# STRIX storefront: a Dafny model of its client-side logic

STRIX is a clothing storefront built with Next.js and a hosted Postgres back end. Its
business logic lives in React components and in two cart providers. This project models
that logic in Dafny and proves what it promises:

- **The two cart stores.**
  - `AppCart.CartStore` models `src/app/context/CartContext.tsx`: a line list keyed by
    variant id, kept in the browser's local storage.
  - `CouponCart.Store` models `src/context/CartContext.tsx`: the same list plus one
    optional coupon.
  - Both build on the shared list operations of `CartLines`: merge on add, remove by
    variant, set a quantity, totals.
- **The checkout page** (`Checkout`): the price formula, the shipping and payment
  validators, the three-step wizard, and the order commit over the coupon store.
- **The catalog page** (`Catalog`):
  - the reactive filter pipeline and the subcategory reset;
  - the filter buttons;
  - the stock counts per colour and size, with the nested loops that build them;
  - the per-category counts, the price-range fallback, the grid column count and the
    contrast colour of a swatch.
- **The product card** (`ProductCard`): the quick-add cart line and the swatch and size
  overflow counts.
- **The sign-in / registration page** (`AuthPage`).
- **The admin dashboard** (`AdminDashboard`).
- **The order history** (`OrderHistory`).
- **The user administration page** (`AdminUsers`).
- **The new wholesale order page** (`WholesaleOrder`).
- **The new product page** (`NewProduct`).

Helper modules hold the JavaScript semantics the pages rely on:

- `Wrappers`: `Option`.
- `Seqs`: `filter` and order-preserving subsequences.
- `Text`: `trim`, `\s`, `\d`, `toLowerCase`, `includes`.
- `Decimal`: `String(n)` and its inverse.
- `Selection`: the shared "click again to deselect" toggle.

Remote calls (inserts, updates, sign-in) are not executed. Each becomes a parameter: the
outcome the page receives. The state it leaves behind is what the contracts state. The
clock (`new Date()`) is also a parameter (`now`). `Number(text)` on form input is the
parameter `numberOf`. Each page records the requests it issues as a sequence field
(`headerWrites`, `inserts`, `updates`, `calls`), so a contract can say exactly what was
sent.

Both cart providers declare the same `CartItem` interface. They also share the same list
transforms for add, remove and update. `CartLines` therefore defines these once, and the
class in each store module applies them.

The redirect rules are plain predicates:

- `Checkout.CheckoutPage.ShouldRedirect`, the empty-cart redirect of
  `src/app/carrito/checkout/page.tsx:68-72`;
- `OrderHistory.RedirectToAuth`, the signed-out redirect of
  `src/app/perfil/historial/page.tsx:37`.

Behaviours of the code worth knowing:

- A fixed-amount coupon is not clamped to the subtotal, and the total is not floored at
  0. So a total can be negative (`Checkout.FixedDiscountNegativeTotal`).
- When the order commit fails, the wizard stays on step 3. It does not return to the
  payment step.
- `updateQuantity` with a quantity below 1 is ignored by the coupon store but clamped to 1
  by the other store.
- The coupon's `minimo` field is declared but never read, so no minimum-subtotal check is
  modelled.

## Model

| member | source | states |
|---|---|---|
| CartLines.HasVariantIff | src/app/context/CartContext.tsx:67 | the recursive "some line has variant v" predicate holds exactly when some index carries v |
| CartLines.UniqueVariantsIff | src/app/context/CartContext.tsx:64-98 | the recursive uniqueness predicate holds exactly when no two distinct positions share a variant id |
| CartLines.FindIndex | src/app/context/CartContext.tsx:67 | `findIndex`: -1 exactly when no line has the variant, otherwise the first position holding it |
| CartLines.AddLine | src/app/context/CartContext.tsx:64-78 | a present variant keeps the length and order and raises only that line's quantity by the added amount; an absent one is appended last; one line per variant and quantities >= 1 are kept; the count rises by the added quantity and the total by precio × cantidad |
| CartLines.RemoveVariant | src/app/context/CartContext.tsx:82 | an order-preserving subsequence holding exactly the lines of other variants; the variant is gone; identity when absent; uniqueness and positivity kept |
| CartLines.SetQuantity | src/app/context/CartContext.tsx:90-98 | same length; lines of the variant get the quantity and all others are untouched; the set of variants is unchanged; identity for an unknown variant; uniqueness kept, positivity kept for q >= 1 |
| CartLines.RemoveAbsent | src/app/context/CartContext.tsx:82 | filtering out a variant that is not in the list changes nothing |
| CartLines.SumsNonNegative | src/app/context/CartContext.tsx:107-113 | with non-negative prices and quantities the total and the count are non-negative |
| CartLines.RemovePresentVariant | src/app/context/CartContext.tsx:82 | in a list with one line per variant, removing a present variant drops exactly one line and its quantity from the count |
| CartLines.AddThenRemove | src/app/context/CartContext.tsx:75-82 | removing a variant just appended by an add gives back the list before the add |
| CartLines.SetQuantityIdempotent | src/app/context/CartContext.tsx:90-98 | setting the same quantity twice equals setting it once |
| CartLines.CountAppend | src/app/context/CartContext.tsx:111-113 | the item count of a concatenation is the sum of the counts |
| CartLines.TotalAppend | src/app/context/CartContext.tsx:107-109 | the total of a concatenation is the sum of the totals |
| CartLines.MergeTotal | src/app/context/CartContext.tsx:71-73 | raising one line's quantity by b raises the total by its price × b |
| AppCart.SaveEffect | src/app/context/CartContext.tsx:58-62 | the save effect: a non-empty list is written under the key, an empty one leaves storage as it was |
| AppCart.CartStore.constructor | src/app/context/CartContext.tsx:43-55 | a parsed saved cart becomes the list and stays stored; missing or unreadable text gives an empty cart with nothing stored |
| AppCart.CartStore.AddToCart | src/app/context/CartContext.tsx:58-79 | the list becomes the merge of the item and is written to storage; the store invariant is kept |
| AppCart.CartStore.RemoveFromCart | src/app/context/CartContext.tsx:81-88 | the list loses the variant's lines; the stored copy is removed when the list had one line before the call, and the save effect writes back a non-empty result; removing the only line leaves an empty list and nothing stored |
| AppCart.CartStore.UpdateQuantity | src/app/context/CartContext.tsx:90-98 | the variant's lines get max(1, cantidad); a non-empty result is stored; the invariants are kept |
| AppCart.CartStore.ClearCart | src/app/context/CartContext.tsx:100-105 | empty list and no stored copy |
| AppCart.CartStore.GetCartTotal | src/app/context/CartContext.tsx:107-109 | 0 on an empty cart, and non-negative for non-negative prices and quantities |
| AppCart.CartStore.GetItemsCount | src/app/context/CartContext.tsx:111-113 | 0 on an empty cart, and at least the number of lines when every quantity is >= 1 |
| AppCart.CountAtLeastLength | src/app/context/CartContext.tsx:111-113 | with quantities >= 1 the item count is at least the number of lines |
| CouponCart.Store.constructor | src/context/CartContext.tsx:41-43 | empty cart, no coupon |
| CouponCart.Store.AddToCart | src/context/CartContext.tsx:45-55 | the cart becomes the merge of the item; the coupon is unchanged; one line per variant and positive quantities are kept |
| CouponCart.Store.RemoveFromCart | src/context/CartContext.tsx:57-59 | the cart loses exactly the variant's lines, in order; the coupon is unchanged |
| CouponCart.Store.UpdateQuantity | src/context/CartContext.tsx:61-68 | a quantity below 1 leaves the cart as it is; otherwise the variant's lines get exactly that quantity; the coupon is unchanged |
| CouponCart.Store.ApplyCoupon | src/context/CartContext.tsx:70-72 | the new coupon replaces any previous one; the cart is unchanged |
| CouponCart.Store.RemoveCoupon | src/context/CartContext.tsx:74-76 | no coupon; the cart is unchanged |
| CouponCart.Store.ClearCart | src/context/CartContext.tsx:78-81 | empty cart and no coupon |
| Checkout.Descuento | src/app/carrito/checkout/page.tsx:58-62 | the discount of the order: 0 without a coupon, `subtotal * descuento / 100` for a 'porcentaje' coupon, the coupon's amount as it stands otherwise; its bounds are stated by `NoCouponTotal`, `PercentageDiscountBounds` and `FixedDiscountUnclamped` |
| Checkout.NoCouponTotal | src/app/carrito/checkout/page.tsx:58-65 | without a coupon the discount is 0 and the total is Σ precio × cantidad + 500 |
| Checkout.PercentageDiscountBounds | src/app/carrito/checkout/page.tsx:59-65 | a 'porcentaje' coupon of 0..100 on a non-negative subtotal takes off between 0 and the subtotal, so the total lies between 500 and subtotal + 500 |
| Checkout.FixedDiscountUnclamped | src/app/carrito/checkout/page.tsx:59-65 | a 'monto' coupon is taken off as it stands: the total drops below 500 exactly when the amount exceeds the subtotal, and below 0 exactly when it exceeds subtotal + 500 |
| Checkout.FixedDiscountNegativeTotal | src/app/carrito/checkout/page.tsx:59-65 | a subtotal of 300 with a fixed coupon of 1000 gives a total of -200 |
| Checkout.ValidShipping | src/app/carrito/checkout/page.tsx:84-97 | `validarFormularioEnvio`: all eight fields non-blank after `trim` and an '@' in the e-mail; `ValidShippingIff` states it character by character |
| Checkout.ValidShippingIff | src/app/carrito/checkout/page.tsx:84-97 | the shipping form is valid exactly when all eight fields hold a non-space character and the email holds an '@' |
| Checkout.StripSpaces | src/app/carrito/checkout/page.tsx:103 | `replace(/\s/g, '')` gives an order-preserving subsequence with no white space that holds every character of the input that is not white space |
| Checkout.StripSpacesCounts | src/app/carrito/checkout/page.tsx:103 | every occurrence of a non-space character is kept and every white-space one removed, so the stripped text is fixed up to order too |
| Checkout.StripSpacesJoin | src/app/carrito/checkout/page.tsx:103 | a space between two card-number groups does not change the stripped number |
| Checkout.StripSpacesNoSpace | src/app/carrito/checkout/page.tsx:103 | a number without white space is counted as it stands |
| Checkout.ValidPayment | src/app/carrito/checkout/page.tsx:99-107 | `validarFormularioPago`: a non-blank holder, sixteen card characters once white space is removed, an expiry matching `^\d{2}\/\d{2}$`, a code of three or more characters; `ValidPaymentIff` states it character by character |
| Checkout.ValidPaymentIff | src/app/carrito/checkout/page.tsx:99-107 | the payment form is valid exactly when the holder is non-blank, the card number has 16 characters once white space is removed, the expiry is two digits, '/', two digits, and the code has at least 3 characters |
| Checkout.Advance | src/app/carrito/checkout/page.tsx:110-118 | `avanzarPaso`: step 1 moves to 2 on a valid shipping form, step 2 to 3 on a valid payment form, any other step stays; `AdvanceSpec` states the one-step bound |
| Checkout.Retreat | src/app/carrito/checkout/page.tsx:120-125 | `retrocederPaso`: 3 goes to 2, 2 goes to 1, step 1 stays; `RetreatSpec` states it |
| Checkout.AdvanceSpec | src/app/carrito/checkout/page.tsx:110-118 | advancing moves at most one step: 1→2 exactly on a valid shipping form, 2→3 exactly on a valid payment form, and 3 stays 3 |
| Checkout.RetreatSpec | src/app/carrito/checkout/page.tsx:120-125 | 3→2, 2→1, 1→1, and going back undoes a successful advance |
| Checkout.CheckoutPage.AvanzarPaso | src/app/carrito/checkout/page.tsx:110-118 | only the step changes, as the advance rule says; the forms are untouched |
| Checkout.CheckoutPage.RetrocederPaso | src/app/carrito/checkout/page.tsx:120-125 | only the step changes, as the retreat rule says; the forms are untouched |
| Checkout.ShownId | src/app/carrito/checkout/page.tsx:158-160 | a string id is shown as it is, a non-zero number through `String`, and null exactly for a missing or zero id |
| Checkout.ShownIdFaithful | src/app/carrito/checkout/page.tsx:158-160 | distinct non-zero numeric ids are shown differently, and the shown text parses back to the id |
| Checkout.HeaderFor | src/app/carrito/checkout/page.tsx:135-147 | the `orders` header of the commit: state 'pendiente', the order total, type 'minorista', the clock's time, the customer's name, e-mail, phone and address built from the shipping form, the coupon code or null, and the discount or null when it is not positive; `HeaderFields` states each field |
| Checkout.HeaderFields | src/app/carrito/checkout/page.tsx:135-147 | the header is a pending retail order for subtotal − descuento + 500; it names the coupon exactly when there is one, and records the discount exactly when it is positive |
| Checkout.ItemRows | src/app/carrito/checkout/page.tsx:163-171 | one row per cart line, in cart order, with that line's product, variant, quantity, price, colour and size and the new order's id |
| Checkout.CheckoutPage.ShouldRedirect | src/app/carrito/checkout/page.tsx:68-72 | the page leaves for the cart exactly when the cart is empty and no order has been completed |
| Checkout.CheckoutPage.constructor | src/app/carrito/checkout/page.tsx:13-55 | step 1, not loading, no error, no order, empty forms |
| Checkout.CheckoutPage.FinalizarCompra | src/app/carrito/checkout/page.tsx:127-190 | the header is always sent; a header error or exception sets its message, sends no items and leaves the cart, the coupon and the order flags untouched; an items failure keeps the cart but the order id is already set; success sends every line, clears the cart and the coupon and marks the order complete, so the empty-cart redirect does not fire; loading always ends false and the step stays where it was |
| Selection.ToggleSpec | src/app/catalogo/page.tsx:430-432 | clicking the selected id deselects it and clicking another selects that one; two clicks on the same id restore the state exactly when it was that id or nothing |
| Selection.Toggle | src/app/catalogo/page.tsx:430-432 | the shared `cur === id ? null : id` of every filter button and of the order history's expand button; `ToggleSpec` states what it does |
| Catalog.Keep | src/app/catalogo/page.tsx:236-273 | what a product needs to survive every stage of the filter effect: the selected category, subcategory, a stocked variant of the selected colour and of the selected size, and a price within the inclusive range |
| Catalog.ResetSubcategory | src/app/catalogo/page.tsx:240-248 | the filters are unchanged or lose only the subcategory; afterwards an active subcategory belongs to the active category; it changes exactly when both are active and the subcategory does not belong |
| Catalog.ResetSubcategoryIdempotent | src/app/catalogo/page.tsx:232-276 | the reset is settled after one pass, so the effect re-run it triggers changes no more |
| Catalog.Stage | src/app/catalogo/page.tsx:236-273 | one conditional `filter` of the effect: an order-preserving subsequence keeping every occurrence of exactly the products that pass when the stage is on |
| Catalog.StagesKeep | src/app/catalogo/page.tsx:236-273 | the five stages run one after another keep every occurrence of exactly the products that pass every active filter |
| Catalog.FiltrarProductos | src/app/catalogo/page.tsx:232-276 | the shown list is an order-preserving subsequence of the products, holding every occurrence of exactly those that pass every active filter (category, subcategory, stocked colour, stocked size, inclusive price range); the next filters are the reset ones |
| Catalog.PriceRangeInclusive | src/app/catalogo/page.tsx:271-273 | a product passing the other filters is kept exactly when lo <= precio <= hi |
| Catalog.ClickCategoria | src/app/catalogo/page.tsx:430-432 | the category button toggles `filtroCategoria` and leaves the other filters; `ClickSpec` states it |
| Catalog.ClickSubcategoria | src/app/catalogo/page.tsx:498-500 | the subcategory button toggles `filtroSubcategoria` and leaves the other filters; `ClickSpec` states it |
| Catalog.ClickColor | src/app/catalogo/page.tsx:643-645 | the colour button toggles `filtroColor` and leaves the other filters; `ClickSpec` states it |
| Catalog.ClickTalla | src/app/catalogo/page.tsx:565-567 | the size button toggles `filtroTalla` and leaves the other filters; `ClickSpec` states it |
| Catalog.SetPrecioMax | src/app/catalogo/page.tsx:361 | the price slider sets the upper bound only |
| Catalog.ClickSpec | src/app/catalogo/page.tsx:430-432 | each filter button changes only its own filter, deselecting the active id and selecting another; the price slider changes only the upper bound |
| Catalog.ResetPrecio | src/app/catalogo/page.tsx:389 | the price panel's reset button sets the range to `[0, precioMaximo]` and keeps the id filters |
| Catalog.ResetPrecioSpec | src/app/catalogo/page.tsx:389 | after the price reset every id filter is as before, the clear button is shown exactly when one of them is set, and a product is kept exactly when it passes the id filters and is priced within `[0, precioMaximo]` |
| Catalog.ClearFilters | src/app/catalogo/page.tsx:742-748 | the "clear" buttons set every id filter to null and the range to `[0, precioMaximo]` |
| Catalog.ShowClear | src/app/catalogo/page.tsx:734 | the clear button is shown exactly when an id filter is set, the lower bound is above 0 or the upper bound is below the maximum |
| Catalog.ClearFiltersSpec | src/app/catalogo/page.tsx:734-748 | after "clear" the clear button is hidden and a product is kept exactly when its price lies in [0, max] |
| Catalog.SubcategoriasFiltradas | src/app/catalogo/page.tsx:291-293 | with a category active, exactly that category's subcategories in order; otherwise all of them |
| Catalog.ResetKeepsOffered | src/app/catalogo/page.tsx:240-248 | with both filters active, the reset keeps the subcategory exactly when it is among the offered subcategories |
| Catalog.MaxPrecio | src/app/catalogo/page.tsx:92 | `Math.max` of a non-empty price list: an upper bound that is one of the prices |
| Catalog.PrecioMaximo | src/app/catalogo/page.tsx:92-94 | always positive; the highest price when some price is positive, otherwise 50000 |
| Catalog.LoadedFiltersKeepAll | src/app/catalogo/page.tsx:92-94 | with non-negative prices, the filters set after loading keep every product |
| Catalog.ContarVariantes | src/app/catalogo/page.tsx:173-192 | the nested loops build sets equal to the maps' keys and maps whose count for an id is the number of stocked variants with that colour (size) across all products; an id is present exactly when that number is positive |
| Catalog.TallyVariant | src/app/catalogo/page.tsx:181-190 | counting one more variant keeps the count maps in step with the variants visited so far |
| Catalog.TallyProduct | src/app/catalogo/page.tsx:180-192 | finishing a product's variants moves it into the counted prefix |
| Catalog.StockCountPositive | src/app/catalogo/page.tsx:180-192 | a colour (size) count is positive exactly when some product has a stocked variant of it |
| Catalog.VariantCountPositive | src/app/catalogo/page.tsx:181-191 | within one product, the count is positive exactly when a stocked variant of that colour (size) exists |
| Catalog.WithCounts | src/app/catalogo/page.tsx:195-211 | the listed entries are palette entries whose id was used, each with its count, and every used palette entry is listed; order and multiplicity are stated by `WithCountsFilter` |
| Catalog.WithCountsFilter | src/app/catalogo/page.tsx:195-211 | the listed entries are, position by position, the palette filtered by use: palette order is kept and each entry is listed as often as it occurs in the palette |
| Catalog.ListedColors | src/app/catalogo/page.tsx:195-202 | the listed colours are exactly the palette colours with a stocked variant, in palette order and listed once per palette occurrence, each with its positive count |
| Catalog.ListedSizes | src/app/catalogo/page.tsx:205-211 | the listed sizes are exactly the sizes with a stocked variant, in palette order and listed once per palette occurrence, each with its positive count |
| Catalog.ConteoCategoria | src/app/catalogo/page.tsx:281 | a category's count never exceeds the number of products |
| Catalog.ConteoSubcategoria | src/app/catalogo/page.tsx:287 | a subcategory's count never exceeds the number of products |
| Catalog.ConteoCategorias | src/app/catalogo/page.tsx:279-282 | every category, in order, paired with its product count |
| Catalog.ConteoCategoriaSpec | src/app/catalogo/page.tsx:281 | a category's count is positive exactly when some product is in it |
| Catalog.Columnas | src/app/catalogo/page.tsx:296-302 | 2 to 4 columns: 4 exactly for the small view, 2 exactly for the large one |
| Catalog.Channel | src/app/catalogo/page.tsx:307-309 | each parsed colour channel is below 256 |
| Catalog.ContrastColor | src/app/catalogo/page.tsx:305-316 | `getContrastColor`: the YIQ brightness `(299 r + 587 g + 114 b) / 1000` of a `#rrggbb` colour picks black text from 128 up and white below; `ContrastColorThreshold` and `ContrastColorExtremes` state it |
| Catalog.ContrastColorThreshold | src/app/catalogo/page.tsx:305-316 | '#000' exactly when r·299 + g·587 + b·114 >= 128000, and '#fff' otherwise |
| Catalog.ContrastColorExtremes | src/app/catalogo/page.tsx:305-316 | white gets black text and black gets white text |
| ProductCard.QuickAddItem | src/components/ProductCard.tsx:43-51 | the line the card's quick-add button passes to `addToCart`; `QuickAddItemSpec` states each field |
| ProductCard.QuickAddItemSpec | src/components/ProductCard.tsx:43-51 | the quick-add line has variant id × 100, the card's product id, name and price, size "Única", one unit, and the first colour or "Estándar" / "#000000"; two cards give the same variant id exactly when they are the same product |
| ProductCard.QuickAddTwice | src/components/ProductCard.tsx:43-51 | quick-adding the same card twice to a cart without that line yields one new last line with quantity 2 |
| ProductCard.Shown | src/components/ProductCard.tsx:126-156 | at most `limit` entries are shown, a "+k" badge appears exactly when there are more, and shown + k is the whole list |
| ProductCard.Swatches | src/components/ProductCard.tsx:117-156 | no swatches exactly when there are no colours; otherwise min(n, 4) swatches plus the rest in the badge |
| ProductCard.SizeChips | src/components/ProductCard.tsx:233-249 | no chips exactly when sizes are missing or empty; otherwise min(m, 5) chips plus the rest in the badge |
| AuthPage.RegistrationCheck | src/app/auth/page.tsx:42-52 | the two registration checks in order: mismatched passwords first, then a password shorter than six characters; `RegistrationCheckSpec` states when each error is given |
| AuthPage.RegistrationCheckSpec | src/app/auth/page.tsx:42-52 | sign-up may proceed exactly when the passwords match and have at least 6 characters; a mismatch is reported first, even for a short password |
| AuthPage.Page.constructor | src/app/auth/page.tsx:9-15 | login mode with empty fields and no messages |
| AuthPage.Page.HandleSubmit | src/app/auth/page.tsx:26-73 | login always calls sign-in and keeps the fields; registration with a failed check makes no call and shows the check's message; otherwise it calls sign-up and on success clears email, password and confirmation; an error shows its message or the mode's fallback; loading ends false |
| AuthPage.Page.SwitchForm | src/app/auth/page.tsx:92-97 | the mode flips; error, success and confirmation are cleared; email and password are kept |
| AdminDashboard.ComputeStats | src/app/admin/page.tsx:20-29 | the four dashboard statistics from the three query results, a null result read as an empty list; the lemmas below state each sum |
| AdminDashboard.NullDataGivesZero | src/app/admin/page.tsx:20-29 | null query data gives 0 for every statistic |
| AdminDashboard.PaidTotalAppend | src/app/admin/page.tsx:21 | the money total of two order lists is the sum of their totals |
| AdminDashboard.PaidTotalOne | src/app/admin/page.tsx:21 | one order adds its total (or 0) exactly when it is 'pagado' or 'entregado', and nothing otherwise |
| AdminDashboard.ProductSumsAppend | src/app/admin/page.tsx:24-25 | stock and stock value add up list by list |
| AdminDashboard.SumsNonNegative | src/app/admin/page.tsx:21-25 | with non-negative numbers all three sums are non-negative |
| AdminDashboard.UsuariosOnlineSpec | src/app/admin/page.tsx:27-29 | a profile counts as online exactly when `updated_at` is set and now − updated_at < 300000 ms; the count is at most the number of profiles |
| OrderHistory.RedirectToAuth | src/app/perfil/historial/page.tsx:37 | the page sends the visitor to `/auth` exactly when authentication has finished loading and nobody is signed in |
| OrderHistory.StatusColor | src/app/perfil/historial/page.tsx:64-79 | `getStatusColor`: the colour of the lower-cased state; `StatusColorTable` states the table |
| OrderHistory.StatusColorCaseInsensitive | src/app/perfil/historial/page.tsx:64-65 | the colour of a status equals the colour of its lower-case form |
| OrderHistory.StatusColorTable | src/app/perfil/historial/page.tsx:64-79 | pendiente, procesando, enviado, entregado and cancelado, in any case, get #FFB547, #2196F3, #4CAF50, #8BC34A and #FF5252, and each colour only for its status; every other status gets #a259ff |
| OrderHistory.UpperCaseStatus | src/app/perfil/historial/page.tsx:65-67 | "PENDIENTE" is shown as pending |
| OrderHistory.ItemsOf | src/app/perfil/historial/page.tsx:355 | an order's items are the order-preserving subsequence of items whose order id is the order's |
| OrderHistory.ItemsOfDisjoint | src/app/perfil/historial/page.tsx:385 | two different orders share no item, and their counts together never exceed the number of items |
| OrderHistory.ClickOrder | src/app/perfil/historial/page.tsx:286 | the order row's button toggles the expanded order id; `OneOrderExpanded` states what two clicks give |
| OrderHistory.OneOrderExpanded | src/app/perfil/historial/page.tsx:286 | clicking a second order expands it alone; clicking the same order twice leaves it expanded exactly when it was expanded before, and collapses any other |
| AdminUsers.UsuariosFiltrados | src/app/admin/usuarios/page.tsx:89-92 | an order-preserving subsequence keeping exactly the users whose lower-cased email or name contains the lower-cased query |
| AdminUsers.EmptySearch | src/app/admin/usuarios/page.tsx:89-92 | an empty query keeps exactly the users that have an email or a name |
| AdminUsers.SearchCaseInsensitive | src/app/admin/usuarios/page.tsx:89-92 | the result does not depend on the letter case of the query |
| AdminUsers.SavePayload | src/app/admin/usuarios/page.tsx:94-105 | the update holds exactly the form's values for the eight profile columns |
| AdminUsers.SavePayloadDropsOthers | src/app/admin/usuarios/page.tsx:94-105 | edits to any other field (email, rol, activo) never reach the update |
| AdminUsers.EditModal.constructor | src/app/admin/usuarios/page.tsx:6-9 | the form starts as the user's record, with no error |
| AdminUsers.EditModal.HandleChange | src/app/admin/usuarios/page.tsx:11-13 | only the named field changes |
| AdminUsers.EditModal.HandleSubmit | src/app/admin/usuarios/page.tsx:15-26 | sends the projected update keyed by the id; a failure shows "Error al guardar cambios" and keeps the modal open; success closes it; saving ends false |
| WholesaleOrder.HeaderFor | src/app/admin/mayoristas/nuevo/page.tsx:29-36 | the `wholesale_orders` header: supplier, state and notes as typed, the date or the clock's time when it is empty, the total or null when it is empty |
| WholesaleOrder.RowsFor | src/app/admin/mayoristas/nuevo/page.tsx:40-48 | the item rows the loop inserts: one per item with a product name, in order, each with the header's id; `RowsForSpec` and `RowsForSnoc` state it |
| WholesaleOrder.PayloadFields | src/app/admin/mayoristas/nuevo/page.tsx:29-47 | the header sends supplier, state and notes as typed, the date or `now` when blank, the total or null exactly when blank; an item row carries the header id, product and quantity, and the unit price or null exactly when blank |
| WholesaleOrder.RowsForSnoc | src/app/admin/mayoristas/nuevo/page.tsx:41-48 | one more item adds its row exactly when it has a product name |
| WholesaleOrder.RowsForSpec | src/app/admin/mayoristas/nuevo/page.tsx:41-48 | every inserted row carries the new header's id and a product name; every named item gets its row; a list of blank items inserts nothing |
| WholesaleOrder.CollectRows | src/app/admin/mayoristas/nuevo/page.tsx:41-48 | the loop with `continue` emits exactly the rows of the named items, in list order |
| WholesaleOrder.RemoveAt | src/app/admin/mayoristas/nuevo/page.tsx:23 | an index in range drops exactly that position and keeps the rest in order; any other index changes nothing |
| WholesaleOrder.Page.constructor | src/app/admin/mayoristas/nuevo/page.tsx:8-9 | the list starts with one blank item of quantity 1, and the status is 'pendiente' |
| WholesaleOrder.Page.HandleFormChange | src/app/admin/mayoristas/nuevo/page.tsx:13-15 | only the named field of the header form changes |
| WholesaleOrder.Page.HandleItemChange | src/app/admin/mayoristas/nuevo/page.tsx:17-20 | only the named field of item idx changes, and `cantidad` is stored as the number of the text |
| WholesaleOrder.Page.AddItem | src/app/admin/mayoristas/nuevo/page.tsx:22 | one blank item is appended |
| WholesaleOrder.Page.RemoveItem | src/app/admin/mayoristas/nuevo/page.tsx:23 | the item at idx is removed; with more than one item (the only case the button is shown) the list stays non-empty |
| WholesaleOrder.Page.HandleSubmit | src/app/admin/mayoristas/nuevo/page.tsx:25-54 | the header is always sent, with a blank total as null and a blank date as now; a header error shows the message, inserts no items and does not navigate; otherwise one row per named item is inserted and the page navigates, whatever the item inserts answer |
| NewProduct.SubcategoryOptions | src/app/admin/productos/nuevo/page.tsx:93-97 | an order-preserving subsequence of exactly the subcategories whose category id, as text, equals the selection |
| NewProduct.SubcategoryOptionsSpec | src/app/admin/productos/nuevo/page.tsx:93-97 | choosing category c offers exactly c's subcategories; with no category chosen nothing is offered |
| NewProduct.NumberOrNull | src/app/admin/productos/nuevo/page.tsx:55-56 | null exactly for an empty selection, otherwise the selection's number |
| NewProduct.Payload | src/app/admin/productos/nuevo/page.tsx:49-57 | the `products` row the form sends; `PayloadSpec` states each field |
| NewProduct.PayloadSpec | src/app/admin/productos/nuevo/page.tsx:49-57 | name and description are sent as typed, price and stock as numbers, and category and subcategory are null exactly when not chosen |
| NewProduct.Page.constructor | src/app/admin/productos/nuevo/page.tsx:13-26 | an empty form, not saving, no messages |
| NewProduct.Page.HandleChange | src/app/admin/productos/nuevo/page.tsx:39-41 | only the named field changes |
| NewProduct.Page.HandleSubmit | src/app/admin/productos/nuevo/page.tsx:43-72 | the payload of the form is sent; a failure shows the message and keeps the form; success sets `exito` and resets every field to ''; saving ends false |
| Text.NonBlankIff | src/app/carrito/checkout/page.tsx:87-95 | `s.trim() !== ''` exactly when s holds a non-space character |
| Text.Lower | src/app/perfil/historial/page.tsx:65 | `toLowerCase` keeps the length, maps each character, and leaves no upper-case ASCII letter |
| Text.LowerIdempotent | src/app/admin/usuarios/page.tsx:90-91 | lower-casing twice is lower-casing once |
| Text.IncludesIff | src/app/admin/usuarios/page.tsx:90-91 | `includes` holds exactly when the needle occurs at some position |
| Text.IncludesCharIff | src/app/carrito/checkout/page.tsx:95 | `includes('@')` holds exactly when the string contains '@' |
| Decimal.IntRoundTrip | src/app/carrito/checkout/page.tsx:159 | `String(n)` is a well-formed decimal numeral that parses back to n |
| Decimal.IntToStringInjective | src/app/admin/productos/nuevo/page.tsx:95 | `String(a) === String(b)` exactly when a == b |
| Seqs.FilterIsSubsequence | src/app/catalogo/page.tsx:237 | `filter` keeps an order-preserving subsequence |
| Seqs.FilterMultiplicity | src/app/catalogo/page.tsx:237 | `filter` keeps every occurrence of a kept element and none of a dropped one |
| Seqs.SubsequenceTrans | src/app/catalogo/page.tsx:233-273 | a subsequence of a subsequence is a subsequence, so chained filters keep the original order |

## Left out

- Remote calls: every query, insert, update and authentication call is replaced by the
  answer the page receives, given as a parameter. Reading lists from the server, and
  refreshing them after a save or delete, are not modelled.
- Local storage is modelled only as the `stored` field of `AppCart.CartStore`. JSON
  parsing is not modelled. A parsed value that is not a list of cart lines is not
  represented.
- `AppCart.CartStore.AddToCart` and `CouponCart.Store.AddToCart`: both sources increment
  the merged line in place through a shallow copy of the array
  (`updatedItems[existingItemIndex].cantidad +=` in src/app/context/CartContext.tsx:72, and
  `updated[idx].cantidad +=` in src/context/CartContext.tsx:49-51). That also
  mutates the line object of the previous state. The model works on values, so this
  aliasing is not captured.
- `AppCart.CartStore.constructor`: an empty string under the storage key is skipped
  without parsing and stays in storage. The model's `stored` field holds no text, so it
  records that case as `None`, like a missing key.
- Asynchrony: the order of `await` interleavings, the `disabled` double-submit guards,
  `setTimeout` redirects, and React's effect re-run timing are not modelled. This includes
  the second pass of the catalog filter effect after a subcategory reset, and the
  navigation after login, which is modelled as a flag.
- Rendering, animation, styling, images, `alert`, `window.scrollTo` and router
  navigation are left out. Navigation is a boolean field.
- Number formatting and parsing:
  - `Number()` of form text is the parameter `numberOf`.
  - `parseInt` of the price slider is taken as a real argument of `Catalog.SetPrecioMax`.
  - Floating-point rounding is not modelled: prices and sums are `real`.
  - NaN is not represented.
- `Catalog.ContrastColor`: requires a well-formed `#rrggbb`. The source also runs on other
  text, where `parseInt` yields NaN and the result is '#fff'. That case is not modelled.
- `Text.Lower`: `toLowerCase` is modelled for ASCII letters only, with no Unicode case
  mapping.
- String lengths count `char`s, not UTF-16 code units. This affects the password length,
  the card number length and the CVV length.
- `Checkout`: the `handleChangeEnvio` and `handleChangePago` field handlers
  (src/app/carrito/checkout/page.tsx:75-81) are not modelled. They are plain field
  updates of the forms.
- `Checkout.HeaderFor`: the header's `user_id` is always null and is not represented.
- `Catalog`: the per-subcategory counts feed only a display label. Only their bound
  (`Catalog.ConteoSubcategoria`) is stated. The per-card colour and size chips of the
  product grid (src/app/catalogo/page.tsx:1099-1103) are not modelled.
- `OrderHistory`: the shape of the joined product name (`products(nombre)`) is taken as
  already resolved.
- `WholesaleOrder.Page.HandleSubmit`: the date is passed as text. `new Date(fecha)` is
  not parsed.
- `NewProduct`: the loading flag and the category and subcategory fetches at mount are
  not modelled.
- Thin wrappers are not part of this model: the navigation bar, header, layouts, guards,
  the listing pages, the profile pages and the cart page's timer-driven checkout stub.
  Neither is its product detail page (src/app/catalogo/[id]/page.tsx).
