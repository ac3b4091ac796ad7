# Imagiro storefront: a Dafny model of the cart and the shop pages

Imagiro is a small origami storefront. This project models its logic in
Dafny and proves properties of that model:

- **Catalog** (`catalog.dfy`): the constant list of products and add-on
  materials, and the queries for featured products, a product by id, and
  products by category.
- **Cart store** (`cart.dfy`): the cart as an ordered list of lines, with:
  - adding a line, which merges into the first line holding the same product
    with the same selected materials;
  - removing a line, setting a line's quantity, and ticking or unticking a
    material on a line;
  - clearing the cart;
  - the unit count and the price total.
- **Product listing** (`listing.dfy`): the three filters applied in turn
  (search text, ticked categories, price range), the four sort orders, the
  category toggle, the reset of all filters, and adopting a category named in
  the address.
- **Product page** (`configurator.dfy`):
  - loading the product;
  - the material selection map and the add-on price computed from it;
  - the quantity controls;
  - the cart line the page builds, and the total the page shows.
- **Cart page** (`cartview.dfy`): the per-line total, shipping, the final
  total, the promo-code check and the quantity buttons.
- **Header** (`header.dfy`): the cart badge and the rule that marks the
  current navigation entry.

`seqs.dfy` and `strings.dfy` model the runtime operations the code relies
on:

- `Array.prototype.filter`;
- the stable `Array.prototype.sort`;
- `toLowerCase`, `includes` and `startsWith`;
- the default string order.

`wrappers.dfy` holds `Option`.

## Modelling choices

- **Money.** All money is in integer cents: 24.99 is 2499 and shipping is 499.
  The listing's price slider works in whole dollars (0 to 100), so a
  product passes when `low * 100 <= price <= high * 100`.
- **The cart store.** The store is the class `Cart.CartStore`. It has the
  live cart and, beside it, the snapshot written to browser storage after
  every change; its invariant is that the two agree. Each method is
  specified by a function from the old cart to the new one
  (`AddedToCart`, `RemovedFromCart`, `QuantityUpdated`, `MaterialToggled`),
  and the lemmas state what those functions promise.
- **Line matching.** `addToCart` compares two lines by filtering the
  selected material ids, sorting them and comparing the sorted lists. The
  model does exactly that (`SelectionKey`, which is insertion into a sorted
  list under the character-code order). A lemma shows that this test is
  equality of the multisets of selected ids.
- **Sorting.** The engine's stable sort is modelled as a stable insertion
  sort over a sequence value. A comparator `(a, b) => n` is read as
  "`a` is not after `b`" exactly when `n <= 0`. For a total preorder, a
  stable sort has only one possible result.
- **Strings.** `toLowerCase` lower-cases ASCII letters only.
  `localeCompare` in the name sort is replaced by the character-code
  order.
- **The product page.** Its state is a value (`DetailState`). The two loops
  that fill it, the initial selection map and the add-on price, are methods
  with loops, proved against the functions that specify them.
- **Unknown product id.** There is no separate not-found view: for an
  unknown id the loading effect sets no product and ends loading, and the
  page stays on its placeholder, which it shows whenever no product is set
  (`Configurator.LoadProduct`).
- **Side effects as inputs.** The line id that the product page generates
  is a parameter. Storage contents at start-up are a parameter
  (`Cart.Stored`: absent, malformed, or a list of lines).

## Model

| member | source | states |
|---|---|---|
| Catalog.Featured | src/data/products.ts:166-168 | every product returned is featured, every featured product is returned, and the result is a subsequence of the catalog (so in catalog order and no longer) |
| Catalog.InCategory | src/data/products.ts:174-176 | every product returned has the category, every product of the category is returned, the result is an ordered subsequence, and a category no product has yields nothing |
| Catalog.IndexOfId | src/data/products.ts:170-172 | the first position holding the id, or -1 exactly when no product has it |
| Catalog.FindById | src/data/products.ts:170-172 | the first product with the id, which is in the list; "not found" exactly when no product has the id |
| Catalog.FindByIdFindsEach | src/data/products.ts:170-172 | in a list with distinct ids, every product is found by its own id |
| Catalog.FeaturedProducts | src/data/products.ts:166-168 | `getFeaturedProducts` over the catalog; its content is stated by `Catalog.Featured` and `Catalog.FeaturedCatalogEntries` |
| Catalog.ProductsByCategory | src/data/products.ts:174-176 | `getProductsByCategory` over the catalog; its content is stated by `Catalog.InCategory` |
| Catalog.ProductById | src/data/products.ts:170-172 | `getProductById` over the catalog; stated by `Catalog.FindById`, `Catalog.ProductByIdFindsEveryProduct` and `Catalog.UnknownIdNotFound` |
| Catalog.CatalogIdsDistinct | src/data/products.ts:46-163 | no two catalog products share an id |
| Catalog.ProductByIdFindsEveryProduct | src/data/products.ts:46-172 | `getProductById(p.id)` is `p` for every catalog product |
| Catalog.UnknownIdNotFound | src/data/products.ts:170-172 | "not found" exactly for the ids no catalog product carries, "nonexistent" among them |
| Catalog.PricesNonNegative | src/data/products.ts:22-163 | every material price, every product price and every offered material's price is non-negative |
| Catalog.PricesWithinSlider | src/data/products.ts:46-163 | every product price lies between 0 and 100 dollars, the slider's full range |
| Catalog.FeaturedCatalogEntries | src/data/products.ts:46-163 | exactly the pistol, the crane, the wave and the bonsai are featured |
| Seqs.Filter | src/data/products.ts:166-176 | `filter` never lengthens a list |
| Seqs.FilterSpec | src/data/products.ts:166-176 | `filter` keeps exactly the accepted elements: each kept one is accepted and from the input, each accepted one is kept, and the result is an ordered subsequence and a sub-multiset |
| Seqs.FilterCounts | src/contexts/CartContext.tsx:116-117 | `filter` keeps every copy of an accepted element and drops every copy of a rejected one |
| Seqs.FilterTwice | src/pages/ProductsPage.tsx:44-65 | filtering in two stages is filtering once by the conjunction of both tests |
| Seqs.FilterKeepsAll | src/pages/ProductsPage.tsx:47-60 | a filter that accepts every element leaves the list unchanged |
| Seqs.FilterAppend | src/pages/ProductsPage.tsx:93-99 | filtering a concatenation filters each part |
| Seqs.FilterPairwise | src/contexts/CartContext.tsx:116-117 | a relation between every earlier and later element survives filtering |
| Seqs.InsertionSortPermutes | src/pages/ProductsPage.tsx:67-87 | sorting only rearranges: same multiset |
| Seqs.InsertionSortSorted | src/pages/ProductsPage.tsx:67-87 | for a total preorder, the result of the stable sort is ordered |
| Seqs.SortedUnique | src/contexts/CartContext.tsx:83-89 | for an antisymmetric order, two sorted lists with the same multiset are equal |
| Seqs.SortByClass | src/pages/ProductsPage.tsx:78-86 | a comparator that ranks one class ahead and ties everything else sorts to that class in original order followed by the rest in original order |
| Strings.LexLeIsTotalOrder | src/contexts/CartContext.tsx:83-84 | the default string order is total, transitive and antisymmetric |
| Strings.LowerChar | src/pages/ProductsPage.tsx:48-53 | the result is never an upper-case letter; upper-case letters move by 32, everything else is kept |
| Strings.ToLower | src/pages/ProductsPage.tsx:48-53 | same length, and each character is lower-cased |
| Strings.ToLowerIdempotent | src/pages/ProductsPage.tsx:48-53 | lower-casing twice is lower-casing once |
| Strings.ContainsIffOccurs | src/pages/ProductsPage.tsx:51-53 | `includes` holds exactly when the term occurs at some position |
| Cart.SameSelection | src/contexts/CartContext.tsx:83-89 | the sorted selected-id lists are equal; `Cart.SameSelectionIffSameMultiset` states what that means |
| Cart.Matches | src/contexts/CartContext.tsx:79-90 | same product and same selection; `Cart.FindMatch` finds the first such line and `Cart.AddKeepsConfigurationsDistinct` uses it |
| Cart.AddedToCart | src/contexts/CartContext.tsx:76-111 | `addToCart`'s new cart; its behaviour is stated by `Cart.AddMergesIntoFirstMatch`, `Cart.AddAppendsWhenNoMatch` and `Cart.AddToCartTotalItems` |
| Cart.TotalItems | src/contexts/CartContext.tsx:58 | `totalItems`; stated by `Cart.TotalItemsAppend`, `Cart.TotalItemsAtLeastLines` and `Header.CartItemCountIsTotalItems` |
| Cart.LineTotal | src/contexts/CartContext.tsx:62-71 | one line's share of `totalPrice`; stated by `Cart.LineTotalIsUnitPriceTimesQuantity` |
| Cart.TotalPrice | src/contexts/CartContext.tsx:61-73 | `totalPrice`; stated by `Cart.TotalPriceAppend`, `Cart.TotalPriceNonNegative` and `CartView.ItemTotalsAddUpToTotalPrice` |
| Cart.SelectionKeyIsSortedSelection | src/contexts/CartContext.tsx:83-84 | the matching key is the selected ids, filtered in line order and then sorted |
| Cart.SameSelectionIffSameMultiset | src/contexts/CartContext.tsx:79-90 | the sorted-list comparison holds exactly when both lines select the same multiset of material ids |
| Cart.FindMatch | src/contexts/CartContext.tsx:79-90 | the first matching line's index, or -1 exactly when no line matches |
| Cart.RemovedFromCart | src/contexts/CartContext.tsx:116-117 | no remaining line has the id, every other line stays with all its copies, nothing new appears, the order is kept, and an absent id changes nothing |
| Cart.QuantityUpdated | src/contexts/CartContext.tsx:126-136 | a quantity of 0 or less is removal; otherwise the length is kept, the lines with the id get exactly that quantity, and no other field or line changes |
| Cart.MaterialToggled | src/contexts/CartContext.tsx:139-154 | the length and every line field except the materials are kept; a material's flag flips exactly when it is the named material of the named line; nothing else changes |
| Cart.SurchargeFactors | src/contexts/CartContext.tsx:61-73 | adding each selected material times the quantity equals the selected prices' sum times the quantity |
| Cart.LineTotalIsUnitPriceTimesQuantity | src/contexts/CartContext.tsx:61-73 | a line costs (base price + selected material prices) times its quantity |
| Cart.UnselectedMaterialsCostNothing | src/contexts/CartContext.tsx:66-70 | with nothing selected the materials add nothing |
| Cart.TotalItemsAppend | src/contexts/CartContext.tsx:58 | appending a line adds its quantity to the unit count |
| Cart.TotalPriceAppend | src/contexts/CartContext.tsx:61-73 | appending a line adds its line total to the price |
| Cart.TotalItemsReplace | src/contexts/CartContext.tsx:58 | replacing a line changes the unit count by the difference of the quantities |
| Cart.TotalPriceReplace | src/contexts/CartContext.tsx:61-73 | replacing a line changes the price by the difference of the line totals |
| Cart.TotalItemsAtLeastLines | src/contexts/CartContext.tsx:58 | with every line holding a unit, there are at least as many units as lines |
| Cart.SelectedPriceNonNegative | src/contexts/CartContext.tsx:66-70 | non-negative material prices give a non-negative add-on price |
| Cart.TotalPriceNonNegative | src/contexts/CartContext.tsx:61-73 | non-negative prices and quantities give a non-negative total |
| Cart.AddMergesIntoFirstMatch | src/contexts/CartContext.tsx:92-102 | when line `i` is the first match, the length is kept, line `i` grows by the candidate's quantity and keeps everything else, and no other line changes |
| Cart.AddAppendsWhenNoMatch | src/contexts/CartContext.tsx:103-111 | when no line matches, the candidate is appended unchanged |
| Cart.AddToCartTotalItems | src/contexts/CartContext.tsx:92-111 | either way the unit count grows by exactly the candidate's quantity |
| Cart.GrownLineTotal | src/contexts/CartContext.tsx:94-95 | growing a line by `n` units adds `n` times its unit price |
| Cart.GrownTotalPrice | src/contexts/CartContext.tsx:94-95 | growing line `i` by `n` units adds `n` times that line's unit price to the total |
| Cart.AddToMatchedLineTotalPrice | src/contexts/CartContext.tsx:92-102 | a merge adds the candidate's quantity at the matched line's own unit price |
| Cart.AddNewLineTotalPrice | src/contexts/CartContext.tsx:103-111 | an append adds the candidate's line total |
| Cart.AddKeepsQuantitiesPositive | src/contexts/CartContext.tsx:76-111 | adding a candidate of at least one unit keeps every line at one unit or more |
| Cart.AddKeepsConfigurationsDistinct | src/contexts/CartContext.tsx:79-111 | adding never leaves two lines that adding would merge |
| Cart.AddSameConfigurationTwice | src/contexts/CartContext.tsx:79-111 | adding a new configuration and then a matching one gives one new line holding both quantities |
| Cart.AddDifferentConfigurations | src/contexts/CartContext.tsx:79-111 | adding two new configurations that do not match gives two new lines, in order |
| Cart.RemoveKeepsQuantitiesPositive | src/contexts/CartContext.tsx:116-117 | removal keeps every line at one unit or more |
| Cart.RemoveKeepsConfigurationsDistinct | src/contexts/CartContext.tsx:116-117 | removal keeps the remaining lines pairwise unmergeable |
| Cart.UpdateKeepsQuantitiesPositive | src/contexts/CartContext.tsx:126-136 | any quantity update keeps every line at one unit or more, because 0 or less removes |
| Cart.UpdateKeepsConfigurationsDistinct | src/contexts/CartContext.tsx:126-136 | quantity updates keep the lines pairwise unmergeable |
| Cart.ToggleTwiceRestores | src/contexts/CartContext.tsx:139-154 | toggling the same material of the same line twice gives back the cart |
| Cart.ToggleKeepsTotalItems | src/contexts/CartContext.tsx:139-154 | toggling changes no quantity, so the unit count stays |
| Cart.ToggleCanDuplicateConfiguration | src/contexts/CartContext.tsx:139-154 | toggling does not re-merge: from two unmergeable crane lines, one toggle leaves two lines that adding would merge |
| Cart.RunKeepsQuantitiesPositive | src/contexts/CartContext.tsx:76-158 | any session of store operations whose additions hold at least one unit keeps every line at one unit or more |
| Cart.RunWithoutToggleKeepsConfigurationsDistinct | src/contexts/CartContext.tsx:76-158 | any session without toggles keeps the lines pairwise unmergeable |
| Cart.PlainCraneAddedTwice | src/contexts/CartContext.tsx:76-111 | adding the plain crane twice gives one line of two units costing 49.98 |
| Cart.SelectedMaterialPriced | src/contexts/CartContext.tsx:61-73 | two cranes with the 5.00 gold foil cost 59.98 |
| Cart.CartStore.constructor | src/contexts/CartContext.tsx:36-50 | a stored list is adopted, an absent or malformed one gives an empty cart, and the saved snapshot equals the cart |
| Cart.CartStore.AddToCart | src/contexts/CartContext.tsx:76-113 | the search loop finds the first match; the new cart is `AddedToCart` of the old one and is saved |
| Cart.CartStore.RemoveFromCart | src/contexts/CartContext.tsx:116-123 | the new cart is `RemovedFromCart` of the old one and is saved |
| Cart.CartStore.UpdateQuantity | src/contexts/CartContext.tsx:126-136 | the new cart is `QuantityUpdated` of the old one and is saved |
| Cart.CartStore.ToggleMaterial | src/contexts/CartContext.tsx:139-154 | the new cart is `MaterialToggled` of the old one, is saved, and has the same unit count |
| Cart.CartStore.ClearCart | src/contexts/CartContext.tsx:157-163 | the cart is empty and saved, with unit count and price 0 |
| Cart.CartStore.Items | src/contexts/CartContext.tsx:58 | `totalItems` is 0 for an empty cart and at least the number of lines while every line holds a unit |
| Cart.CartStore.Price | src/contexts/CartContext.tsx:61-73 | `totalPrice` is 0 for an empty cart and never negative while prices and quantities are not |
| Listing.SearchMatches | src/pages/ProductsPage.tsx:47-55 | the search test; `Listing.SearchIgnoresCase` and `Strings.ContainsIffOccurs` state its meaning |
| Listing.InPriceRange | src/pages/ProductsPage.tsx:63-65 | the price test; `Catalog.PricesWithinSlider` and `Listing.ClearedListingShowsCatalog` use it |
| Listing.PassesAll | src/pages/ProductsPage.tsx:46-65 | all three filters together; `Listing.InactiveFiltersImposeNothing` states which are inactive |
| Listing.Passing | src/pages/ProductsPage.tsx:43-65 | the filtered products; `Listing.ApplyFilters` is proved against it |
| Listing.SearchIgnoresCase | src/pages/ProductsPage.tsx:47-55 | the search gives the same answer for a term and its lower-cased form |
| Listing.InactiveFiltersImposeNothing | src/pages/ProductsPage.tsx:47-60 | with no term and no ticked category, only the price range filters |
| Listing.SortListing | src/pages/ProductsPage.tsx:67-87 | every sort key only rearranges the products |
| Listing.PriceAscendingIsPreorder | src/pages/ProductsPage.tsx:69-71 | the ascending price comparator is total and transitive |
| Listing.PriceDescendingIsPreorder | src/pages/ProductsPage.tsx:72-74 | the descending price comparator is total and transitive |
| Listing.NameOrderIsPreorder | src/pages/ProductsPage.tsx:75-77 | the name comparator is total and transitive |
| Listing.PriceLowAscends | src/pages/ProductsPage.tsx:69-71 | `price-low` lists prices in non-decreasing order |
| Listing.PriceHighDescends | src/pages/ProductsPage.tsx:72-74 | `price-high` lists prices in non-increasing order |
| Listing.NameSortOrders | src/pages/ProductsPage.tsx:75-77 | `name` lists names in order |
| Listing.FeaturedFirstRanksFeatured | src/pages/ProductsPage.tsx:78-85 | the featured comparator puts featured ahead of non-featured and ties every other pair |
| Listing.FeaturedOrderSplits | src/pages/ProductsPage.tsx:78-86 | `featured` and any unrecognised key give the featured products in catalog order, then the others in catalog order |
| Listing.ApplyFilters | src/pages/ProductsPage.tsx:43-90 | every listed product passes every active filter; the listing is a permutation of exactly the passing products, no longer than the catalog; it is in price or name order for those keys, and featured-first in catalog order otherwise |
| Listing.ToggleCategory | src/pages/ProductsPage.tsx:93-99 | a ticked category is removed with all its occurrences and the others stay; an unticked one is appended |
| Listing.RemoveAllMultiset | src/pages/ProductsPage.tsx:96 | removing a category drops all its occurrences and keeps every other count |
| Listing.ToggleCategoryTwice | src/pages/ProductsPage.tsx:93-99 | toggling twice restores a duplicate-free selection up to order, and exactly when the category was unticked |
| Listing.ToggleCategoryKeepsNoDuplicates | src/pages/ProductsPage.tsx:93-99 | toggling keeps a selection free of duplicates |
| Listing.ClearFilters | src/pages/ProductsPage.tsx:102-107 | after the reset a product passes exactly when its price is within 0 to 100 dollars, and the order is featured-first |
| Listing.ClearedListingShowsCatalog | src/pages/ProductsPage.tsx:102-107 | after the reset every catalog product passes, in catalog order |
| Listing.AdoptUrlCategory | src/pages/ProductsPage.tsx:34-40 | a known category in the address becomes the only ticked one; anything else leaves the selection alone; nothing outside the category list is ever adopted |
| Configurator.InitialSelection | src/pages/ProductDetailPage.tsx:29-33 | the map has one key per available material, and every one is unticked |
| Configurator.LoadProduct | src/pages/ProductDetailPage.tsx:23-36 | no id changes nothing; an unknown id only ends loading; a known id sets the product and an all-unticked map over its materials; from an empty page the placeholder stays exactly when the id is missing or unknown |
| Configurator.RecomputeAdditionalPrice | src/pages/ProductDetailPage.tsx:38-47 | without a product nothing changes; otherwise the add-on price becomes the sum of the ticked materials' prices |
| Configurator.NothingTickedCostsNothing | src/pages/ProductDetailPage.tsx:29-46 | a map that ticks nothing gives an add-on price of 0 |
| Configurator.SelectedMaterialsPriceNonNegative | src/pages/ProductDetailPage.tsx:40-46 | non-negative material prices give a non-negative add-on price |
| Configurator.SamePriceForSameTicks | src/pages/ProductDetailPage.tsx:40-46 | two maps that tick the same materials give the same add-on price |
| Configurator.ToggleMaterial | src/pages/ProductDetailPage.tsx:49-54 | the material's reading flips, a missing key counting as unticked; no other reading changes; the map gains at most that key |
| Configurator.ToggleTwiceRestores | src/pages/ProductDetailPage.tsx:49-54 | toggling twice ticks exactly what was ticked before, and gives back the same map when the key existed |
| Configurator.ToggleTwiceRestoresPrice | src/pages/ProductDetailPage.tsx:38-54 | toggling twice gives back the add-on price |
| Configurator.Increase | src/pages/ProductDetailPage.tsx:56 | one more unit below 10, and 10 at or above it |
| Configurator.Decrease | src/pages/ProductDetailPage.tsx:57 | one fewer unit above 1, and 1 at or below it |
| Configurator.ClampTyped | src/pages/ProductDetailPage.tsx:160 | the result is within 1 to 10; unparsable input and 0 give 1, in-range values are kept, larger ones give 10 and smaller ones give 1 |
| Configurator.QuantityStaysInRange | src/pages/ProductDetailPage.tsx:18-160 | from a quantity in 1 to 10, including the initial 1, any run of plus, minus and typed inputs stays in 1 to 10 |
| Configurator.MaterialOptions | src/pages/ProductDetailPage.tsx:61-66 | the copied materials have the product's length and order, the same id, name and price, and the map's reading as their flag |
| Configurator.SelectedMaterialsPriceIsCartSelectedPrice | src/pages/ProductDetailPage.tsx:40-66 | the page's add-on price equals what the cart charges per unit for the copied materials |
| Configurator.CandidateLine | src/pages/ProductDetailPage.tsx:61-75 | the line handed to `addToCart`; stated by `Configurator.CandidateLineCopiesPage` |
| Configurator.ShownTotal | src/pages/ProductDetailPage.tsx:79 | the page's total; stated by `Configurator.ShownTotalIsCartLineTotal` and `Configurator.NewLineAddsShownTotal` |
| Configurator.CandidateLineCopiesPage | src/pages/ProductDetailPage.tsx:61-75 | the candidate line carries the generated id, the product's id, name and price, the chosen quantity, and the product's materials flagged as the page shows them |
| Configurator.ShownTotalIsCartLineTotal | src/pages/ProductDetailPage.tsx:79 | with the add-on price up to date, the shown total equals the cart's line total for the candidate |
| Configurator.NewLineAddsShownTotal | src/pages/ProductDetailPage.tsx:59-79 | when no cart line matches, adding the candidate raises the cart total by exactly the shown total |
| Configurator.HandleAddToCart | src/pages/ProductDetailPage.tsx:59-77 | without a product the cart is unchanged; otherwise the cart becomes `AddedToCart` of the candidate line |
| CartView.ItemTotal | src/pages/CartPage.tsx:46-53 | the loop's total equals the store's line total, and (base price + selected material prices) times the quantity |
| CartView.ItemTotalsAddUpToTotalPrice | src/pages/CartPage.tsx:46-53 | the per-line totals the page shows add up to the store's `totalPrice` |
| CartView.Shipping | src/pages/CartPage.tsx:15 | the flat shipping charge; stated by `CartView.FinalTotalCoversSubtotal` |
| CartView.FinalTotal | src/pages/CartPage.tsx:18 | the amount to pay; stated by `CartView.FinalTotalCoversSubtotal` |
| CartView.FinalTotalCoversSubtotal | src/pages/CartPage.tsx:15-19 | an empty cart pays 0; a non-empty one pays the subtotal plus 4.99; with non-negative prices the final total covers both subtotal and shipping |
| CartView.PromoMessage | src/pages/CartPage.tsx:22-30 | the welcome code in any case gets "not valid for this order", every other code gets "Invalid promo code.", and a message is always set, so no code is accepted |
| CartView.WelcomeCodeIgnoresCase | src/pages/CartPage.tsx:24 | every code and its lower-cased form get the same message |
| CartView.ButtonsStepByOne | src/pages/CartPage.tsx:120-137 | plus raises the line by one unit, and an enabled minus lowers it by one; neither removes a line |
| CartView.SubtotalLabelCount | src/pages/CartPage.tsx:174 | the label's number; stated by `CartView.SubtotalLabelAtMostUnits` and `CartView.SubtotalLabelCountsLinesNotUnits` |
| CartView.SubtotalLabelAtMostUnits | src/pages/CartPage.tsx:174 | the label's count of lines never exceeds the unit count while every line holds a unit |
| CartView.SubtotalLabelCountsLinesNotUnits | src/pages/CartPage.tsx:174 | one line of two cranes is labelled 1 while it holds 2 units |
| Header.CartItemCount | src/components/layout/Layout.tsx:43 | the badge's count; stated by `Header.CartItemCountIsTotalItems` and `Header.BadgeShownIffCartNotEmpty` |
| Header.IsActive | src/components/layout/Layout.tsx:46-51 | the current-entry test; stated by `Header.ActiveBelow` and `Header.AtMostOneEntryActive` |
| Header.ShopActive | src/components/layout/Layout.tsx:69 | the Shop entry's test; stated by `Header.ShopActiveOnProductPage` |
| Header.CountFromAddsTotalItems | src/components/layout/Layout.tsx:43 | the front-to-back reduction from any start value adds the store's unit count to it |
| Header.CartItemCountIsTotalItems | src/components/layout/Layout.tsx:43 | the badge count equals the store's `totalItems` |
| Header.BadgeShownIffCartNotEmpty | src/components/layout/Layout.tsx:94-98 | while every line holds a unit, the badge is drawn exactly when the cart has a line |
| Header.ActiveBelow | src/components/layout/Layout.tsx:46-51 | any entry other than the root stays active on every path below it |
| Header.ShopActiveOnProductPage | src/components/layout/Layout.tsx:69 | the Shop entry is active on the listing and on every product page |
| Header.AtMostOneEntryActive | src/components/layout/Layout.tsx:68-71 | no path marks two of Home, Shop, About and Contact as current |

## Left out

- Browser storage is reduced to a snapshot (`Cart.Stored`). The JSON encoding and decoding and the storage key are not modelled. Neither is the order in which the load and save effects run on the first render. A stored value that parses as JSON but is not a list of lines is not modelled.
- Toast notifications, generating the line id, and navigation to the cart are outside calls. The line id is a parameter; the other two are left out.
- React plumbing is not modelled: state hooks, effects, the context provider and its "used outside the provider" error. Markup, images, the current-image picker, the theme toggle and the mobile menu are not modelled either.
- Floating-point arithmetic and `toFixed` formatting are not modelled. Money is exact integer cents. JavaScript numbers are modelled as unbounded integers; every value here is far below 2^53.
- `localeCompare` is replaced by the character-code order. `toLowerCase` is modelled for ASCII letters only. `parseInt` is reduced to its result, an integer or "does not parse".
- Sorting is modelled on a sequence value, not on the array sorted in place.
- Cart.CartStore.AddToCart: replaces the matched line in a value sequence. The code raises the quantity on the line object itself, which the previous cart array shares. That aliasing is not modelled, nor its effect when React runs the updater twice.
- Listing.ApplyFilters: for the price and name keys, states that the listing is ordered and a permutation of the passing products. It does not state the order among products with equal keys; that order is the stable one.
- The product page's order summary, which lists ticked materials by walking the selection map, is display only and is not modelled.
- The product page disables the minus and plus buttons at 1 and 10. That is not modelled; the clamps in `Increase` and `Decrease` already keep the quantity in range.
- The promo-code text field's own state is not modelled; only the message chosen on submit is.
- The header's `isActive` reads the current location, which is a parameter here.
