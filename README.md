# Online store sample: a Dafny model of its rule sets

This project models the parts of the online-store sample that follow precise rules. The store is a React Router application written in TypeScript. Each Dafny module corresponds to one source file, and several small modules hold the JavaScript and library behaviour those files rely on.

- **Image upload** (`UploadRoute`, `ImageConfig`)
  - The upload endpoint checks the declared type against the file's magic bytes (JPEG, PNG, GIF).
  - Its `action` runs the checks in a fixed order, and the first failing check decides the response.
  - A file that passes every check is inserted into the `images` table. The table is an `ImageStore` class with an auto-incremented id.
  - `getImageUrl`/`extractIdFromUrl` turn an image id into a URL and back. The `IMAGE_CDN_URL` environment value is passed in as `cdn`.
- **Shopping cart** (`CartContext`, `CartPage`)
  - `CartProvider`'s state is a `Cart` class holding the line sequence.
  - Its operations are methods: add-or-merge, remove, set-quantity and clear.
  - `total` and `count` are loops, each proved equal to a recursive sum.
  - The cart page's minus, plus, typed-quantity and trash controls are edits applied to that sequence.
- **Product images** (`ProductImages`): building an image entry with its optional fields, and the stable sort by `order`.
- **Listing queries**
  - The admin product list and index (`AdminProductsList`, `AdminProductsIndex`) read their state from URL parameters. `UrlParams.SearchParams` is a class updated in place by `set`/`delete`. Each list is filtered, sorted with its comparator, and paged ten at a time.
  - The storefront product and search pages (`ProductsPage`, `SearchPage`) use a filter record. The filter panel's handlers (`ProductFilter`) each replace one field of that record.
  - The admin order list (`AdminOrders`) filters orders by status and by a search text.
- **Forms** (`Checkout`, `RegisterForm`, `SecurityForm`, `ContactForm`, `ProfileForm`, `ProductForm`)
  - Each zod schema is modelled as the set of issues it reports, each issue being a path and a message (`Validation`).
  - The two phone regular expressions are modelled as a small anchored matcher (`PhonePattern`), and proved to mean what they say.
  - The checkout page's render redirect and the order of its submit steps are modelled as a `CheckoutPage` class.
- **Shared semantics**
  - `Text`: ASCII case folding, `includes`, `String(n)`, `parseInt`, `Number`, `x || d`, and a character-code stand-in for `localeCompare`.
  - `Sorting`: `filter`, a stable sort and `slice`. `Array.prototype.sort` is stable, so a sort is a stable insertion sort driven by `comparator(a, b) <= 0`.

Two behaviours of the code worth noting:

- **Short buffers.** The JPEG check reads only three bytes, so the three-byte buffer `FF D8 FF` passes as `image/jpeg` (`UploadRoute.ThreeByteJpegPasses`).
- **Unreadable bytes.** These are reported as "Failed to create buffer", never as "Failed to process image data". The `.then` after the `catch` turns that response into `null` (`UploadRoute.UnreadableBytes`).

## Model

| member | source | states |
|---|---|---|
| UploadRoute.Signature | app/routes/api.upload/route.ts:17-34 | a declared type has a magic-byte signature exactly when it is one of the three allowed types |
| UploadRoute.SignatureMeansPrefix | app/routes/api.upload/route.ts:21-33 | the signature check passes exactly when the declared type's signature (FF D8 FF, 89 50 4E 47, 47 49 46) is a prefix of the bytes; any other type fails |
| UploadRoute.ShortBufferFails | app/routes/api.upload/route.ts:21-27 | a buffer shorter than its declared type's signature fails, since reads past the end are `undefined` |
| UploadRoute.AtMostOneType | app/routes/api.upload/route.ts:21-33 | a buffer passes the check for at most one declared type |
| UploadRoute.ThreeByteJpegPasses | app/routes/api.upload/route.ts:21-33 | a three-byte JPEG header passes as JPEG and fails as PNG and GIF |
| UploadRoute.ErrorTexts | app/routes/api.upload/route.ts:58-69 | the size error reports "5MB" and the type error lists "image/jpeg, image/png, image/gif" |
| UploadRoute.Validate | app/routes/api.upload/route.ts:36-86 | an accepted upload is a POST whose file is within the cap, of an allowed type, readable, and carries its type's signature; every rejection is 400 except the method's 405 |
| UploadRoute.ValidateAcceptsExactly | app/routes/api.upload/route.ts:37-86 | the checks accept exactly when all of them hold, and then the accepted file is the `image` field |
| UploadRoute.MethodCheckComesFirst | app/routes/api.upload/route.ts:37-39 | 405 is returned exactly for a non-POST request, whatever its body |
| UploadRoute.OversizeWinsOverTypeAndContent | app/routes/api.upload/route.ts:54-62 | a file over 5 MiB is refused as too large, whatever its type and bytes |
| UploadRoute.ExactlyMaxSizePasses | app/routes/api.upload/route.ts:54 | the size test is strict: a valid PNG of exactly 5 MiB is accepted |
| UploadRoute.PngDeclaredJpegBytes | app/routes/api.upload/route.ts:84-86 | JPEG bytes declared as PNG are refused as invalid content |
| UploadRoute.UnreadableBytes | app/routes/api.upload/route.ts:76-82 | unreadable bytes give 400 "Failed to create buffer" |
| UploadRoute.TextFieldIsNotAnImage | app/routes/api.upload/route.ts:47-73 | an empty text `image` field is "No image provided"; a non-empty one fails the type check |
| UploadRoute.AcceptedRowIsWellFormed | app/routes/api.upload/route.ts:89-98 | the stored row has an allowed type, a size within the cap and matching bytes, and its size is the declared size |
| UploadRoute.ImageStore.constructor | app/routes/api.upload/route.ts:89-98 | an empty table whose next id is 1 |
| UploadRoute.ImageStore.Insert | app/routes/api.upload/route.ts:89-103 | a failed insert changes nothing; a successful one adds the row under a fresh id and returns that id |
| UploadRoute.Action | app/routes/api.upload/route.ts:36-115 | a failed check returns its response and writes nothing; a database error gives 500 and writes nothing; success writes one row under a fresh id and returns 200 with `getImageUrl(id)` and `String(id)` |
| UploadRoute.UploadedUrlReadsBack | app/routes/api.upload/route.ts:108-114 | the returned URL reads back as the id, and the returned id text reads back as the number |
| ImageConfig.ConstantsValues | app/routes/api.upload/const.ts:1-3 | the cap is 5,242,880 bytes and the allowed types are exactly JPEG, PNG and GIF |
| ImageConfig.FirstApiMatch | app/routes/api.upload/const.ts:24-27 | the result is the leftmost position where `/api/images/<digit>` occurs, or none |
| ImageConfig.ExtractIdFromUrl | app/routes/api.upload/const.ts:17-29 | with the CDN prefix present only the `parseInt` rule applies, and NaN or 0 gives null; otherwise the digits after the leftmost `/api/images/` match give the id, and no match gives null |
| ImageConfig.NoIncludesNoMatch | app/routes/api.upload/const.ts:24-25 | without an occurrence of the API path no match exists, so the `includes` guard hides none |
| ImageConfig.ApiMatchImpliesIncludes | app/routes/api.upload/const.ts:24-25 | every match of the expression is an occurrence of the API path |
| ImageConfig.ExtractOfGetImageUrl | app/routes/api.upload/const.ts:12-27 | `extractIdFromUrl(getImageUrl(n))` is n for every n without a CDN, and for every n ≥ 1 with one (0 gives null) |
| ImageConfig.CdnRuleHasNoFallback | app/routes/api.upload/const.ts:19-22 | for example, with CDN prefix "c" the URL "c/api/images/5" gives null, though without a CDN it gives 5: the CDN rule does not fall back to the API-path rule |
| ImageConfig.FirstApiMatchIsLeftmost | app/routes/api.upload/const.ts:25 | the scan stops at the first matching position |
| ImageConfig.NeitherRuleGivesNull | app/routes/api.upload/const.ts:28 | a URL matching neither rule gives null |
| CartContext.FindLine | app/contexts/CartContext.tsx:32-36 | the index of the first line with the same id and variants, or -1 when there is none |
| CartContext.AddMergesIntoFirstMatch | app/contexts/CartContext.tsx:38-42 | adding to an existing line raises the first matching line by the new quantity; the length and every other line are unchanged |
| CartContext.AddAppendsNewLine | app/contexts/CartContext.tsx:46 | an item matching no line is appended after the existing lines |
| CartContext.DifferentVariantsStayDistinct | app/contexts/CartContext.tsx:33-35 | lines with the same id and different variants stay separate |
| CartContext.RemoveDropsEveryVariant | app/contexts/CartContext.tsx:50-52 | `removeItem` drops every line with the id, whatever its variants, and keeps every other line in order, with as many copies as before |
| CartContext.UpdateChangesOnlyQuantities | app/contexts/CartContext.tsx:54-60 | `updateQuantity` sets the quantity on every line with the id; the length, the other fields and the other lines are unchanged |
| CartContext.CountOfAppend | app/contexts/CartContext.tsx:67-70 | appending a line adds its quantity to `count` and its price times quantity to `total` |
| CartContext.CountOfUpdateAt | app/contexts/CartContext.tsx:67-70 | replacing one line changes `count` and `total` by exactly that line's difference |
| CartContext.CountAfterAdd | app/contexts/CartContext.tsx:29-48 | `count` grows by exactly the added quantity, whether the item is merged or appended |
| CartContext.TotalAfterAdd | app/contexts/CartContext.tsx:29-48 | `total` grows by the added quantity at the price of the line it lands in, which is the existing line's price when merged |
| CartContext.TotalAfterMerge | app/contexts/CartContext.tsx:38-67 | raising one line by k raises `total` by k at that line's price |
| CartContext.CountAtLeastLines | app/contexts/CartContext.tsx:70 | with every quantity at least 1, `count` is at least the number of lines |
| CartContext.EmptyCartTotals | app/contexts/CartContext.tsx:62-70 | an empty cart has total and count 0 |
| CartContext.Cart.constructor | app/contexts/CartContext.tsx:27 | the cart starts empty |
| CartContext.Cart.AddItem | app/contexts/CartContext.tsx:29-48 | the new lines are `Added(old lines, item)`: the `findIndex` loop finds the first matching line, which is merged, or else the item is appended |
| CartContext.Cart.RemoveItem | app/contexts/CartContext.tsx:50-52 | the new lines are the old ones without the id |
| CartContext.Cart.UpdateQuantity | app/contexts/CartContext.tsx:54-60 | the new lines are the old ones with the id's quantities replaced |
| CartContext.Cart.ClearCart | app/contexts/CartContext.tsx:62-64 | the cart is empty afterwards |
| CartContext.Cart.Total | app/contexts/CartContext.tsx:67 | the accumulation equals the sum of price times quantity |
| CartContext.Cart.Count | app/contexts/CartContext.tsx:70 | the accumulation equals the sum of quantities |
| CartPage.MinusQuantity | app/routes/cart.tsx:86-88 | the minus button gives q−1 from 2 upwards and 1 otherwise, never below 1 |
| CartPage.PlusQuantity | app/routes/cart.tsx:108 | the plus button strictly raises the quantity, to at least 2 from a positive one |
| CartPage.TypedQuantity | app/routes/cart.tsx:96-100 | a typed non-number or value below 1 gives 1; any other number is taken as typed |
| CartPage.EditKeepsQuantitiesPositive | app/routes/cart.tsx:74-108 | each control keeps every line's quantity at least 1 |
| CartPage.EditsKeepQuantitiesPositive | app/routes/cart.tsx:74-108 | any series of clicks on the page keeps every quantity at least 1 |
| CartPage.TrashRemovesWholeProduct | app/routes/cart.tsx:74 | the trash button removes every variant line of the product and keeps every other line in order, with as many copies as before |
| CartPage.TrashLastProductShowsEmptyState | app/routes/cart.tsx:10-24 | removing the only product in the cart brings up the empty state |
| CartPage.MinusReachesOtherVariant | app/routes/cart.tsx:86-88 | the minus control of one variant line also sets the product's other variant line |
| CartPage.TypedQuantityExamples | app/routes/cart.tsx:96-100 | typing "0", "abc" or "-4" gives 1 and typing "5" gives 5 |
| ProductImages.Create | app/db/schema/products.ts:38-42 | `url` is always kept; `alt` is kept exactly when non-empty and `order` exactly when non-zero |
| ProductImages.Sort | app/db/schema/products.ts:49-50 | the result is a permutation of the input |
| ProductImages.OrderLeIsTotalPreorder | app/db/schema/products.ts:50 | the comparator, with a missing order as Infinity, is a total preorder |
| ProductImages.SortOrdersEntries | app/db/schema/products.ts:50 | after sorting, entries with an order come first in ascending order, and those without one come last |
| ProductImages.SortWithoutOrdersIsIdentity | app/db/schema/products.ts:50 | a list with no orders keeps its order, since Infinity − Infinity compares equal |
| ProductImages.ZeroOrderSortsLast | app/db/schema/products.ts:41-50 | an entry created with order 0 loses it and sorts after an entry with order 2 |
| UrlParams.GetOr | app/admin/products/route.tsx:112-116 | the parameter's value when present and non-empty, the fallback otherwise |
| UrlParams.NumberParam | app/admin/products/route.tsx:115-118 | the parameter read as a number, with a missing, empty, zero or non-numeric parameter giving the fallback |
| UrlParams.NumberParamOfIntToString | app/admin/products/route.tsx:87-88 | a number written with `toString()` reads back as itself, or as the fallback when it is 0 |
| UrlParams.SearchParams.constructor | app/admin/products/route.tsx:111 | the parameters hold the given entries |
| UrlParams.SearchParams.Get | app/admin/products/route.tsx:112 | a value exactly for a present name, and that name's value |
| UrlParams.SearchParams.Set | app/admin/products/route.tsx:156 | the name now maps to the value, and nothing else changes |
| UrlParams.SearchParams.Delete | app/admin/products/route.tsx:166 | the name is removed, and nothing else changes |
| AdminProductsList.QueryOf | app/admin/products/route.tsx:112-118 | the sort field and order are never empty, and the page and upper price bound are never 0 |
| AdminProductsList.DefaultQuery | app/admin/products/route.tsx:112-118 | without parameters: no search, name ascending, page 1, no category, prices 0 to 1000 |
| AdminProductsList.ZeroMaxPriceFallsBack | app/admin/products/route.tsx:118 | a `maxPrice` of "0" reads as 1000 |
| AdminProductsList.FilterProducts | app/admin/products/route.tsx:127-139 | the result holds each product that matches search, category and price range as many times as the input does, and no other product |
| AdminProductsList.FilterKeepsOrder | app/admin/products/route.tsx:127 | the filtered list is a subsequence of the input |
| AdminProductsList.EmptySearchKeepsPriceRange | app/admin/products/route.tsx:127-139 | no search and no category keep every product in the price range |
| AdminProductsList.AdminLeIsTotalPreorder | app/admin/products/route.tsx:141-147 | the comparator's `<= 0` is a total preorder for every field and order |
| AdminProductsList.SortProducts | app/admin/products/route.tsx:141-147 | the sorted list is a permutation of the filtered one |
| AdminProductsList.SortOrdersByField | app/admin/products/route.tsx:141-147 | price, stock, the two dates and the active flag are ordered numerically and names by comparison, ascending for "asc" and descending otherwise |
| AdminProductsList.UnknownFieldKeepsOrder | app/admin/products/route.tsx:146 | a sort field that is not a field of the product record leaves the filtered order unchanged |
| AdminProductsList.TotalPages | app/admin/products/route.tsx:124-125 | the page count is the fewest pages of ten that hold n items |
| AdminProductsList.PageContents | app/admin/products/route.tsx:149-152 | page p holds exactly the items at positions (p−1)·10 up to p·10 |
| AdminProductsList.PageHoldsAtMostTen | app/admin/products/route.tsx:149-152 | a page holds at most ten items, whatever the page number |
| AdminProductsList.ListingShowsMatches | app/admin/products/route.tsx:127-152 | every row shown is an input product that matches the filter |
| AdminProductsList.ShownPageWithinTotal | app/admin/products/route.tsx:124-125 | `totalPages` counts the unfiltered list, so any page that shows a row is within it |
| AdminProductsList.NextOrder | app/admin/products/route.tsx:47-50 | the new order is "desc" exactly when the active column is clicked while ascending; otherwise it is "asc" |
| AdminProductsList.HandleSort | app/admin/products/route.tsx:46-57 | the parameters get `sort` set to the column and `order` set to the toggled order |
| AdminProductsList.HandleSortEffect | app/admin/products/route.tsx:46-57 | the query read back after a sort click equals the old query with the clicked column as sort field and the toggled order, every other parameter unchanged |
| AdminProductsList.SortClickTwiceRestores | app/admin/products/route.tsx:47-50 | two clicks on the active column restore its order |
| AdminProductsList.HandlePriceChange | app/admin/products/route.tsx:85-91 | the first two slider values are written as `minPrice` and `maxPrice` |
| AdminProductsList.HandlePriceChangeEffect | app/admin/products/route.tsx:82-91 | the bounds read back as the slider values, except that an upper bound of 0 reads as 1000 |
| AdminProductsList.HandlePageChange | app/admin/products/route.tsx:154-159 | `page` is written as the number's text |
| AdminProductsList.HandlePageChangeEffect | app/admin/products/route.tsx:154-159 | the page reads back as chosen (0 reads as 1), and nothing else changes |
| AdminProductsList.HandleCategoryChange | app/admin/products/route.tsx:161-171 | a non-empty category is set and an empty one deleted, and `page` is always reset to 1 |
| AdminProductsList.HandleCategoryChangeEffect | app/admin/products/route.tsx:161-171 | the list then shows page 1 of that category (of all categories for ""), with the other settings kept |
| AdminProductsIndex.QueryOf | app/routes/admin.products._index/route.tsx:26-28 | the sort field and order are never empty |
| AdminProductsIndex.DefaultQuery | app/routes/admin.products._index/route.tsx:26-28 | without parameters: no search, by name, ascending |
| AdminProductsIndex.ListingMeansMatches | app/routes/admin.products._index/route.tsx:33-36 | a product is listed exactly when it is in the list and its name or description contains the search, ignoring case |
| AdminProductsIndex.ListingSortedByField | app/routes/admin.products._index/route.tsx:38-44 | the list is ordered by the column, the numeric fields numerically and names by comparison, ascending for "asc" and descending otherwise |
| AdminProductsIndex.EmptySearchKeepsAll | app/routes/admin.products._index/route.tsx:33-36 | an empty search keeps every product |
| AdminProductsIndex.HandleSort | app/routes/admin.products._index/route.tsx:46-57 | `sort` is set to the column and `order` to the toggled order |
| AdminProductsIndex.HandleSortEffect | app/routes/admin.products._index/route.tsx:46-57 | the page then sorts by that column in the toggled order, with the same search |
| AdminProductsIndex.HandleSearch | app/routes/admin.products._index/route.tsx:59-68 | a non-empty value is set as `search`; an empty one deletes it |
| AdminProductsIndex.HandleSearchEffect | app/routes/admin.products._index/route.tsx:59-68 | the search reads back as typed, and every other parameter is untouched |
| ProductFilter.SortOptionValues | app/components/products/ProductFilter.tsx:25-29 | the sort options are exactly "price-asc", "price-desc" and "newest" |
| ProductFilter.HandleSearchChange | app/components/products/ProductFilter.tsx:32-34 | only `search` is replaced; every other field is copied |
| ProductFilter.HandlePriceChange | app/components/products/ProductFilter.tsx:36-38 | `priceRange` becomes the first two slider values; every other field is copied |
| ProductFilter.HandleSortChange | app/components/products/ProductFilter.tsx:40-42 | only `sortBy` is replaced |
| ProductFilter.HandleStockChange | app/components/products/ProductFilter.tsx:44-46 | only `inStock` is replaced |
| ProductFilter.ToggleStockTwiceRestores | app/components/products/ProductFilter.tsx:102 | the stock button flips the flag, and two clicks restore the filters |
| ProductFilter.HandlersFixCurrentValues | app/components/products/ProductFilter.tsx:32-46 | a handler given the value already held returns the record unchanged |
| ProductsPage.StoreLeIsTotalPreorder | app/routes/products._index.tsx:58-69 | the price comparators and the all-equal comparator are total preorders |
| ProductsPage.Visible | app/routes/products._index.tsx:42-69 | the page never shows more products than the list holds |
| ProductsPage.VisibleMeansMatches | app/routes/products._index.tsx:42-57 | a product is shown exactly when it is in the list, its name contains the search (or the search is empty), its price is in the inclusive range, and it is in stock when `inStock` is on |
| ProductsPage.VisibleSortedByPrice | app/routes/products._index.tsx:58-64 | "price-asc" shows prices ascending and "price-desc" descending |
| ProductsPage.OtherSortKeepsListOrder | app/routes/products._index.tsx:65-67 | "newest" and unknown sort values keep the filtered list order |
| ProductsPage.InitialFiltersShowPriceRange | app/routes/products._index.tsx:34-39 | the initial filters show, in list order, every product priced 0 to 1000, in stock or not |
| SearchPage.InitialFilters | app/routes/search.tsx:44-51 | the initial search is the `q` parameter or "", with price 0 to 1000, "newest" and stock off |
| SearchPage.Results | app/routes/search.tsx:54-85 | there are never more results than products |
| SearchPage.ResultsMeanMatches | app/routes/search.tsx:54-73 | a product is a result exactly when its name or description contains the search (or the search is empty), its price is in range, and it passes the stock test |
| SearchPage.ListingIsWithinResults | app/routes/search.tsx:57-62 | every product the listing page shows for the same filters is also a search result |
| SearchPage.ResultsOrder | app/routes/search.tsx:74-85 | results are ordered by price for the two price options, and keep list order otherwise |
| AdminOrders.FilterOrders | app/routes/admin.orders._index.tsx:31-45 | the result holds each order that passes the status and search tests as many times as the list does, and no other order |
| AdminOrders.FilterOrdersKeepsOrder | app/routes/admin.orders._index.tsx:31-45 | the result is a subsequence of the orders |
| AdminOrders.AllWithoutSearchShowsEverything | app/routes/admin.orders._index.tsx:31-45 | "all" with an empty search shows every order |
| AdminOrders.StatusFilterIsExact | app/routes/admin.orders._index.tsx:32-34 | a chosen status shows only orders of exactly that status |
| AdminOrders.SearchCriterion | app/routes/admin.orders._index.tsx:35-44 | an order passing the status test is kept exactly when the search is empty or occurs, ignoring case, in its id or in some item's product name |
| AdminOrders.ProcessActionFollowsStatusFilter | app/routes/admin.orders._index.tsx:124-126 | under "pending" every row shown offers "process order", and under any other status none does |
| PhonePattern.TryCountsMeaning | app/routes/checkout.tsx:22 | the search over repetition counts succeeds exactly when some count in range lets the rest match |
| PhonePattern.FullMatchMeaning | app/routes/profile.contact.tsx:11 | an anchored match is some allowed count of the first range followed by a match of the rest |
| PhonePattern.OneCharStep | app/routes/profile.contact.tsx:11 | a one-character first piece (`0`, `9`, `[2-9]`) matches exactly a first character in its range followed by a match of the rest |
| PhonePattern.LastStep | app/routes/profile.contact.tsx:11 | a last piece matches exactly a string of allowed length within its range |
| PhonePattern.MobileMeaning | app/routes/checkout.tsx:22 | `^09\d{8}$` holds exactly for "09" followed by eight digits, ten characters in all |
| PhonePattern.LandlineMeaning | app/routes/profile.contact.tsx:11 | `^0[2-9]\d{7,8}$` holds exactly for "0", a digit 2–9, then 7 or 8 digits |
| PhonePattern.MobileIsLandline | app/routes/profile.contact.tsx:11 | every mobile number also matches the landline pattern |
| PhonePattern.MobileExample | app/routes/profile.contact.tsx:11 | 0912345678 matches both patterns, and 0212345678 only the landline one |
| Validation.MinLength | app/routes/checkout.tsx:21 | `min(n, message)` reports no issue exactly when the length is at least n, and otherwise only its message on its path |
| Validation.Regex | app/routes/checkout.tsx:22 | `regex(pattern, message)` reports no issue exactly on a full match, and otherwise only its message |
| Validation.Email | app/routes/checkout.tsx:23 | `email(message)` reports no issue exactly for an address, and otherwise only its message |
| Validation.Enum2 | app/routes/checkout.tsx:25-30 | a two-value enum reports no issue exactly for one of its values, and otherwise the enum message naming the options and the value |
| Validation.Refine | app/routes/auth.register.tsx:17-20 | a refinement reports its message on its path exactly when its condition fails |
| Checkout.CheckoutAcceptsExactly | app/routes/checkout.tsx:20-31 | accepted exactly when the name has ≥ 2 characters, the phone is "09" and eight digits, the e-mail is an address, the address is non-empty, and payment and shipping are among their options |
| Checkout.NameIssue | app/routes/checkout.tsx:21 | the name issue appears exactly when the name is shorter than two characters, whatever the other fields hold |
| Checkout.AddressIssue | app/routes/checkout.tsx:24 | the address issue appears exactly when the address is empty |
| Checkout.PhoneIssue | app/routes/checkout.tsx:22 | the phone issue appears exactly when the phone does not match `^09\d{8}$` |
| Checkout.PaymentIssue | app/routes/checkout.tsx:25-27 | the payment field carries an issue exactly when it is neither "credit-card" nor "atm" |
| Checkout.DefaultsFailOnTextFields | app/routes/checkout.tsx:52-59 | the untouched form fails on name, phone and address, while its payment and shipping defaults pass |
| Checkout.RedirectTarget | app/routes/checkout.tsx:78-81 | the page redirects, to "/cart", exactly when the cart is empty |
| Checkout.CheckoutPage.constructor | app/routes/checkout.tsx:48 | the page starts not submitting, with no steps taken |
| Checkout.CheckoutPage.Navigate | app/routes/checkout.tsx:70 | the location becomes the target and a navigate step is recorded |
| Checkout.CheckoutPage.SetSubmittingTo | app/routes/checkout.tsx:62-76 | `isSubmitting` takes the value and the step is recorded |
| Checkout.CheckoutPage.Render | app/routes/checkout.tsx:78-81 | an empty cart navigates to /cart; otherwise the render changes nothing |
| Checkout.CheckoutPage.OnSubmit | app/routes/checkout.tsx:62-76 | the steps are: submitting on, cart cleared, navigate to /checkout/success, submitting off; the cart ends empty |
| Checkout.CheckoutPage.HandleSubmit | app/routes/checkout.tsx:91 | a form with issues changes nothing; an accepted form runs the submit |
| Checkout.SubmitStepsOrder | app/routes/checkout.tsx:62-76 | the cart is cleared and the navigation happens while submitting is on, and it is off at the end |
| RegisterForm.RegisterAcceptsExactly | app/routes/auth.register.tsx:11-20 | accepted exactly when the e-mail is an address, the password has ≥ 8 characters and is confirmed, the name has ≥ 2 characters and the phone is a mobile number |
| RegisterForm.MismatchOnConfirmPassword | app/routes/auth.register.tsx:17-20 | "密碼不一致" is reported on `confirmPassword`, never on `password`, exactly when the passwords differ |
| RegisterForm.LengthIssues | app/routes/auth.register.tsx:13-16 | each length or phone issue is reported exactly when its rule fails |
| RegisterForm.DefaultsFail | app/routes/auth.register.tsx:37-43 | the untouched form fails on both passwords, the name and the phone, but not on the mismatch |
| SecurityForm.SecurityAcceptsExactly | app/routes/profile.security.tsx:9-16 | accepted exactly when all three passwords have ≥ 8 characters and the new one equals the confirmation |
| SecurityForm.MismatchOnConfirmPassword | app/routes/profile.security.tsx:13-16 | "新密碼不一致" is reported on `confirmPassword` exactly when the new and the confirmed password differ |
| SecurityForm.DefaultsFail | app/routes/profile.security.tsx:33-37 | the untouched form gets exactly the three length issues |
| ContactForm.ContactAcceptsExactly | app/routes/profile.contact.tsx:9-12 | accepted exactly when the address is non-empty and the phone is "0", a digit 2–9, then 7 or 8 digits |
| ContactForm.MobileNumberAccepted | app/routes/profile.contact.tsx:11 | a mobile number passes the landline rule |
| ContactForm.DefaultsFail | app/routes/profile.contact.tsx:29-32 | the untouched form gets exactly the address and phone issues |
| ProfileForm.ProfileAcceptsExactly | app/routes/profile._index.tsx:10-15 | accepted exactly when the name has ≥ 2 characters, the e-mail is an address and the phone is a mobile number |
| ProfileForm.BirthdayIsOptional | app/routes/profile._index.tsx:14 | the birthday, present or absent, never changes the issues |
| ProfileForm.DefaultsFail | app/routes/profile._index.tsx:42-47 | the untouched form fails on the name and the phone |
| ProductForm.NumberIssues | app/routes/admin.products/ProductForm.tsx:15-16 | NaN gives only the type issue; otherwise the minimum issue appears exactly for a negative value, and the integer issue exactly for a fraction where an integer is required |
| ProductForm.ProductAcceptsExactly | app/routes/admin.products/ProductForm.tsx:12-17 | accepted exactly when name and description are non-empty, the price is a number ≥ 0 and the stock a whole number ≥ 0 |
| ProductForm.NegativeFractionalStock | app/routes/admin.products/ProductForm.tsx:16 | a stock of −1.5 gets both the integer and the minimum issue |
| ProductForm.DefaultValues | app/routes/admin.products/ProductForm.tsx:48-53 | the defaults are the product's name, description (or ""), price and `stockQuantity`; without a product they are "", "", 0, 0 |
| ProductForm.NewProductDefaultsFail | app/routes/admin.products/ProductForm.tsx:48-53 | a new product's untouched form fails exactly on name and description |
| ProductForm.EditDefaultsAccepted | app/routes/admin.products/ProductForm.tsx:48-53 | editing a product whose fields satisfy the schema starts from an accepted form |
| ProductForm.EditModeTexts | app/routes/admin.products/ProductForm.tsx:37-136 | the title and button read "Edit Product"/"Update Product" exactly when a product is given, and "New Product"/"Create Product" otherwise |
| ProductForm.EditModeToast | app/routes/admin.products/ProductForm.tsx:70-77 | the toast reads "Product updated successfully" and "<name> has been updated." exactly when a product is given, and the "created" texts otherwise |
| Text.NatToString | app/routes/api.upload/route.ts:111 | `String(n)` is a non-empty run of digits without a leading zero, one digit exactly below 10 |
| Text.LeadingDigits | app/routes/api.upload/const.ts:20 | the result is the longest prefix made of digits |
| Text.DigitsValueOfNatToString | app/routes/api.upload/route.ts:111 | the digits of `String(n)` read back as n |
| Text.ParseIntOfNatToString | app/routes/api.upload/const.ts:20 | `parseInt(String(n) + rest)` is n when `rest` starts with a non-digit |
| Text.ParseNumberOfIntToString | app/admin/products/route.tsx:115-118 | `Number(String(i))` is i for every integer |
| Text.ContainsMeansOccurs | app/routes/products._index.tsx:45 | `includes` holds exactly when the text occurs at some position |
| Text.OccursImpliesContains | app/routes/products._index.tsx:45 | an occurrence at any position makes `includes` hold |
| Text.ContainsEmpty | app/routes/admin.products._index/route.tsx:34 | every string includes "" |
| Text.Compare | app/admin/products/route.tsx:144 | the comparison is −1, 0 or 1, and 0 exactly for equal names |
| Text.CompareAntisymmetric | app/admin/products/route.tsx:144 | swapping the names negates the comparison |
| Text.CompareTransitive | app/admin/products/route.tsx:144 | the comparison's `<= 0` is transitive |
| Sorting.Filter | app/routes/admin.orders._index.tsx:31 | `filter` keeps each element that satisfies the predicate exactly as many times as it occurs in the input, and no other element |
| Sorting.FilterIsSubsequence | app/routes/admin.orders._index.tsx:31 | `filter` keeps the input order |
| Sorting.SubsequenceNoLonger | app/admin/products/route.tsx:127 | a subsequence is never longer than its sequence |
| Sorting.FilterKeepsAll | app/routes/admin.orders._index.tsx:44 | a predicate true everywhere keeps the whole input |
| Sorting.FilterDropsAll | app/contexts/CartContext.tsx:51 | a predicate false everywhere keeps nothing |
| Sorting.FilterSamePredicate | app/routes/products._index.tsx:43-57 | predicates that agree on every element keep the same elements |
| Sorting.Insert | app/db/schema/products.ts:50 | inserting adds exactly one element and keeps the others |
| Sorting.SortBy | app/db/schema/products.ts:50 | the sorted copy is a permutation of the input |
| Sorting.InsertElements | app/db/schema/products.ts:50 | inserting brings in no element other than `x` and those already there |
| Sorting.InsertKeepsSorted | app/db/schema/products.ts:50 | with a consistent comparator, inserting into a sorted list keeps it sorted |
| Sorting.SortByIsSorted | app/db/schema/products.ts:50 | with a consistent comparator, the sorted copy is sorted |
| Sorting.SortByAllEqualIsIdentity | app/routes/products._index.tsx:65-67 | a comparator that returns 0 for every pair leaves the order unchanged, since the sort is stable |
| Sorting.InsertLast | app/routes/products._index.tsx:65-67 | an element no smaller than any other is inserted at the end |
| Sorting.SliceBound | app/admin/products/route.tsx:149-152 | a `slice` bound is clamped into the list |
| Sorting.SliceLength | app/admin/products/route.tsx:149-152 | a slice is no longer than the distance between its bounds |

## Left out

- **Upload client.** The Tiptap editor and the upload clients (app/routes/api.upload/fetch.ts, app/lib/utils.ts) do network I/O and are not part of this model. fetch.ts sends the file in a field named "file", while the server reads "image" (app/routes/api.upload/route.ts:47), so an upload made through it gets "No image provided".
- **Image retrieval and storage.** Serving stored images and the database plumbing (app/db/index.ts, migrations, seeding, the other tables) are not part of this model. The `images` table is an abstract store, and whether its insert fails is an input.
- **Library functions.**
  - `R.isIncludedIn` is membership in the sequence of allowed types.
  - `arrayBuffer()` and `formData()` are inputs that may be missing (rejected promises).
- Text.ParseInt, Text.ParseNumber: only an optional sign followed by decimal digits is read.
  - White space, `0x`, fractions and exponents are not modelled.
  - A page parameter of "1.5" is therefore NaN here, and so page 1, while the browser reads 1.5.
- Text.Compare: `localeCompare` is replaced by comparison on character codes. Locale collation is not modelled.
- Text.Lower: `toLowerCase` folds only ASCII letters. String lengths count Dafny characters, not UTF-16 code units.
- **Variant keys.** The cart compares variants with `JSON.stringify`. Here variants are ordered lists of entries, equal exactly when the serializations are.
- CartContext.Cart.AddItem: aliasing is not modelled. The source's `+=` on the copied array's element also changes that line object in the previous state (app/contexts/CartContext.tsx:41); the model builds a new line value.
- **Prices.** Prices are whole NT$ (`int`), so floating-point rounding is not modelled. In the product form, price and stock are the `real` numbers that `z.coerce.number()` produces, with `None` for NaN. Converting the field text to that number is not modelled.
- UrlParams.SearchParams: `URLSearchParams` is a map, so the order of entries and repeated names are not kept.
- AdminProductsList.AdminCompare: sorting by `id`, `description`, `categoryId` or `images` compares every pair equal in the model. The source subtracts these values, which converts numeric text to numbers and anything else to NaN, and that comparator need not be consistent.
- AdminProductsList.HandleSort, AdminProductsIndex.HandleSort: the toggle reads the order from the parameters as they stand when the click is handled. React's render-time snapshot and batching are not modelled.
- AdminProductsList.HandlePriceChange, ProductFilter.HandlePriceChange: both require at least two slider values, the number of thumbs the range slider has. With fewer, the source would write "undefined".
- **Undefined search handler.** The search box of app/admin/products/route.tsx:213 calls a `handleSearch` that file does not define, so it is not modelled.
- **Email.** zod's e-mail grammar is abstract: `isEmail` is a parameter. The `required_error` messages of the two enums never apply, because the form always holds strings.
- **Timing, toast and submit.**
  - The checkout's simulated one-second delay, the `console` output and the error branch of its `try` are not modelled; nothing in it can fail.
  - The product form's `submit` call and its toast are I/O. Only the toast's texts are modelled.
- **Records and mock data.** The `Product` type of app/types/product.ts is not part of this model; the admin product record stands in for it on the admin index. Mock product and order lists are inputs.
- **Other pages.** Layouts, navigation, cards, the login and forgot-password forms, and the toast context are presentation only.
