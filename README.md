# thriftapp core, modelled in Dafny

thriftapp is a second-hand clothing marketplace. A small HTTP service keeps
seller accounts and product listings. A React/Redux client keeps a cart, a
wishlist, a product catalogue and a locally simulated user session, and shows
the environmental impact of buying second-hand. This project models the parts
of both that decide something:

- the service's request handlers over two in-memory tables: seller accounts
  keyed by normalised store name, and products keyed by id;
- the four Redux slices (cart, wishlist, products, auth) as classes whose
  methods are proved equal to pure specification functions, with the slice
  invariants (one cart line per product, no duplicate wishlist entries)
  proved preserved;
- the sustainability arithmetic, with CO2 counted in integer tenths of a kg
  so that every figure is exact;
- the decision logic inside five components:
  - the three-step seller registration with its one-time-password gate;
  - the cart totals;
  - the order-history derivation;
  - the listing form's image checks and ordered validation;
  - the home page's list choice and counts.

Modules follow the source files. `Text` and `JsValues` hold the JavaScript
behaviour the core relies on: `trim`, `toLowerCase`, `includes`, truthiness,
`x || d` and `Number(s)`. `Seqs` holds the array operations the core uses:
`filter`, `find`/`findIndex`, `reduce` as a sum, and a stable newest-first
sort. `Products` is the product record shared by the client modules.

Values the code generates are parameters of the operations that use them:
`Date.now()` ids, ISO timestamps (as natural numbers, which order as the
ISO strings do), random salts, object URLs, and the request's protocol and
host. The PBKDF2 password hash is an uninterpreted function given to the
service when it is created.

## Model

| member | source | states |
|---|---|---|
| Text.Trim | server/server.js:121 | the result has no leading or trailing white space and is no longer than the input |
| Text.TrimIsSlice | server/server.js:121 | the trimmed text is a contiguous slice of the input with nothing but white space before and after it |
| Text.Lower | server/server.js:121 | same length; each character is lower-cased (ASCII letters shift by 32, others unchanged) |
| Text.LowerIdempotent | src/redux/slices/productSlice.js:56 | lower-casing twice is lower-casing once |
| Text.ContainsAt | src/redux/slices/productSlice.js:58-61 | `includes` holds exactly when the query occurs at some position |
| JsValues.Get | src/components/seller/ProductListing.jsx:89-94 | a property read is defined exactly when the key is present, and is then its value |
| JsValues.OrEmpty | server/server.js:198-205 | `x \|\| ""` is the field when present and non-empty, "" otherwise |
| JsValues.OrDefault | server/server.js:297 | `x \|\| d` is the field when present and non-empty, `d` otherwise |
| JsValues.NonNumeralIsNaN | server/server.js:279-280 | `Number(s)` is NaN when the trimmed text, other than a signed "Infinity", has a character other than a digit, '.', '+' or '-' (the model's decimal literal has no exponent, see the JsValues.ParseNumber line under Left out) |
| JsValues.ParseNumber | server/server.js:279 | white space alone is 0; +Infinity exactly for "Infinity" or "+Infinity" and -Infinity exactly for "-Infinity" once trimmed; a negative finite value only behind a leading '-' (the same conversion is at src/components/seller/ProductListing.jsx line 82) |
| JsValues.Truthy | src/components/seller/ProductListing.jsx:89 | a value is falsy exactly when it is undefined, the empty string, false or 0 (the e-mail test is at line 95) |
| JsValues.NumberOfDigits | server/server.js:279-280 | `Number(s)` of a padded digit string is its decimal value |
| JsValues.UnsignedOfDigits | server/server.js:279-280 | a non-empty run of digits, read as an unsigned literal, is its decimal value |
| JsValues.PositiveDigits | server/server.js:279-282 | a digit string with a non-zero digit parses to a positive finite number |
| JsValues.NumberOfWord | src/components/seller/ProductListing.jsx:82 | `Number("abc")` is NaN |
| JsValues.NumberOfZero | src/components/seller/ProductListing.jsx:82 | `Number("0")` is 0 |
| Seqs.Filter | src/redux/slices/productSlice.js:33 | `filter` keeps exactly the elements that pass: every kept element passes and came from the input, every passing element is kept, and the result is no longer than the input |
| Seqs.FilterPositions | src/redux/slices/productSlice.js:33 | the kept elements are the input's elements at strictly increasing positions, and a position is used exactly when its element passes |
| Seqs.FilterKeepsOrder | src/redux/slices/productSlice.js:33 | the result of `filter` is the passing elements, each taken once, in their original order |
| Seqs.FilterTwice | src/components/buyer/Home.jsx:22 | filtering twice by the same test is filtering once |
| Seqs.SortDesc | src/components/orders/OrderHistory.jsx:47 | the sort's result is in descending key order and is a permutation of its input |
| Seqs.SumBySort | src/components/orders/OrderHistory.jsx:402 | sorting does not change a sum |
| Seqs.IndexWhere | src/redux/slices/productSlice.js:26 | `findIndex`: the first element that passes, or the length when none does |
| Products.AvailableNotSold | src/redux/slices/productSlice.js:20 | no product is both "available" and "sold" (also line 39) |
| CatalogService.NormalizeStoreName | server/server.js:121 | a missing name gives the empty key |
| CatalogService.NormalizeIsNormal | server/server.js:121 | every key is trimmed and already lower-case |
| CatalogService.NormalizeIdempotent | server/server.js:121 | normalising a normalised name changes nothing |
| CatalogService.NormalizeIgnoresCase | server/server.js:121 | names differing only in letter case have the same key |
| CatalogService.NormalizeIgnoresPadding | server/server.js:121 | white space around a name does not change its key |
| CatalogService.NormalizeExample | server/server.js:121 | " MyShop " and "myshop" have the same key |
| CatalogService.NormalizeTrimmed | server/server.js:185 | the stored trimmed store name has the same key as the name it came from (also line 214) |
| CatalogService.DescriptorOf | server/server.js:218-228 | the reply carries id as both id and sellerId, the store name as both name and storeName, email, phone and isSeller true, and no hash or salt (also lines 251-261) |
| CatalogService.UploadRejected | server/server.js:94-103 | no file is never rejected; an upload that passes is an image of at most 5 MB |
| CatalogService.NextStatus | server/server.js:322 | the new status is "sold" exactly for the literal "sold", and "available" for anything else, a missing value included |
| CatalogService.AddSellerValid | server/server.js:185-216 | inserting an account under its own fresh key with a fresh id keeps the seller-table invariant |
| CatalogService.AddKeyed | server/server.js:185-216 | inserting an account under its own key keeps every account stored under its normalised store name |
| CatalogService.AddFreshId | server/server.js:185-216 | inserting an account with an id no stored account has keeps the ids distinct |
| CatalogService.SetProductValid | server/server.js:289-309 | writing a row that is well formed keeps the product-table invariant (also lines 324-327) |
| CatalogService.Service.NewAccountAcceptsPassword | server/server.js:208-215 | the stored account keeps the generated id, salt and time, its store name, e-mail and phone are trimmed, and the registered password passes the check Login makes (line 247) |
| CatalogService.Service.Register | server/server.js:160-232 | 400 when storeName, sellerEmail, phone or password is missing; 400 for a password under 8 characters; 409 when the normalised name is taken; 500 when the id is taken; otherwise 201 with exactly one new account under the normalised name; the table is unchanged on every error, and at most one account exists per normalised name |
| CatalogService.Service.Login | server/server.js:234-265 | 400 without name or password; 200 with the stored account's descriptor when the name is known and the hash of the password with its salt matches; the same 401 for an unknown name and for a wrong password |
| CatalogService.Service.NewProduct | server/server.js:289-309 | the new row has the generated id and time, is available and unsold, and its price is the finite positive value `Number` gave the price text |
| CatalogService.Service.CreateProduct | server/server.js:267-316 | the upload filter's 400s, then 400 for missing name, category or price, 400 without an image, 400 unless the price is finite and above 0, 500 when the id is taken; success exactly when all pass, inserting one available row with size, description and sellerEmail defaulting to "" and condition to "Good"; nothing changes on error (the upload filter is at lines 94-103) |
| CatalogService.Service.UpdateStatus | server/server.js:318-339 | 404 and no change for an unknown id; otherwise only that row changes, to "sold" with the sale time for the literal "sold" and to "available" with no sale time for anything else |
| CatalogService.Service.DeleteProduct | server/server.js:341-359 | 404 and no change for an unknown id; otherwise 204 and exactly that row is removed |
| CatalogService.Service.ListProducts | server/server.js:151-158 | every stored row exactly once, newest listing first |
| CatalogService.ListStep | server/server.js:151-158 | inserting one more stored product's row keeps the rows sorted and listing exactly the products taken so far |
| CatalogService.RegisterThenLogin | server/server.js:209-228 | registering and then logging in with the same name and password gives back the same descriptor (also lines 251-261) |
| CatalogService.RegisterTwice | server/server.js:185-192 | a second registration whose name normalises to a taken key gets 409 and leaves only the first account |
| CartSlice.QuantityOfAppend | src/redux/slices/cartSlice.js:24-28 | appending a line adds its quantity to the count of its product |
| CartSlice.QuantityOfUpdate | src/redux/slices/cartSlice.js:22 | replacing a line changes the count by the difference (also line 43) |
| CartSlice.QuantityOfAbsent | src/redux/slices/cartSlice.js:17-19 | a product with no line has count 0 |
| CartSlice.LineOfProduct | src/redux/slices/cartSlice.js:17-19 | `find` by product id: the first line of that product, or none |
| CartSlice.LineWithId | src/redux/slices/cartSlice.js:41 | `find` by line id: the first line with that id, or none |
| CartSlice.InCartIff | src/redux/slices/cartSlice.js:17-21 | the lookup finds a line exactly when some line holds the product |
| CartSlice.Added | src/redux/slices/cartSlice.js:15-32 | the product's quantity goes up by exactly 1 and every other product's stays; an existing line is incremented with no line added, otherwise one line with quantity 1 is appended; other lines are unchanged; one line per product and quantities of at least 1 are preserved |
| CartSlice.Removed | src/redux/slices/cartSlice.js:34-37 | no line keeps the removed line id, every other line is kept once and in its original order, and the cart invariant is preserved |
| CartSlice.RemoveAbsentLine | src/redux/slices/cartSlice.js:34-37 | removing a line id no line has changes nothing |
| CartSlice.Updated | src/redux/slices/cartSlice.js:39-46 | only the first line with the id changes, and only when the new quantity is above 0; otherwise nothing changes; the cart invariant is preserved |
| CartSlice.CartStore.AddToCart | src/redux/slices/cartSlice.js:15-32 | the new item list is `Added` of the old one, and the invariant holds |
| CartSlice.CartStore.RemoveFromCart | src/redux/slices/cartSlice.js:34-37 | the new item list is `Removed` of the old one, and the invariant holds |
| CartSlice.CartStore.UpdateQuantity | src/redux/slices/cartSlice.js:39-46 | the new item list is `Updated` of the old one, and the invariant holds |
| CartSlice.CartStore.ClearCart | src/redux/slices/cartSlice.js:48-51 | the cart is empty |
| CartSlice.AddTwice | src/redux/slices/cartSlice.js:15-32 | adding the same product twice to an empty cart leaves one line, holding the first line id, with quantity 2 |
| WishlistSlice.EntryOf | src/redux/slices/wishlistSlice.js:13-15 | the lookup finds an entry exactly when the product is saved |
| WishlistSlice.Removed | src/redux/slices/wishlistSlice.js:28-34 | the product is no longer saved, every other product is saved exactly when it was, the remaining entries keep their original order, and no duplicates arise |
| WishlistSlice.FilterHolds | src/redux/slices/wishlistSlice.js:28-34 | dropping one product leaves every other product's saved state as it was |
| WishlistSlice.RemoveAbsent | src/redux/slices/wishlistSlice.js:28-34 | removing a product that is not saved changes nothing |
| WishlistSlice.Toggled | src/redux/slices/wishlistSlice.js:12-26 | the product's membership flips, every other product's stays, an absent product is appended and a present one is removed as `Removed` does, and no duplicates arise |
| WishlistSlice.ToggleTwice | src/redux/slices/wishlistSlice.js:17-23 | toggling an absent product twice gives the original list back |
| WishlistSlice.WishlistStore.ToggleWishlist | src/redux/slices/wishlistSlice.js:12-26 | the new list is `Toggled` of the old one, without duplicates |
| WishlistSlice.WishlistStore.RemoveFromWishlist | src/redux/slices/wishlistSlice.js:28-34 | the new list is `Removed` of the old one, without duplicates |
| WishlistSlice.WishlistStore.ClearWishlist | src/redux/slices/wishlistSlice.js:36-39 | the list is empty |
| ProductSlice.NewListing | src/redux/slices/productSlice.js:16-21 | the stored product has the given id and listing time and is available whatever the payload said; every other field is the payload's |
| ProductSlice.Merge | src/redux/slices/productSlice.js:28 | `{...p, ...patch}`: each of the eleven fields the patch carries replaces the product's, each field it leaves out keeps the product's value, and the id stays |
| ProductSlice.MergeNothing | src/redux/slices/productSlice.js:28 | a patch with only the id changes nothing |
| ProductSlice.MergeTwice | src/redux/slices/productSlice.js:28 | merging a patch twice is merging it once |
| ProductSlice.IndexOfId | src/redux/slices/productSlice.js:26 | the first product with the id, or none (also line 37) |
| ProductSlice.Updated | src/redux/slices/productSlice.js:25-31 | the patch is merged into the first product with its id and nothing else changes; an unknown id changes nothing |
| ProductSlice.MarkedSold | src/redux/slices/productSlice.js:36-43 | the first product with the id becomes sold at the given time with its other fields kept, and nothing else changes; an unknown id changes nothing |
| ProductSlice.Deleted | src/redux/slices/productSlice.js:32-35 | no product keeps the id and every other product is kept, once and in its original order |
| ProductSlice.DeleteAbsent | src/redux/slices/productSlice.js:32-35 | deleting an id no product has changes nothing |
| ProductSlice.Available | src/redux/slices/productSlice.js:65-67 | exactly the available products, in their original order |
| ProductSlice.ByCategory | src/redux/slices/productSlice.js:44-53 | exactly the available products of the category, or all available products for "All Categories", in their original order |
| ProductSlice.Searched | src/redux/slices/productSlice.js:54-64 | every result is available and its lower-cased name, description or category contains the lower-cased query; every such product is a result; results keep the list's order |
| ProductSlice.SearchEmpty | src/redux/slices/productSlice.js:54-64 | the empty query finds every available product |
| ProductSlice.SearchIgnoresCase | src/redux/slices/productSlice.js:56 | the query's letter case does not change the result |
| ProductSlice.ProductStore.AddProduct | src/redux/slices/productSlice.js:15-24 | exactly one product, `NewListing` of the payload, is appended |
| ProductSlice.ProductStore.UpdateProduct | src/redux/slices/productSlice.js:25-31 | the new list is `Updated` of the old one |
| ProductSlice.ProductStore.DeleteProduct | src/redux/slices/productSlice.js:32-35 | the new list is `Deleted` of the old one |
| ProductSlice.ProductStore.MarkAsSold | src/redux/slices/productSlice.js:36-43 | the new list is `MarkedSold` of the old one |
| ProductSlice.ProductStore.FilterByCategory | src/redux/slices/productSlice.js:44-53 | the selected category is set and the view is `ByCategory`; the master list cannot change |
| ProductSlice.ProductStore.SearchProducts | src/redux/slices/productSlice.js:54-64 | the query is stored and the view is `Searched`; the master list cannot change |
| ProductSlice.ProductStore.LoadAllProducts | src/redux/slices/productSlice.js:65-67 | the view is `Available`; the master list cannot change |
| ProductSlice.AddThenSell | src/redux/slices/productSlice.js:15-43 | a product added with a fresh id and then marked sold is sold at that time, after the unchanged earlier products |
| AuthSlice.NewUser | src/redux/slices/authSlice.js:17-21 | the payload's fields with the given id and isSeller false |
| AuthSlice.MatchingUser | src/redux/slices/authSlice.js:34-38 | the first user whose email and password equal the payload's, or none |
| AuthSlice.SignupCredentials | src/redux/slices/authSlice.js:16-38 | a signed-up user has the credentials of its payload |
| AuthSlice.MergedUser | src/redux/slices/authSlice.js:63 | `{...user, ...payload}`: the payload's fields win and the user's other fields stay |
| AuthSlice.AuthStore.Signup | src/redux/slices/authSlice.js:16-31 | one user is appended and becomes the current user, logged in; the mode is unchanged |
| AuthSlice.AuthStore.Login | src/redux/slices/authSlice.js:33-48 | the first matching user becomes current and logged in; with no match nothing changes; the user list never changes |
| AuthSlice.AuthStore.Logout | src/redux/slices/authSlice.js:50-55 | no current user, logged out, users and mode unchanged |
| AuthSlice.AuthStore.SwitchMode | src/redux/slices/authSlice.js:57-60 | the mode is set and nothing else can change |
| AuthSlice.AuthStore.UpdateSellerDetails | src/redux/slices/authSlice.js:62-65 | only the current user changes, to the merge; the user list cannot change |
| AuthSlice.SignupLogoutLogin | src/redux/slices/authSlice.js:16-55 | signing up, logging out and logging in with the same payload logs in a user with those credentials |
| AuthSlice.SellerDetailsLostOnRelogin | src/redux/slices/authSlice.js:23-24 | merged seller details are gone after logging out and back in, since the stored user is the sign-up record (also lines 41, 62-65) |
| Sustainability.CO2TableBounds | src/utils/sustainabilityUtils.js:9-24 | every CO2 factor lies between 2.0 and 33.4 kg |
| Sustainability.WaterTableBounds | src/utils/sustainabilityUtils.js:27-42 | every water factor lies between 500 and 7500 litres |
| Sustainability.TablesSameKeys | src/utils/sustainabilityUtils.js:9-42 | both tables list the same categories |
| Sustainability.CO2Saved | src/utils/sustainabilityUtils.js:47-49 | the table value for a listed category, 10.0 kg ("All Categories") for any other (the table is at lines 9-24) |
| Sustainability.WaterSaved | src/utils/sustainabilityUtils.js:54-56 | the table value for a listed category, 3000 litres for any other (the table is at lines 27-42) |
| Sustainability.TotalsAppend | src/utils/sustainabilityUtils.js:61-68 | the totals of two lists together add up |
| Sustainability.TotalsBounded | src/utils/sustainabilityUtils.js:61-68 | totals lie between 2.0 and 33.4 kg, and between 500 and 7500 litres, per product |
| Sustainability.Trees | src/utils/sustainabilityUtils.js:73 | the floor of CO2 over 21 kg |
| Sustainability.Plastic | src/utils/sustainabilityUtils.js:74 | the floor of CO2 over 6 kg |
| Sustainability.PlasticAtLeastTrees | src/utils/sustainabilityUtils.js:73-74 | for a saving that is not negative, bottles are never fewer than trees |
| Sustainability.CalculateTotalImpact | src/utils/sustainabilityUtils.js:61-76 | co2 and water are the sums of the per-product lookups, trees and plastic their floors, plastic is at least trees, and the empty list gives all zeros |
| Sustainability.Tier | src/utils/sustainabilityUtils.js:81-87 | the number of thresholds reached is one of the five badges |
| Sustainability.AchievementLevel | src/utils/sustainabilityUtils.js:81-87 | the badge of the saving's tier on the ladder 50, 100, 200, 500 kg |
| Sustainability.AchievementMonotone | src/utils/sustainabilityUtils.js:81-87 | saving more never earns a lower badge |
| Sustainability.ReachedCount | src/utils/sustainabilityUtils.js:93-124 | the facts reached form a prefix of the list |
| Seqs.FilterPrefix | src/utils/sustainabilityUtils.js:127 | filtering a list that passes on a prefix and fails afterwards returns the prefix |
| Sustainability.ApplicableFacts | src/utils/sustainabilityUtils.js:127 | the facts a saving reaches are the first ReachedCount facts of the list |
| Sustainability.FactsAscending | src/utils/sustainabilityUtils.js:92-125 | the fact thresholds strictly increase along the list |
| Sustainability.LastReachedIsLargest | src/utils/sustainabilityUtils.js:127-128 | the last fact reached has the largest threshold of all the facts reached |
| Sustainability.EnvironmentalFact | src/utils/sustainabilityUtils.js:92-129 | a fact exactly for savings that are not negative, and then the one with the largest threshold not above the saving |
| Sustainability.ComparisonTrees | src/utils/sustainabilityUtils.js:154-160 | the comparison's trees equal the total impact's trees |
| SellerRegistration.AsObject | src/components/seller/SellerRegistration.jsx:86-87 | the form fields as an object, key for key |
| SellerRegistration.FinishPayload | src/components/seller/SellerRegistration.jsx:83-91 | the union of the KYC and detail fields, details winning, with isSeller true, the seller id and gstRate 0 |
| SellerRegistration.FinishKeepsPhone | src/components/seller/SellerRegistration.jsx:83-91 | a phone given only in the KYC step reaches the merged user unchanged |
| SellerRegistration.Registration.KycChange | src/components/seller/SellerRegistration.jsx:49-51 | one KYC field changes |
| SellerRegistration.Registration.SendOtp | src/components/seller/SellerRegistration.jsx:57-68 | a missing or short phone number changes nothing; otherwise the password is sent, the step is 2 and the error is cleared |
| SellerRegistration.Registration.EnteredOtpChange | src/components/seller/SellerRegistration.jsx:210 | the typed password is stored |
| SellerRegistration.Registration.VerifyOtp | src/components/seller/SellerRegistration.jsx:70-78 | exactly "123456" moves to step 3 and clears the error; anything else sets the error and keeps step 2 |
| SellerRegistration.Registration.BackToKyc | src/components/seller/SellerRegistration.jsx:223 | back from step 2 to step 1 |
| SellerRegistration.Registration.BackToOtp | src/components/seller/SellerRegistration.jsx:385 | back from step 3 to step 2 |
| SellerRegistration.Registration.DetailsChange | src/components/seller/SellerRegistration.jsx:53-55 | one detail field changes |
| SellerRegistration.Registration.Finish | src/components/seller/SellerRegistration.jsx:80-91 | the current user becomes the merge of the finish payload, a seller with gstRate 0 |
| SellerRegistration.WrongOtpStays | src/components/seller/SellerRegistration.jsx:70-78 | any password but the demo one keeps the form at step 2 with the error |
| SellerRegistration.RegisterAsSeller | src/components/seller/SellerRegistration.jsx:26-91 | a fresh form, a phone of 10 or more characters, the demo password and Finish make the current user a seller with that phone |
| CartView.CartTotals | src/components/buyer/Cart.jsx:26-38 | subtotal is the sum of price times quantity, the fee is 50 per line whatever the quantities, and total is their sum |
| CartView.EmptyCartTotals | src/components/buyer/Cart.jsx:26-38 | an empty cart gives 0 for subtotal, fee and total |
| CartView.AddExistingTotals | src/components/buyer/Cart.jsx:27-32 | adding a product that has a line raises the subtotal by its unit price and leaves the fee |
| CartView.AddNewTotals | src/components/buyer/Cart.jsx:27-32 | adding a product with no line raises the subtotal by its price and the fee by 50 |
| CartView.OneMoreCost | src/components/buyer/Cart.jsx:27-28 | one more of a line costs one more unit price |
| CartView.QuantityKeepsFee | src/components/buyer/Cart.jsx:32 | a quantity change never changes the fee |
| CartView.QuantityChange | src/components/buyer/Cart.jsx:40-43 | a quantity below 1 dispatches nothing; any other is dispatched as is |
| CartView.MinusAtOne | src/components/buyer/Cart.jsx:40-43 | the minus button on a line with quantity 1 dispatches nothing |
| OrderHistory.DateOf | src/components/orders/OrderHistory.jsx:42 | the sale time when there is one, the listing time otherwise |
| OrderHistory.OrderOf | src/components/orders/OrderHistory.jsx:33-45 | the order of a product: its fields, platformFee 50, total price + 50, the date of `DateOf`, status "Delivered" |
| OrderHistory.MapOrders | src/components/orders/OrderHistory.jsx:32-46 | one order per product, position for position |
| OrderHistory.Orders | src/components/orders/OrderHistory.jsx:29-48 | newest first; a rearrangement of the sold products' orders, multiplicities included; exactly as many orders as sold products; every order comes from a sold product and every sold product has its order; each is "Delivered" with fee 50 and total price + 50 |
| OrderHistory.MappedTotal | src/components/orders/OrderHistory.jsx:40-41 | the orders of a list cost its prices plus 50 each |
| OrderHistory.SoldOrders | src/components/orders/OrderHistory.jsx:30-47 | any arrangement of the sold products' orders holds an order of every sold product and nothing else |
| OrderHistory.OrderFromSold | src/components/orders/OrderHistory.jsx:30-47 | each such order is the order of some sold product |
| OrderHistory.SoldHasOrder | src/components/orders/OrderHistory.jsx:30-47 | each sold product's order is among them |
| OrderHistory.TotalSpent | src/components/orders/OrderHistory.jsx:402 | the sum of the order totals is not negative when no total is |
| OrderHistory.TotalSpentOfOrders | src/components/orders/OrderHistory.jsx:402 | total spent is the sum of the sold products' prices plus 50 per sold product |
| OrderHistory.NothingSold | src/components/orders/OrderHistory.jsx:30-31 | with nothing sold there are no orders and nothing spent (also line 402) |
| ProductListing.Failures | src/components/seller/ProductListing.jsx:72-98 | at most five failed checks; none exactly when there is an image, the required fields are filled, the price is not at most 0 and the seller is registered with an e-mail; the image message first without an image; the price message for a price at most 0 |
| ProductListing.RejectionIsFirstFailure | src/components/seller/ProductListing.jsx:72-98 | the submission stops exactly when some check fails, and then with the first failing check's message |
| ProductListing.NotANumberPriceAccepted | src/components/seller/ProductListing.jsx:82 | a price that is not a number passes validation, since NaN <= 0 is false |
| ProductListing.PayloadOf | src/components/seller/ProductListing.jsx:100-105 | the form fields, with sellerEmail from the session, the price as a number, and the image |
| ProductListing.ListingForm.ImageUpload | src/components/seller/ProductListing.jsx:31-50 | no file changes nothing; a file over 5 MiB or not of an image type sets its error and keeps the previous image; otherwise the image is stored with its preview and the error cleared |
| ProductListing.ListingForm.RemoveImage | src/components/seller/ProductListing.jsx:53-56 | the image and its preview are both cleared |
| ProductListing.ListingForm.Change | src/components/seller/ProductListing.jsx:59-65 | one field changes and the error is cleared |
| ProductListing.ListingForm.Submit | src/components/seller/ProductListing.jsx:68-105 | a payload exactly when no check fails, with the first failure's message as the error otherwise; the upload flag is lowered again once raised |
| ProductListing.OversizedKeepsPrevious | src/components/seller/ProductListing.jsx:36-39 | an oversized image after an accepted one keeps the accepted one |
| HomeView.SourceList | src/components/buyer/Home.jsx:21 | the filtered list when it is not empty, all products otherwise |
| HomeView.Displayed | src/components/buyer/Home.jsx:21-22 | exactly the available products of the source list, in their original order |
| HomeView.DisplayedAfterLoad | src/components/buyer/Home.jsx:22-26 | after the mount-time load the page lists exactly the available products |
| HomeView.Categories | src/components/buyer/Home.jsx:35 | exactly the categories of the products, no more of them than products, and at least one when there is a product |
| HomeView.HomeStats | src/components/buyer/Home.jsx:33-35 | the counts of available and of sold products, which sum to at most the number of products, and the number of distinct categories |

## Left out

- Sustainability.CO2Saved / WaterSaved: the source looks a category up in a plain object, so a name such as "constructor", "toString", "valueOf", "hasOwnProperty" or "__proto__" finds an inherited member (a function or an object) instead of falling back, and the totals then become a string and NaN; the model treats these names as unknown categories and gives 10.0 kg and 3000 litres.
- Text.Lower: `toLowerCase` is modelled for ASCII letters only; other letters are left as they are.
- JsValues.ParseNumber: `Number(s)` covers the empty string, "Infinity" with a sign and decimal literals with an optional sign; exponent ('e'/'E'), hexadecimal, octal and binary forms, which JavaScript accepts, are NaN here.
- Numbers are exact: prices are reals and CO2 is in integer tenths of a kg. Floating-point rounding of JavaScript sums, including near the floors of the tree and bottle counts, is not modelled.
- CatalogService.Service.CreateProduct: where `Number` leaves the reals (server/server.js:279-282) the replies differ. A digit string above about 1.8e308 is Infinity in JavaScript, so the server answers 400 where the model answers 201. A positive literal below about 5e-324 is 0 in JavaScript, so the server answers 400 where the model answers 201.
- OrderHistory.TotalSpent: the page shows the sum rounded to whole rupees with `.toFixed(0)` (src/components/orders/OrderHistory.jsx:402); the model gives the exact sum and not the rounded text.
- String lengths count code points, not UTF-16 units, so a password or phone number outside the basic plane is measured differently.
- Password hashing is an uninterpreted function. PBKDF2 itself and the timing-safe comparison are not modelled.
- Generated ids, timestamps and salts are parameters, and their collisions are not modelled. A collision on insert is modelled as the handler's 500 reply.
- HTTP routing, CORS, the database driver, static file serving, disk storage of uploads and the removal of an image file on delete are not modelled; only the table effects are.
- The "Failed to fetch products"/"Failed to update product"/"Failed to delete product"/"Failed to login seller" 500 replies for database faults are not modelled, since the in-memory tables cannot fail.
- Browser persistence is not modelled. Every slice and form starts empty, and saving to local storage is a no-op.
- ProductSlice: products always carry every field, so the optional chaining of `searchProducts` on a missing name, description or category is not modelled.
- Seqs.SortDesc is the stable sort JavaScript uses, but only its order and permutation are proved, not its stability. The service's listing order for equal times is unspecified.
- Sustainability: the fact texts are left out (only the icons are kept), and so are `formatCO2`, `formatWater` and the smartphones, coffees and miles metrics of `getComparisonMetrics`, which divide by 0.08, 0.21 and 0.4 (only its trees metric is modelled).
- ProductListing.ListingForm.Submit: modelled up to the payload. The dispatch of the product, its failing `unwrap`, the alert, the navigation and the catch/finally error text are not modelled.
- The Wishlist page's remove button, the login screen (whose lookup repeats `AuthSlice.MatchingUser`), payments, routing, theming and the other pure UI parts are not modelled.
- The duplicate sustainability tables inside the badge and product-details components are not modelled separately; they are the same as `Sustainability.CO2_TENTHS`/`WATER_LITRES`.
