# JingJai core in Dafny

JingJai is a luxury-goods authentication app. A React Native client walks the user through these steps:

1. Pick a product.
2. Choose an inspection package and a payment method.
3. Photograph the item slot by slot.
4. Read an AI verdict.

A FastAPI backend records Google Pay payments and refunds, and keeps the user's profile.

This project models the decision logic of those screens and routes and proves what they promise.

The photo flow:
- **Product catalogue.** A fixed product table with the required photo slots of each product; lookups and filters over it (`ProductConfig`). It is proved well formed: distinct keys, and every product has a non-empty slot list with distinct ids.
- **Photo-capture session.** A class (`PhotoCapture`) with:
  - a cursor over the slots;
  - a map from slot id to image;
  - the two-phase camera/gallery acquisition, guarded by `loading`;
  - removal of a photo;
  - the gate that unlocks "Start AI Analysis" exactly when every slot has a photo.
- **Results screen.** The label formatting of the per-check keys, and the verdict texts (`AIResults`).

Package, payment and card entry:
- **Package-and-payment screen.** The package and method tables, and the Continue gate that demands card details only for credit cards (`ProductAuthSelection`).
- **Stand-alone payment screen.** Its `isProcessing` guard (`Payment`).
- **Shared card input filters** (`CardInput`):
  - the card-number formatter, proved to keep exactly the typed digits, in groups of at most four;
  - the expiry formatter;
  - the CVV digit filter;
  - the length guards on the stored text.

Accounts, API and lists:
- **API client** (`Api`): how `callAPI` builds a request, picks the message of a failed response, and rewrites network errors; how `loginUser` normalises credentials.
- **Registration form** (`Register`):
  - its validation, including the email pattern restated in plain terms;
  - the payload, proved to normalise the email exactly as login does;
  - the alert texts.
- **Brand and product lists, and the product picker** (`BrandSelection`, `ProductCatalog`, `ProductSelection`). Their case-insensitive searches are proved to keep exactly the matching entries, in order. Favourites and the view mode toggle.
- **Profile screen** (`Profile`): the initials and display name, and the settings switches.

Backend:
- **Google Pay routes** (`GooglePayRoutes`). A ledger class of payments and refunds keyed by their unique ids. Its invariant: every refund refers to a payment that is no longer `completed`, does not exceed it, and no payment has two refunds.
- **Profile routes** (`ProfileRoutes`): the partial profile update with rollback, the photo upload, the settings defaults and their round trip, new authentication requests, and the soft delete.

The shared helpers model the JavaScript string operations the screens use, over ASCII: `trim`, `toLowerCase`, `includes`, `split`, `join` and the digit filters (`Text`, `Collections`).

The proofs show some consequences of the code as written:
- **Registration errors.** A network failure reaches the registration form already rewritten by `callAPI`. The form therefore shows its generic failure text, never its own "Cannot connect" text (`Register.NetworkFailureShowsGenericText`).
- **Refunds.** A refund may be negative. After any refund, full or partial, a payment can never be refunded again.
- **Card number.** The card-number formatter is idempotent only on text made of digits and whitespace.

## Model

| member | source | states |
|---|---|---|
| Collections.Filter | JingJaiV3/src/screens/catalog/BrandSelectionScreen.js:47-49 | `Array.filter`: the kept elements are exactly those satisfying the test, in their original order |
| Collections.FilterCount | JingJaiV3/src/screens/catalog/BrandSelectionScreen.js:47-49 | `Array.filter` keeps each passing value as often as it occurs and drops every other value |
| Text.Trim | JingJaiV3/services/api.js:110 | `trim()` removes only leading and trailing whitespace: the result is a slice of the input with no whitespace at either end |
| Text.TrimEmptyIff | JingJaiV3/src/screens/catalog/BrandSelectionScreen.js:44 | a query trims to the empty string exactly when it is all whitespace, the blank test of the search filters |
| Text.TrimIdempotent | JingJaiV3/services/api.js:110 | trimming twice is trimming once |
| Text.LowerTrimCommute | JingJaiV3/services/api.js:110 | `toLowerCase().trim()` equals `trim().toLowerCase()` |
| Text.NatToStringInjective | jingjai_backend/app/profile_routes.py:70 | distinct ids render to distinct decimal strings |
| ProductConfig.CatalogueWellFormed | JingJaiV3/config/productConfig.js:3-165 | the table's keys are distinct and every product has a non-empty slot list with distinct slot ids |
| ProductConfig.Lookup | JingJaiV3/config/productConfig.js:168-170 | returns nothing exactly when no key matches, otherwise the entry stored under the key |
| ProductConfig.GetProductConfigSpec | JingJaiV3/config/productConfig.js:168-170 | a configured id yields its own entry, any other id that is not an inherited object property yields `null` |
| ProductConfig.KnownProductSlots | JingJaiV3/config/productConfig.js:168-170 | whatever a configured id yields has a usable slot list |
| ProductConfig.GetAllProducts | JingJaiV3/config/productConfig.js:172-177 | one product per key, in key order, each carrying its key as `id` and its entry's fields |
| ProductConfig.AllProductsKnown | JingJaiV3/config/productConfig.js:172-177 | every listed product is found again by its id |
| ProductConfig.GetProductsByBrand | JingJaiV3/config/productConfig.js:179-183 | exactly the products whose brand equals the name ignoring case, in catalogue order |
| ProductConfig.GetProductsByCategory | JingJaiV3/config/productConfig.js:185-189 | exactly the products of that category, in catalogue order |
| PhotoCapture.NextIndex | JingJaiV3/src/screens/authentication/PhotoCaptureScreen.js:84-90 | the cursor moves one forward exactly when a later slot exists, and stays in range |
| PhotoCapture.PreviousIndex | JingJaiV3/src/screens/authentication/PhotoCaptureScreen.js:92-98 | the cursor moves one back exactly when it is not on the first slot |
| PhotoCapture.NavigationRoundTrip | JingJaiV3/src/screens/authentication/PhotoCaptureScreen.js:84-98 | Next then Previous, and Previous then Next, return to the cursor; each is a no-op at its boundary |
| PhotoCapture.AllTakenIffEverySlotFilled | JingJaiV3/src/screens/authentication/PhotoCaptureScreen.js:282 | counting stored photos against the slot count is the same as every slot id having a photo |
| PhotoCapture.StoreAll | JingJaiV3/src/screens/authentication/PhotoCaptureScreen.js:117-124 | a run of captures adds exactly the captured slot ids to the stored ones |
| PhotoCapture.CapturesCoveringAllSlotsComplete | JingJaiV3/src/screens/authentication/PhotoCaptureScreen.js:117-124 | captures covering every slot, in any order and with retakes, complete the set |
| PhotoCapture.RemoveThenRetake | JingJaiV3/src/screens/authentication/PhotoCaptureScreen.js:178-182 | removing one photo of a complete set breaks completion; capturing that slot again restores it |
| PhotoCapture.CaptureSession.constructor | JingJaiV3/src/screens/authentication/PhotoCaptureScreen.js:24-45 | defaults `basic` and `attica-bag`, the product's slots and name, no photos, cursor on the first slot |
| PhotoCapture.CaptureSession.Next | JingJaiV3/src/screens/authentication/PhotoCaptureScreen.js:84-90 | the cursor becomes `NextIndex` of the old one |
| PhotoCapture.CaptureSession.Previous | JingJaiV3/src/screens/authentication/PhotoCaptureScreen.js:92-98 | the cursor becomes `PreviousIndex` of the old one |
| PhotoCapture.CaptureSession.Jump | JingJaiV3/src/screens/authentication/PhotoCaptureScreen.js:349-352 | pressing a slot's indicator puts the cursor on it |
| PhotoCapture.CaptureSession.BeginCapture | JingJaiV3/src/screens/authentication/PhotoCaptureScreen.js:100-102 | starting an acquisition raises `loading` and records the slot and source |
| PhotoCapture.CaptureSession.FinishCapture | JingJaiV3/src/screens/authentication/PhotoCaptureScreen.js:100-166 | a captured image is stored under its slot and the cursor advances; any other outcome changes neither, and shows the permission or error alert of its source |
| PhotoCapture.CaptureSession.RemovePhoto | JingJaiV3/src/screens/authentication/PhotoCaptureScreen.js:168-187 | a confirmed removal deletes only that slot's photo |
| PhotoCapture.CaptureSession.PhotoProgress | JingJaiV3/src/screens/authentication/PhotoCaptureScreen.js:283 | the count never exceeds the slot count and reaches it exactly when every slot has a photo |
| PhotoCapture.CaptureSession.Remaining | JingJaiV3/src/screens/authentication/PhotoCaptureScreen.js:397 | remaining plus stored equals required; zero exactly when every slot has a photo |
| PhotoCapture.CaptureSession.AllPhotosTaken | JingJaiV3/src/screens/authentication/PhotoCaptureScreen.js:282 | true exactly when every required slot id has a photo |
| PhotoCapture.CaptureSession.Submit | JingJaiV3/src/screens/authentication/PhotoCaptureScreen.js:381-384 | a submission exists exactly when every slot has a photo, and carries the whole photo map |
| PhotoCapture.CaptureSession.GoBack | JingJaiV3/src/screens/authentication/PhotoCaptureScreen.js:69-82 | asks before leaving exactly when a photo is stored |
| CardInput.DigitGroups | JingJaiV3/src/screens/authentication/ProductAuthSelectionScreen.js:152-156 | `match(/\d{1,4}/g)`: every group is one to four digits |
| CardInput.DigitGroupsConcat | JingJaiV3/src/screens/authentication/ProductAuthSelectionScreen.js:152-156 | the groups put together are exactly the digits of the text |
| CardInput.FormatCardNumber | JingJaiV3/src/screens/authentication/ProductAuthSelectionScreen.js:152-156 | the formatted number is digits and single spaces, each space followed by a digit, never five digits in a row |
| CardInput.CardNumberKeepsDigits | JingJaiV3/src/screens/authentication/ProductAuthSelectionScreen.js:152-156 | the formatted number holds exactly the typed digits, in order |
| CardInput.CardNumberSpacesOnly | JingJaiV3/src/screens/authentication/ProductAuthSelectionScreen.js:152-156 | removing the spaces from the formatted number leaves exactly the typed digits |
| CardInput.CardNumberEmptyIff | JingJaiV3/src/screens/authentication/ProductAuthSelectionScreen.js:152-156 | the result is empty exactly when no digit was typed |
| CardInput.CardNumberGroupsOfFour | JingJaiV3/src/screens/authentication/ProductAuthSelectionScreen.js:152-156 | for digits and whitespace, the groups are fours followed by a shorter rest |
| CardInput.CardNumberIdempotent | JingJaiV3/src/screens/authentication/ProductAuthSelectionScreen.js:152-156 | for digits and whitespace, formatting the formatted number changes nothing |
| CardInput.CardNumberFitsIff | JingJaiV3/src/screens/authentication/ProductAuthSelectionScreen.js:402-407 | for digits and whitespace, the formatted number fits 19 characters exactly when there are at most 16 digits |
| CardInput.StoreCardNumber | JingJaiV3/src/screens/authentication/ProductAuthSelectionScreen.js:402-407 | the formatted text replaces the field when it has at most 19 characters, otherwise the field keeps its value |
| CardInput.FormatExpiryDate | JingJaiV3/src/screens/authentication/ProductAuthSelectionScreen.js:158-164 | at most five characters; from two digits on, a `/` after the first two, and the rest is the first four digits typed |
| CardInput.ExpiryIdempotent | JingJaiV3/src/screens/authentication/ProductAuthSelectionScreen.js:158-164 | formatting a formatted expiry changes nothing |
| CardInput.StoreExpiryAlwaysAccepts | JingJaiV3/src/screens/authentication/ProductAuthSelectionScreen.js:421-426 | the five-character guard never rejects a formatted expiry |
| CardInput.FilterCvv | JingJaiV3/src/screens/authentication/ProductAuthSelectionScreen.js:438-441 | the CVV field keeps exactly the digits typed, each as often as typed, in order |
| CardInput.CvvIdempotent | JingJaiV3/src/screens/authentication/ProductAuthSelectionScreen.js:438-441 | filtering a filtered CVV changes nothing |
| CardInput.CardDetailsFilledIff | JingJaiV3/src/screens/authentication/ProductAuthSelectionScreen.js:136-141 | the card check passes exactly when each of the four fields has a non-whitespace character |
| ProductAuthSelection.FindPackage | JingJaiV3/src/screens/authentication/ProductAuthSelectionScreen.js:77 | `find`: none exactly when no package has the id, otherwise a table package with that id |
| ProductAuthSelection.FindPaymentMethod | JingJaiV3/src/screens/authentication/ProductAuthSelectionScreen.js:35-40 | none exactly when no method has the id, otherwise a table method with that id |
| ProductAuthSelection.DefaultSelection | JingJaiV3/src/screens/authentication/ProductAuthSelectionScreen.js:22-31 | the screen opens on the basic package at 300 and the credit card |
| ProductAuthSelection.AuthSelectionScreen.constructor | JingJaiV3/src/screens/authentication/ProductAuthSelectionScreen.js:72-75 | absent brand and product names take their defaults; the form starts empty |
| ProductAuthSelection.AuthSelectionScreen.SelectPackage | JingJaiV3/src/screens/authentication/ProductAuthSelectionScreen.js:195 | the pressed package becomes the selection |
| ProductAuthSelection.AuthSelectionScreen.SelectPaymentMethod | JingJaiV3/src/screens/authentication/ProductAuthSelectionScreen.js:330-332 | the pressed method becomes the selection |
| ProductAuthSelection.AuthSelectionScreen.TypeCardNumber | JingJaiV3/src/screens/authentication/ProductAuthSelectionScreen.js:402-407 | the field goes through `StoreCardNumber` and stays within 19 characters |
| ProductAuthSelection.AuthSelectionScreen.TypeExpiry | JingJaiV3/src/screens/authentication/ProductAuthSelectionScreen.js:421-426 | the formatted expiry is stored |
| ProductAuthSelection.AuthSelectionScreen.TypeCvv | JingJaiV3/src/screens/authentication/ProductAuthSelectionScreen.js:438-441 | the field holds only digits |
| ProductAuthSelection.AuthSelectionScreen.TypeCardName | JingJaiV3/src/screens/authentication/ProductAuthSelectionScreen.js:456 | the name is stored as typed |
| ProductAuthSelection.AuthSelectionScreen.SaveCardAccepted | JingJaiV3/src/screens/authentication/ProductAuthSelectionScreen.js:464-470 | Save Card closes the form exactly when every field has a non-whitespace character |
| ProductAuthSelection.AuthSelectionScreen.Continue | JingJaiV3/src/screens/authentication/ProductAuthSelectionScreen.js:133-150 | blocked exactly for a credit card with a blank field; otherwise navigates with the selected package's price and title and the method's name |
| ProductAuthSelection.AuthSelectionScreen.HowToCheck | JingJaiV3/src/screens/authentication/ProductAuthSelectionScreen.js:122-129 | navigates with the selected package's price and title, whatever the card fields hold |
| ProductAuthSelection.NonCardSkipsCardCheck | JingJaiV3/src/screens/authentication/ProductAuthSelectionScreen.js:136-141 | any method but the credit card passes Continue, even with an empty card form |
| ProductAuthSelection.BasicPackageRoute | JingJaiV3/src/screens/authentication/ProductAuthSelectionScreen.js:143-149 | with the basic package Continue passes on 300 and "Basic Check" |
| Payment.PaymentDecision | JingJaiV3/src/screens/authentication/PaymentScreen.js:30-65 | ignored exactly while processing; a validation error exactly for a card with a blank field; otherwise the payment starts with the selected method |
| Payment.PaymentScreen.constructor | JingJaiV3/src/screens/authentication/PaymentScreen.js:18-23 | the card method is selected, the form is empty and nothing is processing |
| Payment.PaymentScreen.SelectPayment | JingJaiV3/src/screens/authentication/PaymentScreen.js:123 | the pressed method becomes the selection |
| Payment.PaymentScreen.TypeCardNumber | JingJaiV3/src/screens/authentication/PaymentScreen.js:173-178 | the field goes through `StoreCardNumber` |
| Payment.PaymentScreen.TypeExpiry | JingJaiV3/src/screens/authentication/PaymentScreen.js:191-196 | the formatted expiry is stored |
| Payment.PaymentScreen.TypeCvv | JingJaiV3/src/screens/authentication/PaymentScreen.js:207 | this screen stores the CVV unfiltered |
| Payment.PaymentScreen.TypeCardName | JingJaiV3/src/screens/authentication/PaymentScreen.js:221 | the name is stored as typed |
| Payment.PaymentScreen.HandlePayment | JingJaiV3/src/screens/authentication/PaymentScreen.js:30-43 | the outcome is `PaymentDecision` of the old state; processing is on afterwards exactly unless validation failed, and a press while processing keeps it on |
| Payment.PaymentScreen.CompletePayment | JingJaiV3/src/screens/authentication/PaymentScreen.js:45-64 | the timer ends processing and navigates with the started method and `attica-bag` |
| Payment.NonCardBypassesValidation | JingJaiV3/src/screens/authentication/PaymentScreen.js:36-42 | a method other than the card starts whatever the card fields hold |
| Payment.BlankCardNeverStarts | JingJaiV3/src/screens/authentication/PaymentScreen.js:36-42 | a card payment with a blank form never starts |
| Api.BuildConfig | JingJaiV3/services/api.js:16-27 | the body is attached exactly when there is one and the method is not GET |
| Api.ParseData | JingJaiV3/services/api.js:33-45 | JSON content is parsed, anything else becomes `{message: text, user: null}` |
| Api.ErrorMessage | JingJaiV3/services/api.js:49-66 | `detail`, else `message`, else the fixed 401/404/500 text, else `HTTP error <status>` |
| Api.ErrorMessageNonEmpty | JingJaiV3/services/api.js:49-66 | the message of a failed response is never empty, and is the initial placeholder only when the server sent it |
| Api.Rethrow | JingJaiV3/services/api.js:76-90 | network `TypeError`s become the connection message, timeouts the timeout message, anything else is rethrown unchanged |
| Api.RethrowIdempotent | JingJaiV3/services/api.js:76-90 | a rewritten error passes a second rewrite unchanged |
| Api.CallApi | JingJaiV3/services/api.js:10-91 | succeeds exactly for an ok response, with its parsed data; any other response throws an `Error` carrying `ErrorMessage`; a thrown error goes through `Rethrow`, and one that is not a `TypeError` passes unchanged |
| Api.CallApiOk | JingJaiV3/services/api.js:73 | an ok response returns its parsed data |
| Api.CallApiHttpError | JingJaiV3/services/api.js:47-70 | a failed response throws exactly its error message |
| Api.CallApiNetworkFailure | JingJaiV3/services/api.js:79-81 | a network failure throws the connection message, which no longer mentions "Network request failed" |
| Api.LoginPayload | JingJaiV3/services/api.js:109-112 | the email is lower-cased and trimmed, the password trimmed |
| Api.LoginPayloadIdempotent | JingJaiV3/services/api.js:109-112 | normalising normalised credentials changes nothing |
| Api.LoginRequest | JingJaiV3/services/api.js:106-121 | a POST to `/login` carrying the normalised credentials |
| Register.EmailRegexIff | JingJaiV3/src/screens/auth/RegisterScreen.js:24-28 | the pattern holds exactly for text without whitespace with one `@`, not first, and a `.` with a character on both sides after it |
| Register.LowerKeepsEmailMatch | JingJaiV3/src/screens/auth/RegisterScreen.js:33-38 | lower-casing a matching address keeps it matching |
| Register.Payload | JingJaiV3/src/screens/auth/RegisterScreen.js:33-38 | fields trimmed, username and email also lower-cased; filled fields give non-empty values |
| Register.PayloadIdempotent | JingJaiV3/src/screens/auth/RegisterScreen.js:33-38 | normalising a normalised payload changes nothing |
| Register.RegisterEmailMatchesLogin | JingJaiV3/services/api.js:109-112 | registration and login normalise an email identically |
| Register.Validate | JingJaiV3/src/screens/auth/RegisterScreen.js:16-38 | "fill in" exactly when a field is blank, "valid email" exactly when filled but the trimmed email fails the pattern, otherwise the payload, whose email matches |
| Register.FailureText | JingJaiV3/src/screens/auth/RegisterScreen.js:66-73 | the first known phrase in the message decides the alert; otherwise the generic text |
| Register.NetworkFailureShowsGenericText | JingJaiV3/src/screens/auth/RegisterScreen.js:66-73 | through `callAPI` a network failure shows the generic text, never the connection text |
| Register.RegisterRequest | JingJaiV3/services/api.js:124-134 | a POST to `/register` carrying the payload |
| Register.RegisterForm.HandleRegister | JingJaiV3/src/screens/auth/RegisterScreen.js:16-38 | the result is `Validate` of the fields; loading is on exactly when the request goes out |
| Register.RegisterForm.FinishRegistration | JingJaiV3/src/screens/auth/RegisterScreen.js:46-78 | success clears the fields and welcomes; failure keeps them and shows `FailureText`; loading ends either way |
| BrandSelection.FilterBrands | JingJaiV3/src/screens/catalog/BrandSelectionScreen.js:43-52 | the search effect never lists more brands than there are; what it keeps is stated by `FilterBrandsSpec` |
| BrandSelection.FilterBrandsSpec | JingJaiV3/src/screens/catalog/BrandSelectionScreen.js:43-52 | a blank query keeps all brands, otherwise exactly those whose name contains the query ignoring case, each as often as it occurs, in order |
| BrandSelection.FilterBrandsIdempotent | JingJaiV3/src/screens/catalog/BrandSelectionScreen.js:43-52 | filtering the filtered list again changes nothing |
| BrandSelection.BrandsOrEmpty | JingJaiV3/src/screens/catalog/BrandSelectionScreen.js:67-72 | the reply's brands, or none when the field is missing |
| BrandSelection.LoadedLists | JingJaiV3/src/screens/catalog/BrandSelectionScreen.js:63-76 | a category other than handbags empties both lists, otherwise each list is its reply's brands |
| BrandSelection.BrandScreen.constructor | JingJaiV3/src/screens/catalog/BrandSelectionScreen.js:25-35 | the route's category, all lists empty, no query, the All tab, loading |
| BrandSelection.BrandScreen.FinishLoad | JingJaiV3/src/screens/catalog/BrandSelectionScreen.js:54-92 | success replaces the lists, failure keeps them, the filtered list follows the query, loading ends |
| BrandSelection.BrandScreen.SetSearchQuery | JingJaiV3/src/screens/catalog/BrandSelectionScreen.js:43-52 | the filtered list is the filter of all brands by the new query |
| BrandSelection.BrandScreen.ClearSearch | JingJaiV3/src/screens/catalog/BrandSelectionScreen.js:107-109 | every brand is listed again |
| BrandSelection.BrandScreen.SelectTab | JingJaiV3/src/screens/catalog/BrandSelectionScreen.js:249-256 | the pressed tab becomes active |
| BrandSelection.BrandScreen.BrandsToShow | JingJaiV3/src/screens/catalog/BrandSelectionScreen.js:205 | the featured list on its tab, else the search result `FilterBrands` of all brands and the query, all of them for a blank query |
| ProductCatalog.FilterProducts | JingJaiV3/src/screens/catalog/ProductCatalogScreen.js:44-54 | the search effect never lists more products than there are; what it keeps is stated by `FilterProductsSpec` |
| ProductCatalog.FilterProductsSpec | JingJaiV3/src/screens/catalog/ProductCatalogScreen.js:44-54 | a blank query keeps all, otherwise exactly the products whose name or non-empty model contains it ignoring case, each as often as it occurs, in order |
| ProductCatalog.ProductMatchesIgnoresQueryCase | JingJaiV3/src/screens/catalog/ProductCatalogScreen.js:48-50 | the match test ignores the case of the query |
| ProductCatalog.NoModelSearchesName | JingJaiV3/src/screens/catalog/ProductCatalogScreen.js:48-50 | a product without a model is found only by name |
| ProductCatalog.ProductsOrEmpty | JingJaiV3/src/screens/catalog/ProductCatalogScreen.js:60-61 | the reply's products, or none when the field is missing |
| ProductCatalog.FlipTwice | JingJaiV3/src/screens/catalog/ProductCatalogScreen.js:239 | toggling the view mode twice restores it |
| ProductCatalog.IsLeftAlternates | JingJaiV3/src/screens/catalog/ProductCatalogScreen.js:103 | the first grid item is on the left and the columns alternate |
| ProductCatalog.CatalogScreen.constructor | JingJaiV3/src/screens/catalog/ProductCatalogScreen.js:29-36 | no products, no favourites, no query, grid view, loading |
| ProductCatalog.CatalogScreen.FinishLoad | JingJaiV3/src/screens/catalog/ProductCatalogScreen.js:56-76 | a reply replaces the products, a failure keeps them, the filtered list follows the query |
| ProductCatalog.CatalogScreen.SetSearchQuery | JingJaiV3/src/screens/catalog/ProductCatalogScreen.js:44-54 | the filtered list is the filter of the products by the new query |
| ProductCatalog.CatalogScreen.ClearSearch | JingJaiV3/src/screens/catalog/ProductCatalogScreen.js:94-96 | every product is listed again |
| ProductCatalog.CatalogScreen.ToggleFavorite | JingJaiV3/src/screens/catalog/ProductCatalogScreen.js:87-92 | that product's favourite flag flips, no other changes |
| ProductCatalog.CatalogScreen.ToggleViewMode | JingJaiV3/src/screens/catalog/ProductCatalogScreen.js:239 | grid and list swap |
| ProductSelection.SearchProducts | JingJaiV3/src/screens/ProductSelectionScreen.js:23-32 | a blank query gives every product, otherwise exactly those whose name or brand contains it ignoring case, in order |
| ProductSelection.SearchResultsAreKnown | JingJaiV3/src/screens/ProductSelectionScreen.js:39-44 | every listed product is one the capture screen can open |
| ProductSelection.PhotoCount | JingJaiV3/src/screens/ProductSelectionScreen.js:57 | the slot count, or 0 without a list |
| ProductSelection.CatalogueCountsPositive | JingJaiV3/src/screens/ProductSelectionScreen.js:57 | every listed product shows a positive count |
| ProductSelection.SelectionScreen.constructor | JingJaiV3/src/screens/ProductSelectionScreen.js:15-20 | the screen starts with every product listed |
| ProductSelection.SelectionScreen.HandleSearch | JingJaiV3/src/screens/ProductSelectionScreen.js:34-37 | query and list are updated together |
| AIResults.InsertSpaces | JingJaiV3/src/screens/authentication/AIResultsScreen.js:103 | exactly one character is added per upper-case letter of the key |
| AIResults.Label | JingJaiV3/src/screens/authentication/AIResultsScreen.js:103 | the label has no whitespace at either end |
| AIResults.InsertSpacesBeforeUpper | JingJaiV3/src/screens/authentication/AIResultsScreen.js:103 | after the spacing every upper-case letter but a first one follows a space |
| AIResults.LabelSeparatesWords | JingJaiV3/src/screens/authentication/AIResultsScreen.js:103 | in a label every upper-case letter but a first one follows a space |
| AIResults.InsertSpacesOnlyAddsSpaces | JingJaiV3/src/screens/authentication/AIResultsScreen.js:103 | the spacing adds only whitespace |
| AIResults.TrimOnlyRemovesWhitespace | JingJaiV3/src/screens/authentication/AIResultsScreen.js:103 | the trim removes only whitespace |
| AIResults.LabelRoundTrip | JingJaiV3/src/screens/authentication/AIResultsScreen.js:113 | for a key without whitespace, deleting the spaces of its label gives back the key |
| AIResults.LabelWithoutUpper | JingJaiV3/src/screens/authentication/AIResultsScreen.js:113 | a key without upper-case letters is only trimmed |
| AIResults.RiskText | JingJaiV3/src/screens/authentication/AIResultsScreen.js:55 | "Low Risk" exactly for an authentic verdict, "High Risk" otherwise |
| AIResults.DetailSection.constructor | JingJaiV3/src/screens/authentication/AIResultsScreen.js:63-65 | the section's title is the key's label, and it starts closed |
| AIResults.DetailSection.Press | JingJaiV3/src/screens/authentication/AIResultsScreen.js:70 | pressing the header flips it open or closed |
| Profile.Split | JingJaiV3/src/screens/main/ProfileScreen.js:149 | `split(' ')` always gives a piece, and no piece holds the separator |
| Profile.SplitJoin | JingJaiV3/src/screens/main/ProfileScreen.js:149 | joining the pieces with the separator gives back the name |
| Profile.InitialsFromPieces | JingJaiV3/src/screens/main/ProfileScreen.js:149 | no initial is a space, and each is the upper-cased first letter of a piece |
| Profile.Initials | JingJaiV3/src/screens/main/ProfileScreen.js:149 | `JD` without a name or for an empty one, otherwise at most one initial per piece |
| Profile.SplitAppend | JingJaiV3/src/screens/main/ProfileScreen.js:149 | splitting at a space between two parts splits each part, pieces in order |
| Profile.SplitWord | JingJaiV3/src/screens/main/ProfileScreen.js:149 | a word without a space is a single piece |
| Profile.HeadsAppend | JingJaiV3/src/screens/main/ProfileScreen.js:149 | the first letters of two lists of pieces, one after the other |
| Profile.InitialsAppend | JingJaiV3/src/screens/main/ProfileScreen.js:149 | the initials of `x y` are those of `x` followed by those of `y`, so no piece is skipped or reordered |
| Profile.InitialsOfWord | JingJaiV3/src/screens/main/ProfileScreen.js:149 | a single word gives its upper-cased first letter |
| Profile.DisplayName | JingJaiV3/src/screens/main/ProfileScreen.js:157 | the name when present and non-empty, otherwise `User` |
| Profile.ProfileScreen.constructor | JingJaiV3/src/screens/main/ProfileScreen.js:24-37 | the mock user "John Doe", notifications on, email updates off |
| Profile.ProfileScreen.ToggleSetting | JingJaiV3/src/screens/main/ProfileScreen.js:65-70 | the named switch flips, a missing one reading as off; the others keep their values |
| Collections.ToggleTwice | JingJaiV3/src/screens/main/ProfileScreen.js:65-70 | toggling a present switch twice restores all switches; an absent one ends present and off |
| GooglePayRoutes.NewPayment | jingjai_backend/app/google_pay_routes.py:165-176 | the stored row has the request's user, amount, currency, order and description, method `google_pay` and status `completed` |
| GooglePayRoutes.RefundAmount | jingjai_backend/app/google_pay_routes.py:259 | an absent or zero amount means the full payment |
| GooglePayRoutes.RefundDecision | jingjai_backend/app/google_pay_routes.py:250-288 | 404 exactly for an unknown payment, 400 exactly unless completed, 400 exactly for more than was paid; otherwise the amount and `refunded` exactly when it is the full amount, else `partially_refunded` |
| GooglePayRoutes.SecondRefundRejected | jingjai_backend/app/google_pay_routes.py:253-257 | after a refund, full or partial, any further refund is rejected |
| GooglePayRoutes.FullRefundIff | jingjai_backend/app/google_pay_routes.py:285-288 | the payment ends `refunded` exactly when no amount, zero, or the amount paid was asked |
| GooglePayRoutes.NegativeRefundAccepted | jingjai_backend/app/google_pay_routes.py:261-265 | the amount is bounded only from above: a negative refund is accepted as partial |
| GooglePayRoutes.PaymentLedger.constructor | jingjai_backend/app/google_pay_routes.py:135-139 | an empty ledger over the given users satisfies the ledger invariant |
| GooglePayRoutes.PaymentLedger.ProcessPayment | jingjai_backend/app/google_pay_routes.py:135-198 | 404 for an unknown user; 500 with nothing stored when the commit fails or the id is taken; otherwise the completed payment is stored under its new id; the ledger invariant is kept |
| GooglePayRoutes.PaymentLedger.PaymentStatus | jingjai_backend/app/google_pay_routes.py:200-224 | the stored row for a known id, 404 otherwise |
| GooglePayRoutes.PaymentLedger.RefundPayment | jingjai_backend/app/google_pay_routes.py:235-307 | the `RefundDecision` errors change nothing; a failed commit changes nothing; otherwise one refund row is added and only that payment's status changes; no payment ever has two refunds |
| ProfileRoutes.NotificationsOrDefaults | jingjai_backend/app/profile_routes.py:153-157 | every missing notification key takes its default: push on, email updates and SMS off |
| ProfileRoutes.PrivacyOrDefaults | jingjai_backend/app/profile_routes.py:154-158 | every missing privacy key takes its default: public, history shown, contact allowed |
| ProfileRoutes.SettingsRoundTrip | jingjai_backend/app/profile_routes.py:169-170 | settings read back after an update are exactly the ones stored |
| ProfileRoutes.EmptyPrefsAreDefaults | jingjai_backend/app/profile_routes.py:153-154 | an empty stored object reads like no stored object |
| ProfileRoutes.PhotoUrl | jingjai_backend/app/profile_routes.py:70 | the URL is the storage prefix followed by `{id}_{filename}` |
| ProfileRoutes.PhotoUrlInjective | jingjai_backend/app/profile_routes.py:70 | distinct users, or distinct file names, never share a photo URL |
| ProfileRoutes.DeletedEmailAsWrittenInvalid | jingjai_backend/app/profile_routes.py:185 | the anonymised address as written fails the app's own email pattern |
| ProfileRoutes.DeletedEmail | jingjai_backend/app/profile_routes.py:185 | the corrected anonymised address matches the email pattern |
| ProfileRoutes.UserAccount.UpdateProfile | jingjai_backend/app/profile_routes.py:30-54 | each supplied field replaces the stored one and the others stay; a failed commit restores every field and answers 400 |
| ProfileRoutes.UserAccount.UploadProfilePhoto | jingjai_backend/app/profile_routes.py:56-75 | a content type not starting with `image/` gives 400 and changes nothing; otherwise the photo URL is stored and returned |
| ProfileRoutes.UserAccount.Settings | jingjai_backend/app/profile_routes.py:146-159 | both groups read with their defaults |
| ProfileRoutes.UserAccount.UpdateSettings | jingjai_backend/app/profile_routes.py:161-174 | both groups are stored whole and read back exactly as sent |
| ProfileRoutes.UserAccount.CreateAuthentication | jingjai_backend/app/profile_routes.py:123-144 | a request of this user with the given product data and status `PENDING` is appended |
| ProfileRoutes.UserAccount.DeleteAccount | jingjai_backend/app/profile_routes.py:176-189 | the account becomes inactive and its email the anonymised address as written, with its space before the `@`, which the email pattern rejects |

## Left out

- Rendering, styles, animation and the drag gesture of the package screen: presentation only.
- Device permissions, the camera and gallery pickers: each acquisition is reduced to its outcome (captured, cancelled, permission denied, failed).
- Timers are modelled as separate steps.
  - The capture's delayed auto-advance runs as part of `FinishCapture`. The source's timer calls a `handleNext` closed over the index of the render that started the capture. The model advances from the current index instead.
  - The payment screen's two-second timer is `CompletePayment`.
- `PhotoCapture.CaptureSession.constructor` has these limits:
  - It requires a configured product id. For an unknown id `getProductConfig` returns `null` and the screen fails when it destructures it.
  - The fallback literal used when `getProductConfig` is missing is not modelled.
- `fetch`, headers and JSON parsing are left out. The response is a parameter whose content type, parsed data and text are given.
- The response object's `user` field is modelled. FastAPI's list-valued `detail` (validation errors) is not: `detail` is a string or absent.
- `loginUser` and `registerUser` are modelled up to the request they send, then through `CallApi`. Logging is left out.
- Unicode: the string operations work over ASCII. `toLowerCase` and `toUpperCase` change only A–Z and a–z. `\s` and `trim` cover space, tab, line feed, carriage return, vertical tab and form feed.
- `TextInput` `maxLength` and keyboard types: they are enforced by the platform, not by the handlers.
- `ProductAuthSelection.AuthSelectionScreen.TypeCardNumber`: the 19-character bound is stated only for a field that already satisfies it, because the formatter can grow the text.
- `CardInput.CardNumberIdempotent` is stated only for text of digits and whitespace. On other text the first pass drops the other characters, and the two passes can group differently.
- The card form's open/closed state, the payment modal's visibility and the collapsible package details: presentation only.
- `selectProduct` of the product picker passes its arguments on to the next screen. The results screen's back, share, report and home buttons are navigation or not implemented. Both are left out.
- A React double press of the pay button within one render is left out. Both presses would read the same `isProcessing`. The model handles presses one at a time.
- Amounts are `real`, without float rounding. The refund comparisons use the exact values.
- Clocks: `datetime.now().strftime(...)` is the `stamp` parameter. The `created_at` columns are left out.
- The database:
  - Sessions and commits are parameters: whether the commit fails, and its error text. The unique transaction and refund ids make a duplicate commit fail.
  - In the handlers whose commit is outside a `try`, a failing commit is an unhandled server error and is not modelled.
- Google Pay token verification, the wallet configuration and the pass routes: network and cryptographic plumbing outside the core.
- `get_current_user_profile`, `get_user_stats` and `get_authentication_history`: reads delegated to the ORM, whose sums, counts, ordering and paging are not modelled.
- The photo upload's file contents, storage, a missing content type and a missing file name are not modelled. The content type and file name are strings.
- Pydantic validation of request bodies (types, extra keys) is assumed to have passed.
- GetProductConfigSpec: models only the table's own keys. For an id naming a property every JavaScript object inherits (`constructor`, `toString`, `__proto__`), `productConfigs[productId] || null` returns that inherited member, not `null`; the model returns `None`, because the catalogue is a map without a prototype.

## Findings

| source | as written | input that shows it | evidently intended | confidence | as-written member | corrected member |
|---|---|---|---|---|---|---|
| jingjai_backend/app/profile_routes.py:185 | the anonymised email is `f"deleted_{id} @deleted.com"`, with a space before the `@` | any account, e.g. id 7 gives `deleted_7 @deleted.com` | `deleted_{id}@deleted.com`, an address the app's own pattern accepts | medium, not executed | ProfileRoutes.DeletedEmailAsWrittenInvalid | ProfileRoutes.DeletedEmail |
