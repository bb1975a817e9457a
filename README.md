# Inventory and vendor manager: a Dafny model

The system is a small inventory application. An Express/Mongoose server keeps four
collections: users, vendors, categories and products. It offers signup, login and password
reset, per-user permission flags, and a dashboard summary. Three React pages edit the
lists, and an administrator's page toggles the flags. This project models the server's
route handlers and schemas, its token guard, and the decision logic of the client pages.
It then proves what they promise.

Server side, each collection is a class holding a sequence of documents in natural order
plus an id counter. The route handlers are methods returning the HTTP reply; each states
the new collection and the reply case by case, and keeps the schema's invariants. The
invariants are distinct ids, the unique indexes, and trimmed and hashed user fields.
Schema rules are functions: `required` validators, defaults, the pre-save hook and
update merges.

Client side, the pages' state is a class per page, and the pure helpers are functions.
The helpers cover the permission check, the expiry date, the serial-number box, the
filters and the form validation.

The JavaScript built-ins the logic rests on are modelled separately:
- `trim`, `toLowerCase`, `includes`, `split` and `join`;
- `parseInt`, `parseFloat` and `String(n)`;
- `setMonth` and `toISOString`.

Libraries the code calls are abstract stand-ins:
- bcrypt is an injective digest;
- JSON Web Tokens are `jwt.<id>`, with a reference `Verify`;
- the random bytes of a reset token are a parameter;
- mail delivery is a parameter.

Where the system's documented intent and its code differ, the model follows the code:
- No server route checks a permission flag; only the client pages do.
- The reset route never looks at the token it mailed.
- The dashboard sums prices through MongoDB's `$toDouble`, which fails the whole
  aggregation on a price that is not numeric text; it does not skip such a price.
  The model states that case as a 500 reply.

## Model

| member | source | states |
|---|---|---|
| UserModel.ToJson | server_vendor/models/User.js:22-26 | a reply carries all three flags, each with its stored value |
| UserModel.FromJson | server_vendor/models/User.js:22-26 | a stored flag is the value sent for it; a flag left out takes the default false |
| UserModel.JsonRoundTrip | server_vendor/models/User.js:22-26 | flags rendered into a reply and stored back are the same flags |
| UserModel.MissingPaths | server_vendor/models/User.js:7-21 | no path fails exactly when full name, email and password are all present and non-empty |
| UserModel.PreSave | server_vendor/models/User.js:32-36 | an unmodified password is left as stored; a modified one becomes a digest that matches the text |
| UserModel.NewUser | server_vendor/models/User.js:5-29 | a new account has a trimmed non-empty name and email, a digest matching its password, and all flags false |
| UserModel.MatchPassword | server_vendor/models/User.js:39-41 | true exactly when a password is given and the stored digest is its digest; no password makes bcrypt throw |
| Crypto.Hash | server_vendor/models/User.js:34 | a digest is never the password text itself |
| Crypto.CompareHash | server_vendor/models/User.js:39-41 | a digest matches the text it was made from and no other |
| Crypto.HexEncode | server_vendor/routes/usersAuth.js:160 | two lower-case hex digits per byte |
| Crypto.HexRoundTrip | server_vendor/routes/usersAuth.js:160 | the hex token decodes back to its random bytes, so distinct bytes give distinct tokens |
| Crypto.Sign | server_vendor/routes/usersAuth.js:29-31 | a token has no space and is never empty |
| Crypto.Verify | server_vendor/middleware/auth.js:9 | verification accepts only tokens that were signed, and returns their id without a role |
| Crypto.VerifySign | server_vendor/routes/usersAuth.js:70-72 | a signed token verifies to the id it was signed for |
| Mongoose.Overwrite | server_vendor/routes/vendors.js:35-39 | a path the update carries replaces the stored value; a missing one keeps it |
| Mongoose.OverwriteField | server_vendor/routes/products.js:32-36 | the same for a path that may be null: null in the body stores null |
| UsersAuth.SignupRejection | server_vendor/routes/usersAuth.js:10-49 | signup is refused exactly when the passwords differ, an account has the trimmed email, or a required path is missing; 400 exactly for the first two, 500 exactly for the missing path |
| UsersAuth.Login | server_vendor/routes/usersAuth.js:53-87 | 404 exactly when no account has the trimmed email; 500 exactly when one does and no password is sent; 401 exactly when the password's digest is not the stored one; 200 exactly when it is, with a token that verifies to the account's id |
| UsersAuth.ResetLink | server_vendor/routes/usersAuth.js:163 | the link starts with the reset page's address |
| UsersAuth.ResetLinkParts | server_vendor/routes/usersAuth.js:160-163 | after the address the link splits into the account id and a 64-digit hex token that decodes to the 32 random bytes |
| UsersAuth.ForgotPassword | server_vendor/routes/usersAuth.js:143-176 | no mail and 404 exactly when no account has the trimmed email; otherwise a mail to the email as sent with the reset link of that account, then 200 with the success message when delivered and 500 "Error sending reset link." when not |
| UsersAuth.WithPassword | server_vendor/routes/usersAuth.js:190-192 | only the password (now a digest matching the new text) and `updatedAt` change |
| UsersAuth.WithPermissions | server_vendor/routes/usersAuth.js:105-109 | every stored flag is the flag sent (missing ones false); nothing else but `updatedAt` changes |
| UsersAuth.SignupThenLogin | server_vendor/routes/usersAuth.js:25-82 | right after a signup, login with the same email and password succeeds with a token for the new id |
| UsersAuth.ResetThenLogin | server_vendor/routes/usersAuth.js:179-199 | after a reset, login with any email that trims to the account's succeeds with the new password and with no other |
| UsersAuth.UserStore.Signup | server_vendor/routes/usersAuth.js:10-49 | a refusal changes nothing; otherwise exactly one account is appended with the next id, and the reply is 201 with a token for it |
| UsersAuth.UserStore.LoginRoute | server_vendor/routes/usersAuth.js:53-87 | the reply is the login decision on the current store, which is unchanged |
| UsersAuth.UserStore.GetUsers | server_vendor/routes/usersAuth.js:89-96 | 200 with every account, in store order |
| UsersAuth.UserStore.SetPermissions | server_vendor/routes/usersAuth.js:98-121 | unknown id: 404, no change; otherwise only that account's flags change and the reply is the updated account |
| UsersAuth.UserStore.DeleteUser | server_vendor/routes/usersAuth.js:125-140 | unknown id: 404, no change; otherwise exactly that account is removed |
| UsersAuth.UserStore.ForgotPasswordRoute | server_vendor/routes/usersAuth.js:143-176 | the reply and mail are the forgot-password decision; the store is unchanged and the token is not kept |
| UsersAuth.UserStore.ResetPassword | server_vendor/routes/usersAuth.js:179-199 | unknown id: 404; no password: 500, no change; otherwise only that account's password is replaced by a digest of the new one, with no token asked |
| VendorModel.MissingPaths | server_vendor/models/Vendor.js:4-10 | no path fails exactly when all five fields are present and non-empty |
| VendorModel.NewVendor | server_vendor/routes/vendors.js:9-12 | the stored vendor has all five fields non-empty, exactly as sent |
| VendorModel.Merge | server_vendor/routes/vendors.js:32-39 | each field the body carries is overwritten and each other field kept |
| VendorModel.MergeIdempotent | server_vendor/routes/vendors.js:35-39 | sending the same update twice is sending it once |
| VendorModel.MergeNothing | server_vendor/routes/vendors.js:35-39 | an update carrying no field changes nothing |
| Vendors.VendorStore.Create | server_vendor/routes/vendors.js:7-17 | a missing field or a taken email: 500, no change; otherwise one vendor appended and returned with 201 |
| Vendors.VendorStore.List | server_vendor/routes/vendors.js:20-27 | 200 with every vendor, in store order |
| Vendors.VendorStore.Update | server_vendor/routes/vendors.js:30-49 | unknown id: 404; another vendor's email: 500; otherwise only that vendor changes, by the merge |
| Vendors.VendorStore.Delete | server_vendor/routes/vendors.js:52-59 | exactly the vendor with that id, if any, is removed, and the reply is 200 either way |
| CategoryModel.InvalidPaths | server_vendor/models/Category.js:5-18 | no path fails exactly when the name is non-empty and the type is "Purchased" or "Rented" |
| CategoryModel.NewCategory | server_vendor/routes/categories.js:8-11 | the stored category has exactly the posted name and type, which are non-empty and in the enum, and both timestamps now |
| CategoryModel.Merge | server_vendor/routes/categories.js:30-35 | name and type overwritten when carried, kept otherwise; `updatedAt` becomes now; no validator runs |
| Categories.CategoryStore.Create | server_vendor/routes/categories.js:6-15 | a failed validator or a taken name: 500, no change; otherwise one category appended and returned with 201 |
| Categories.CategoryStore.List | server_vendor/routes/categories.js:18-25 | 200 with every category, in store order |
| Categories.CategoryStore.Update | server_vendor/routes/categories.js:28-45 | unknown id: 404; another category's name: 500; otherwise only that category changes, by the merge |
| Categories.CategoryStore.Delete | server_vendor/routes/categories.js:48-55 | exactly the category with that id, if any, is removed, and the reply is 200 either way |
| ProductModel.MissingPaths | server_vendor/models/Product.js:4-45 | no path fails exactly when the eight required fields are present, non-null and non-empty; description and serialBox are optional |
| ProductModel.RequiredMessages | server_vendor/routes/products.js:13 | one message per failing path, in order |
| ProductModel.ValidationMessage | server_vendor/routes/products.js:13 | the error text starts with the validation-failure prefix |
| ProductModel.Merge | server_vendor/routes/products.js:32-36 | each field the body carries (null included) replaces the stored one; an empty body changes nothing |
| ProductModel.MergeIdempotent | server_vendor/routes/products.js:32-36 | sending the same update twice is sending it once |
| Products.ProductStore.Create | server_vendor/routes/products.js:7-15 | a missing field: 500 with the validation message, no change; otherwise the body, expiry date included, is appended as sent, with 201 |
| Products.ProductStore.List | server_vendor/routes/products.js:18-27 | 200 with every product as stored |
| Products.ProductStore.Update | server_vendor/routes/products.js:30-44 | unknown id: 404, no change; otherwise only that product changes, by the merge |
| Products.ProductStore.Delete | server_vendor/routes/products.js:47-57 | unknown id: 404, no change; otherwise exactly that product is removed |
| Dashboard.PriceTotal | server_vendor/routes/dashboard.js:20-44 | the total is never negative; it fails exactly when a present, non-null price does not convert |
| Dashboard.CountedPrices | server_vendor/routes/dashboard.js:22-36 | the prices kept are converted prices, all greater than 0, at most one per product |
| Dashboard.PriceTotalIsSum | server_vendor/routes/dashboard.js:20-44 | a successful total is the `$sum` of the converted prices greater than 0, in store order |
| Dashboard.PriceTotalOne | server_vendor/routes/dashboard.js:20-44 | one product adds nothing without a price, its price when that converts to more than 0, nothing when it converts to 0 or less, and fails when it does not convert |
| Dashboard.PriceTotalAppend | server_vendor/routes/dashboard.js:36-41 | the total over two runs of products is the sum of their totals |
| Dashboard.PriceTotalNonPositive | server_vendor/routes/dashboard.js:31-44 | when no price converts to a positive number the total is 0 |
| Dashboard.DashboardSummary | server_vendor/routes/dashboard.js:10-58 | 200 with the four collection sizes and the sum of the counted prices exactly when the aggregation succeeds; 500 otherwise |
| AuthMiddleware.BearerToken | server_vendor/middleware/auth.js:5 | a token exists exactly when the header has a second space-separated word, and it holds no space |
| AuthMiddleware.BearerTokenOf | server_vendor/middleware/auth.js:5 | a header `<scheme> <token>` yields the token |
| AuthMiddleware.Authenticate | server_vendor/middleware/auth.js:4-16 | the request goes on, with the decoded claims, exactly when a non-empty token verifies and either no role is asked or its role is among them; 403 exactly for a verified token with the wrong role; 401 otherwise |
| AuthMiddleware.SignedTokenPasses | server_vendor/middleware/auth.js:4-12 | a signed token passes a guard that asks for no role |
| AuthMiddleware.SignedTokenForbidden | server_vendor/middleware/auth.js:10 | signed tokens carry no role, so any guard naming a role refuses them with 403 |
| AdminAuth.Login | server_vendor/routes/adminAuth.js:25-43 | 404 exactly when no admin has the email; 500 with bcrypt's message exactly when one does and no password is sent; 401 exactly when the password does not match the first such admin's digest; 200 exactly when it does, with a token that verifies to its id |
| AdminAuth.AdminStore.Signup | server_vendor/routes/adminAuth.js:9-22 | a taken email: 400, no change; a create error: 500 with its message, no change; otherwise one admin appended with a hashed password, 201 |
| AdminAuth.AdminStore.LoginRoute | server_vendor/routes/adminAuth.js:25-43 | the reply is the login decision on the current store |
| AdminAuth.SignupThenLogin | server_vendor/routes/adminAuth.js:9-39 | an admin just signed up logs in with the same email and password |
| JsString.Trim | server_vendor/models/User.js:10-16 | the result is the input with its leading and trailing whitespace cut off: a slice with only whitespace before and after it, and neither end of it whitespace |
| JsString.TrimFixedIffTrimmed | server_vendor/models/User.js:10-16 | trimming leaves a string unchanged exactly when neither end is whitespace |
| JsString.TrimIdempotent | server_vendor/models/User.js:10-16 | trimming a trimmed value changes nothing |
| JsString.BlankIffTrimEmpty | client_vendor/src/pages/Products.jsx:180-192 | `!s.trim()` holds exactly when every character is whitespace |
| JsString.Includes | client_vendor/src/pages/Products.jsx:264-267 | true exactly when the query occurs somewhere in the text |
| JsString.Lower | client_vendor/src/pages/Categories.jsx:128-130 | same length, no capital letter left, each character lower-cases like the original |
| JsString.Split | client_vendor/src/pages/Products.jsx:259 | at least one piece, none holding the separator, and joining them gives the text back |
| JsString.SplitJoin | client_vendor/src/pages/Products.jsx:257-262 | joining pieces without commas and splitting again gives the pieces back |
| JsString.SplitConcat | client_vendor/src/pages/Products.jsx:245-250 | the pieces of `a,b` are those of `a` followed by those of `b` |
| JsNumber.NatToString | server_vendor/routes/usersAuth.js:163 | decimal digits without a leading zero that read back as the number |
| JsNumber.ParseIntOfString | client_vendor/src/pages/Products.jsx:139 | `parseInt(String(n)) == n` |
| JsNumber.ParseFloatOfString | client_vendor/src/pages/Products.jsx:202 | `parseFloat(String(n)) == n` |
| JsNumber.ParseIntTruncates | client_vendor/src/pages/Products.jsx:197 | `parseInt` stops at a decimal point |
| JsNumber.Pad | client_vendor/src/pages/Products.jsx:140 | the padded digits read back as the number, with at least the asked width |
| Calendar.AddMonths | client_vendor/src/pages/Products.jsx:139 | a valid date, in the target month with the same day, or in the next month with the overflow, exactly when the day does not fit |
| Calendar.AddNoMonths | client_vendor/src/pages/Products.jsx:139 | adding zero months changes nothing |
| Calendar.AddTwelveMonths | client_vendor/src/pages/Products.jsx:139 | twelve months on is the same day a year later, except that 29 February becomes 1 March |
| Calendar.ParseIsoDate | client_vendor/src/pages/Products.jsx:138 | whatever is read is a valid date |
| Calendar.IsoRoundTrip | client_vendor/src/pages/Products.jsx:138-140 | a date written as `YYYY-MM-DD` reads back as the same date |
| Calendar.LastOfJanuaryPlusOneMonth | client_vendor/src/pages/Products.jsx:139 | 31 January 2024 plus one month is 2 March 2024 |
| ClientCommon.CheckPermission | client_vendor/src/pages/Products.jsx:104-110 | granted exactly when there is a user whose flag for the action is truthy; otherwise refused with the alert |
| ClientCommon.PermittedIffStoredFlag | client_vendor/src/pages/Products.jsx:104-110 | a user as the server returns it is granted exactly the actions whose stored flags are true |
| ClientCommon.NewUserPermittedNothing | server_vendor/models/User.js:22-26 | a user fresh from signup is refused every action |
| ClientCommon.MatchesEmptyQuery | client_vendor/src/pages/Categories.jsx:128-130 | an empty search matches every text |
| ClientCommon.MatchesIgnoresCase | client_vendor/src/pages/Categories.jsx:128-130 | a text matches a query exactly when it matches the lower-cased query |
| ProductsPage.CalculateExpiryDate | client_vendor/src/pages/Products.jsx:136-141 | "" when either input is empty; otherwise a date exactly when the purchase date and the warranty both read |
| ProductsPage.ExpiryOfDate | client_vendor/src/pages/Products.jsx:136-141 | for a date and a month count as the inputs write them, the expiry is the date that many months later |
| ProductsPage.ExpiryOfNoMonths | client_vendor/src/pages/Products.jsx:136-141 | a zero-month warranty expires on the purchase day |
| ProductsPage.ExpiryRunsOver | client_vendor/src/pages/Products.jsx:138-140 | a purchase on 31 January 2024 with one month's warranty expires on 2 March 2024 |
| ProductsPage.WithInput | client_vendor/src/pages/Products.jsx:118-122 | the named input takes the value and every other field is kept |
| ProductsPage.InputChange | client_vendor/src/pages/Products.jsx:116-134 | only the named input changes, except that the expiry date is recomputed exactly when the purchase date or warranty changed and both are set |
| ProductsPage.VendorChange | client_vendor/src/pages/Products.jsx:286-305 | the changed vendor input takes the value and the other is emptied; nothing else changes |
| ProductsPage.Appended | client_vendor/src/pages/Products.jsx:245-250 | the serial follows a comma after a non-empty box, or stands alone |
| ProductsPage.BarcodeInput | client_vendor/src/pages/Products.jsx:239-254 | Enter with a non-blank value appends its trimmed text to the box; anything else changes nothing |
| ProductsPage.SerialBoxKeyDownDuplicates | client_vendor/src/pages/Products.jsx:449-456 | with the handler on the box itself, Enter in any non-blank box appends the trimmed box to itself, so every item of a trimmed box is listed twice ("A" becomes "A,A") |
| ProductsPage.ScanSerial | client_vendor/src/pages/Products.jsx:239-254 | a scan changes only the serial box |
| ProductsPage.ScanAddsOneSerial | client_vendor/src/pages/Products.jsx:239-254 | a scan adds exactly the trimmed serial as the box's last item |
| ProductsPage.FormatSerialNumbers | client_vendor/src/pages/Products.jsx:257-262 | "" for an empty box; the box itself when it holds at most two items |
| ProductsPage.FormatManySerials | client_vendor/src/pages/Products.jsx:257-262 | three or more items show as the first two and the count of the rest |
| ProductsPage.FilteredProducts | client_vendor/src/pages/Products.jsx:264-267 | the products whose name or vendor matches, in order; the filter throws exactly when a product lacks a name, or lacks a vendor and its name does not match |
| ProductsPage.EmptySearchShowsAll | client_vendor/src/pages/Products.jsx:264-267 | an empty search shows every product that has a name |
| ProductsPage.Validate | client_vendor/src/pages/Products.jsx:175-211 | sent exactly when the name is not blank, some vendor input is not blank, the quantity is not read as negative and the price is not read as zero or less; the data is the form with the typed vendor, if any, in place of the selected one |
| ProductsPage.AcceptedFormMayLackCategory | client_vendor/src/pages/Products.jsx:180-205 | a form the page sends without a category is one the server refuses |
| ProductsPage.ProductsPageState.OpenAdd | client_vendor/src/pages/Products.jsx:311-319 | with the add flag the modal opens for a new product; otherwise nothing changes |
| ProductsPage.ProductsPageState.OpenEdit | client_vendor/src/pages/Products.jsx:152-157 | with the edit flag the form becomes a copy of the product; otherwise nothing changes |
| ProductsPage.ProductsPageState.ChangeInput | client_vendor/src/pages/Products.jsx:116-134 | the form becomes the input change's result; when that throws the page crashes and the form is never updated |
| ProductsPage.ProductsPageState.ChangeVendor | client_vendor/src/pages/Products.jsx:286-305 | the form becomes the vendor change's result |
| ProductsPage.ProductsPageState.SerialBoxKey | client_vendor/src/pages/Products.jsx:239-254 | a key press in the serial box gives the as-written result: the box's own text is what gets appended |
| ProductsPage.ProductsPageState.SubmitForm | client_vendor/src/pages/Products.jsx:175-236 | a refused form or a failed request changes nothing; otherwise the answer replaces the product with its id when editing, or is appended; then the form resets |
| ProductsPage.ProductsPageState.DeleteProduct | client_vendor/src/pages/Products.jsx:159-173 | with the delete flag, a confirmation and a successful request, exactly the products with that id leave the list |
| CategoriesPage.SetDraft | client_vendor/src/pages/Categories.jsx:71 | the named input shows the typed value and the other input keeps its value |
| CategoriesPage.SetCategory | client_vendor/src/pages/Categories.jsx:69 | the edited category's name and type change as the draft's would, and its timestamps are kept |
| CategoriesPage.FilteredCategories | client_vendor/src/pages/Categories.jsx:128-130 | every category shown matches and every matching category is shown |
| CategoriesPage.EmptyQueryShowsAllCategories | client_vendor/src/pages/Categories.jsx:128-130 | an empty search shows every category |
| CategoriesPage.CategoriesPageState.OpenAddModal | client_vendor/src/pages/Categories.jsx:157 | the add modal opens without any check |
| CategoriesPage.CategoriesPageState.CloseAddModal | client_vendor/src/pages/Categories.jsx:272 | the add modal closes and the draft stays |
| CategoriesPage.CategoriesPageState.ChangeInput | client_vendor/src/pages/Categories.jsx:66-73 | the edited category changes exactly when the edit modal is open, the new one otherwise; never both |
| CategoriesPage.CategoriesPageState.AddCategory | client_vendor/src/pages/Categories.jsx:76-88 | with the add flag and an answer, the answer is appended, the draft resets to an empty "Purchased" category and the modal closes; otherwise nothing changes |
| CategoriesPage.CategoriesPageState.DeleteCategory | client_vendor/src/pages/Categories.jsx:91-100 | with the delete flag and a successful request, exactly the categories with that id leave the list |
| CategoriesPage.CategoriesPageState.OpenEditModal | client_vendor/src/pages/Categories.jsx:120-125 | with the edit flag the category becomes the draft and the edit modal opens; otherwise nothing changes |
| CategoriesPage.CategoriesPageState.CloseEditModal | client_vendor/src/pages/Categories.jsx:235 | the edit modal closes and the draft stays |
| CategoriesPage.CategoriesPageState.EditCategory | client_vendor/src/pages/Categories.jsx:103-117 | with the edit flag, a draft and a successful request, the entries with the draft's id become the draft; the modal closes and the draft is dropped |
| VendorsPage.CheckVendorPermission | client_vendor/src/pages/Vendors.jsx:58-65 | granted exactly when the user's flag is truthy; silent exactly when there is no user; otherwise an alert naming the action |
| VendorsPage.SetField | client_vendor/src/pages/Vendors.jsx:71-73 | the named input shows the typed value and the other four keep theirs |
| VendorsPage.SetFieldUnchanged | client_vendor/src/pages/Vendors.jsx:71-73 | typing back the value an input already shows changes nothing |
| VendorsPage.FilteredVendors | client_vendor/src/pages/Vendors.jsx:119-121 | every vendor shown matches and every matching vendor is shown |
| VendorsPage.EmptyQueryShowsAllVendors | client_vendor/src/pages/Vendors.jsx:119-121 | an empty search shows every vendor |
| VendorsPage.VendorsPageState.AddButton | client_vendor/src/pages/Vendors.jsx:140-147 | with the add flag the form opens for a new vendor; otherwise nothing changes |
| VendorsPage.VendorsPageState.EditButton | client_vendor/src/pages/Vendors.jsx:175-181 | with the edit flag the form opens on that vendor; otherwise nothing changes |
| VendorsPage.VendorsPageState.DeleteButton | client_vendor/src/pages/Vendors.jsx:106-116 | with the delete flag, a confirmation and a successful request, exactly the vendors with that id leave the list |
| VendorsPage.VendorsPageState.CloseModal | client_vendor/src/pages/Vendors.jsx:221 | the form closes and the vendor being edited stays selected |
| VendorsPage.VendorsPageState.ChangeInput | client_vendor/src/pages/Vendors.jsx:68-75 | the edited vendor changes when there is one, the new vendor otherwise |
| VendorsPage.VendorsPageState.SubmitForm | client_vendor/src/pages/Vendors.jsx:78-103 | a failed request changes nothing; an update puts the answer in place of the entries with the edited id and ends the edit; an add appends the answer and resets the draft |
| AdminDashboard.MergePermission | client_vendor/src/pages/AdminDashBoard.jsx:52-55 | the named flag takes the value; every other flag keeps its old value, false when it was missing |
| AdminDashboard.WithFlag | client_vendor/src/pages/AdminDashBoard.jsx:52-55 | one flag set to the value and the other two kept |
| AdminDashboard.ToggleStoresOneFlag | client_vendor/src/pages/AdminDashBoard.jsx:52-60 | the merged flags sent to the server and stored there change exactly the toggled flag |
| AdminDashboard.ToggleShowsValue | client_vendor/src/pages/AdminDashBoard.jsx:143-161 | after a toggle its checkbox shows the new value and the other two are unchanged |
| AdminDashboard.AdminDashboardState.PermissionChange | client_vendor/src/pages/AdminDashBoard.jsx:45-72 | an unknown id sends nothing and changes nothing; otherwise the merged flags are sent, and only on status 200 do the users with that id get them |
| AdminDashboard.AdminDashboardState.UserDelete | client_vendor/src/pages/AdminDashBoard.jsx:75-89 | after a confirmation and status 200, exactly the users with that id leave the list; otherwise nothing changes |

## Left out

- Network, Express routing, JSON parsing, the database connection, React rendering,
  modals' markup, `alert`, `window.confirm`, `localStorage` and navigation are left out.
  A request's outcome, a confirmation and a mail delivery are parameters.
- The pages outside products, categories, vendors and the administrator's user table
  are form plumbing without decisions.
- Concurrent requests are left out: each handler runs alone on the store.
- Mongoose ids are natural numbers from a counter. A malformed id, which Mongoose refuses
  with a cast error (500), is not modelled.
- bcrypt, JSON Web Tokens and `crypto.randomBytes` are abstract.
  - Token expiry and the signing secret are left out.
  - `Admin.create`'s own validation is a parameter, because the `Admin` model
    (`models/Admin.js`) is not part of this model.
- Dashboard.PriceTotal: `$toDouble` is a parameter and prices are exact reals; floating-point
  rounding is left out.
- Time zones and local time: dates are calendar dates at midnight UTC. The range limit of
  `toISOString` and lenient `Date` parsing of other formats are left out.
- `parseInt` with a `0x` prefix, and `parseFloat` with an exponent or `Infinity`, are left out.
- In bodies other than a product's, a JSON `null` and non-string values are left out: a
  field is a string or missing. Lookups by email take the email as a string; the user routes
  look it up trimmed, as Mongoose runs the `trim` setter on query filters.
- `toLowerCase` maps ASCII letters only. Other Unicode case mappings are left out.
- The duplicate alert of the unused `handleAddProduct` is left out. The page's add button
  does its own check.
- The browser's own `required`-attribute validation of the forms is left out. The model
  follows the handlers.
- ProductsPage.FilteredProducts: products whose `name` or `vendor` is not a string throw.
  The page then fails to render; this is modelled as None.
- VendorModel.Merge and CategoryModel.Merge run no validators, as `findByIdAndUpdate` does
  not. An update may therefore store an empty field or a category type outside the enum.
  Only the unique indexes are enforced.
- UsersAuth.SignupRejection: the duplicate-key reply "Email already exists."
  (usersAuth.js:42-46) arises only when two signups race between the lookup and the save.
  Handlers run alone here, so the model never gives it.
- ProductsPage.ProductsPageState: once a handler's error escapes rendering the page is
  unmounted; the model records this in `crashed` but does not stop later handlers.

## Findings

| source | as written | input that shows it | evidently intended | confidence | as-written member | corrected member |
|---|---|---|---|---|---|---|
| client_vendor/src/pages/Products.jsx:449-456 | the serial-box textarea is both the controlled `serialBox` field and the target of `handleBarcodeInput`, so on Enter the box's own content is appended to itself | a box holding "A", then Enter: the box becomes "A,A" | the scanned serial comes from its own input and each scan adds exactly that one serial | not executed | ProductsPage.SerialBoxKeyDown, ProductsPage.SerialBoxKeyDownDuplicates, ProductsPage.ProductsPageState.SerialBoxKey | ProductsPage.ScanSerial, ProductsPage.ScanAddsOneSerial |
