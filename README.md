# Arkadia Libris storefront: a Dafny model of its client-side logic

Arkadia Libris is a React storefront for books, comics and manga. It has a
customer side (home, search, product page, cart, wishlist, account pages)
and a backoffice (products, categories, stock, users). Almost everything the
client does is markup plus `fetch`. This project models the sequential logic
around those calls:

- **Stores.** The session store ties `token` and `userId` to `localStorage`.
  The cart and wishlist stores are read-through caches.
- **Backoffice list logic.** Substring search, client-side paging, parsing of
  comma-separated lists, routing of the search term, choice of payload and
  HTTP verb, and form reset and fill.
- **Page-level rules.** The registration date rewrite, the wishlist heart,
  the search pipeline, the product availability line, the reset- and
  forgot-password status machines, the order page's error mapping, the
  backoffice gate and the navbar selection.

Each backend call is an argument of the operation that makes it:
`Response<T> = Ok(payload) | Fail(status) | Rejected(message)` (wrappers.dfy).

- `Fail` is an answer whose status is not ok.
- `Rejected` is a call that throws: a network failure or an unreadable body.

Every React `setX` is an assignment to a field of a Dafny class. Each
request a component or store issues is appended to a `sent` log, so the
contracts say exactly which requests go out.

What JavaScript does with strings and numbers is written out in module `Js`
(js.dfy):

- `!!x` truthiness of numbers, ids and strings;
- `parseInt` with its prefix semantics, and `Number.prototype.toString` for
  integers;
- an ASCII `toLowerCase`;
- `trim` over the ECMAScript white-space set;
- `includes`, `split` on one character, and `join`.

Numbers drawn from ids and quantities are integers with a `NaN` case
(`JsInt`). A status is a plain integer.

The modules follow the source files:

| module | file | models |
|---|---|---|
| `AuthContext` | auth.dfy | src/context/AuthContext.tsx |
| `ReadThrough` | readthrough.dfy | the cache pattern shared by the cart and wishlist stores |
| `CartContext`, `WishlistContext` | cart.dfy, wishlist.dfy | the two stores as classes, each specified by a pure `Step` |
| `Pagination`, `Filtering` | pagination.dfy, filtering.dfy | `Math.ceil`/`slice` paging and the page-button loop; `Array.prototype.filter` |
| `BackofficeCategories`, `BackofficeStock`, `BackofficeProducts`, `BackofficeUsers`, `BackofficeHome` | backoffice_*.dfy | the five backoffice pages |
| `Registration`, `ResetPassword`, `ForgotPassword`, `OrderDetail` | registration.dfy, reset_password.dfy, forgot_password.dfy, order_detail.dfy | the account pages |
| `Catalog`, `WishlistToggle`, `HomePage`, `SearchPage`, `ProductDetail` | catalog.dfy, wishlist_toggle.dfy, home_page.dfy, search_page.dfy, product_detail.dfy | the customer pages and the wishlist heart they share |
| `NavbarLogic`, `NavbarSelection` | navbar_type.dfy, navbar_logics.dfy | the two navbar hooks |

### Notes on the source's types

- `CartDto` has the fields of src/type/CartDto.ts.
- `UserDto.id` is optional, because the assign guard tests for a null id.
- A product whose stock is negative reads "Esaurito" while its add button
  stays enabled (`ProductDetail.AvailabilityAgreesWithButton` needs stock ≥ 0).
- The stock page's `InventoryItemDto` declaration is not part of this model.
  Its fields (`productId`, `title`, `quantity`) are the ones the page reads.

Most modules end with a short client method, such as `OrderDetail.ForbiddenOrder` or `NavbarSelection.SelectAll`. Each one calls the module's operations in sequence and asserts what their contracts then guarantee. They show that the contracts can be used by a caller. They model no source function and have no row below.

## Model

| member | source | states |
|---|---|---|
| AuthContext.StoredToken | src/context/AuthContext.tsx:21-23 | the restored token is the stored "authToken" value, and null exactly when that key is absent |
| AuthContext.StoredUserId | src/context/AuthContext.tsx:24-27 | the restored user id is null exactly when "userId" is absent or empty; otherwise it is the base-10 parse of the stored text |
| AuthContext.LoginWrite | src/context/AuthContext.tsx:30-31 | login writes "authToken"→t and "userId"→decimal(n) and leaves every other key as it was |
| AuthContext.LogoutErase | src/context/AuthContext.tsx:37-38 | logout removes exactly the two keys and leaves every other key as it was |
| AuthContext.RestoreAfterLogin | src/context/AuthContext.tsx:21-31 | round trip: a restart after `login(t, n)` restores token t and user id n, whatever was stored before |
| AuthContext.RestoreAfterLogout | src/context/AuthContext.tsx:21-38 | a restart after logout restores the anonymous session |
| AuthContext.LogoutIdempotent | src/context/AuthContext.tsx:36-41 | logging out twice leaves the same storage as logging out once |
| AuthContext.Session.Restore | src/context/AuthContext.tsx:21-27 | the mounted provider holds the restored token and user id |
| AuthContext.Session.Login | src/context/AuthContext.tsx:29-34 | login overwrites storage and both cells unconditionally; afterwards token and id are both set |
| AuthContext.Session.Logout | src/context/AuthContext.tsx:36-41 | logout clears storage and both cells; afterwards both are null |
| ReadThrough.FailureMessage | src/context/CartContext.tsx:61-65 | a failed call's error is the operation prefix followed by the status, or the thrown message |
| ReadThrough.Apply | src/context/CartContext.tsx:56-69 | a call that does not run changes nothing; one that runs ends not loading, replaces the snapshot on success (or clears it) and keeps it on failure with the error set |
| ReadThrough.ErrorNullIff | src/context/CartContext.tsx:51-66 | after any sequence of calls the error is null exactly when it was null before and no call that ran failed: nothing clears it |
| ReadThrough.NotLoadingAfterRun | src/context/CartContext.tsx:66-68 | `loading` is false after a sequence whose last call ran |
| CartContext.RequestFor | src/context/CartContext.tsx:71-76 | every request carries the session's user id; `addToCart` without a quantity sends quantity 1 |
| CartContext.Issued | src/context/CartContext.tsx:57-128 | an operation sends at most one request, and none exactly when the user id is falsy |
| CartContext.Step | src/context/CartContext.tsx:56-142 | a falsy user id changes nothing; otherwise loading ends false, success sets the cart to the answer (clear sets it to null) without touching the error, and failure keeps the cart and sets "Errore <op>: <status>" or the thrown message |
| CartContext.SnapshotIsServerAnswer | src/context/CartContext.tsx:62-119 | after a successful call the cart is the server's answer whatever it was before: the client computes no quantities |
| CartContext.ViewCartTwice | src/context/CartContext.tsx:56-69 | two `viewCart` calls answered alike leave the same cart as one |
| CartContext.CartErrorNullIff | src/context/CartContext.tsx:51-66 | from the mounted state, the error is null after a session exactly when no call that ran failed |
| CartContext.CallsOf | src/context/CartContext.tsx:56-142 | each store operation is one read-through call, position by position |
| CartContext.RunOpsIsRun | src/context/CartContext.tsx:56-142 | a session of store operations is the same as the generic read-through run of its calls |
| CartContext.CartStore.constructor | src/context/CartContext.tsx:49-51 | the provider mounts with no cart, not loading and no error |
| CartContext.CartStore.ViewCart | src/context/CartContext.tsx:56-69 | the new state is `Step` of the old one, and the request log grows by what `Issued` says |
| CartContext.CartStore.AddToCart | src/context/CartContext.tsx:71-89 | the same, for `addToCart` with its optional quantity |
| CartContext.CartStore.UpdateItemQuantity | src/context/CartContext.tsx:91-107 | the same, for `updateItemQuantity` |
| CartContext.CartStore.RemoveItem | src/context/CartContext.tsx:109-125 | the same, for `removeItem` |
| CartContext.CartStore.ClearCart | src/context/CartContext.tsx:127-142 | the same, for `clearCart`, whose success sets the cart to null |
| CartContext.CartStore.AutoLoad | src/context/CartContext.tsx:144-146 | the effect calls `viewCart` exactly when token and user id are both truthy |
| WishlistContext.RequestFor | src/context/WishlistContext.tsx:61-96 | add posts and remove deletes the given product, for the session's user |
| WishlistContext.Issued | src/context/WishlistContext.tsx:47-99 | an operation sends at most one request, and none exactly when the user id is falsy |
| WishlistContext.Step | src/context/WishlistContext.tsx:46-113 | a falsy user id changes nothing; otherwise loading ends false, success sets the wishlist to the answer (clear sets it to null) and failure keeps it with "Errore: <status>" or the thrown message |
| WishlistContext.CallsOf | src/context/WishlistContext.tsx:46-113 | each operation is one read-through call, position by position |
| WishlistContext.RunOpsIsRun | src/context/WishlistContext.tsx:46-113 | a session of operations is the generic read-through run of its calls |
| WishlistContext.WishlistErrorSticky | src/context/WishlistContext.tsx:38-56 | once set, the error stays set through any later operations |
| WishlistContext.WishlistStore.constructor | src/context/WishlistContext.tsx:36-38 | the provider mounts with no wishlist, not loading and no error |
| WishlistContext.WishlistStore.ViewWishlist | src/context/WishlistContext.tsx:46-59 | the new state is `Step` of the old one, and the log grows by what `Issued` says |
| WishlistContext.WishlistStore.AddToWishlist | src/context/WishlistContext.tsx:61-78 | the same, for `addToWishlist` |
| WishlistContext.WishlistStore.RemoveFromWishlist | src/context/WishlistContext.tsx:80-96 | the same, for `removeFromWishlist` |
| WishlistContext.WishlistStore.ClearWishlist | src/context/WishlistContext.tsx:98-113 | the same, for `clearWishlist`, whose success sets the wishlist to null |
| WishlistContext.WishlistStore.AutoLoad | src/context/WishlistContext.tsx:115-117 | the effect calls `viewWishlist` exactly when token and user id are both truthy |
| Filtering.Filter | src/components/backoffice/BackOfficeCategoriesPage.tsx:140-145 | every kept element satisfies the predicate, and the result is no longer than the input |
| Filtering.FilterMembers | src/components/backoffice/BackOfficeCategoriesPage.tsx:140-145 | an element is kept exactly when it is in the input and satisfies the predicate |
| Filtering.FilterIsSubsequence | src/components/backoffice/BackOfficeCategoriesPage.tsx:140-145 | the kept elements keep their original order |
| Filtering.FilterKeepsAll | src/components/backoffice/BackOfficeCategoriesPage.tsx:139-145 | when every element passes, the filter returns the input itself |
| Pagination.TotalPages | src/components/backoffice/BackOfficeCategoriesPage.tsx:25-38 | `ceil(n / 20)`: the smallest page count whose pages hold n items |
| Pagination.PageItems | src/components/backoffice/BackOfficeCategoriesPage.tsx:150-153 | a page holds at most 20 items, is the slice from 20·page for an existing page, and is empty past the last page |
| Pagination.PagesFromSuffix | src/components/backoffice/BackOfficeCategoriesPage.tsx:38-153 | the pages from p onwards, concatenated, are the list from item 20·p onwards |
| Pagination.PagesPartition | src/components/backoffice/BackOfficeCategoriesPage.tsx:38-153 | all the pages, concatenated in order, give back the list exactly |
| Pagination.PaginationItems | src/components/backoffice/BackofficeProductsPage.tsx:218-230 | the loop builds exactly `totalPages` links, link i selects page i, shows i+1, and is active exactly when i is the current page |
| Pagination.ActiveLinkCount | src/components/backoffice/BackofficeUserComponent.tsx:157-169 | exactly one link is active when the current page exists, none otherwise |
| BackofficeCategories.Search | src/components/backoffice/BackOfficeCategoriesPage.tsx:138-146 | every category kept matches the lower-cased query, and the result is an order-preserving subsequence |
| BackofficeCategories.SearchKeeps | src/components/backoffice/BackOfficeCategoriesPage.tsx:138-146 | a category is kept exactly when its id text, lower-cased name or lower-cased type contains the lower-cased query |
| BackofficeCategories.EmptyQueryKeepsAll | src/components/backoffice/BackOfficeCategoriesPage.tsx:139-145 | the empty query keeps every category in order |
| BackofficeCategories.SubmitRequest | src/components/backoffice/BackOfficeCategoriesPage.tsx:110-118 | create sends POST /categories; edit sends PUT /categories/<id>, or /categories/undefined without a selection; both carry name and type |
| BackofficeCategories.CategoriesPage.constructor | src/components/backoffice/BackOfficeCategoriesPage.tsx:31-45 | the initial page state, with type "BOOK" and create mode |
| BackofficeCategories.CategoriesPage.TotalPages | src/components/backoffice/BackOfficeCategoriesPage.tsx:38 | `Math.ceil(filtered.length / 20)`: zero exactly for an empty list, and the fewest pages of 20 that hold the list |
| BackofficeCategories.CategoriesPage.PageItems | src/components/backoffice/BackOfficeCategoriesPage.tsx:150-153 | at most 20 rows, all from the filtered list, and non-empty exactly when the page exists |
| BackofficeCategories.CategoriesPage.LoadCategories | src/components/backoffice/BackOfficeCategoriesPage.tsx:49-66 | a success sets both lists to the answer and the page to 0, discarding any active filter; a failure keeps them and sets "Impossibile caricare le categorie" |
| BackofficeCategories.CategoriesPage.ClearForm | src/components/backoffice/BackOfficeCategoriesPage.tsx:72-76 | name "", type "BOOK", no selection, nothing else changed |
| BackofficeCategories.CategoriesPage.OpenCreate | src/components/backoffice/BackOfficeCategoriesPage.tsx:78-82 | a cleared form in create mode, shown |
| BackofficeCategories.CategoriesPage.OpenEdit | src/components/backoffice/BackOfficeCategoriesPage.tsx:84-90 | name and type copied from the category, which is selected, in edit mode, shown |
| BackofficeCategories.CategoriesPage.HandleSubmit | src/components/backoffice/BackOfficeCategoriesPage.tsx:107-136 | sends `SubmitRequest`; success hides the form and asks for a reload; failure sets "Errore creazione" or "Errore aggiornamento" by mode |
| BackofficeCategories.CategoriesPage.SetQuery | src/components/backoffice/BackOfficeCategoriesPage.tsx:36 | typing changes only the query |
| BackofficeCategories.CategoriesPage.HandleSearch | src/components/backoffice/BackOfficeCategoriesPage.tsx:138-148 | the filtered list is `Search` of the loaded categories, and the page returns to 0 |
| BackofficeCategories.CategoriesPage.SetPage | src/components/backoffice/BackOfficeCategoriesPage.tsx:238-246 | a page button changes only the page |
| BackofficeStock.StockFilter | src/components/backoffice/BackOfficeStockPage.tsx:70-77 | every item kept matches the lower-cased query; order-preserving subsequence |
| BackofficeStock.StockFilterKeeps | src/components/backoffice/BackOfficeStockPage.tsx:70-77 | an item is kept exactly when its product id text or lower-cased title contains the lower-cased query |
| BackofficeStock.StockEmptyQueryKeepsAll | src/components/backoffice/BackOfficeStockPage.tsx:71-76 | the empty query keeps every item in order |
| BackofficeStock.ModalRequest | src/components/backoffice/BackOfficeStockPage.tsx:88-102 | no request without a selection; otherwise the selected product, "increase" or "decrease" by mode, and the quantity field as the body |
| BackofficeStock.QuantityFromInput | src/components/backoffice/BackOfficeStockPage.tsx:240 | `Math.max(1, parseInt(text))`: NaN exactly when the parse is NaN, otherwise at least 1 and the parse itself when that is at least 1 |
| BackofficeStock.QuantityOfInteger | src/components/backoffice/BackOfficeStockPage.tsx:240 | for the decimal text of an integer n the field becomes max(1, n) |
| BackofficeStock.StockPage.constructor | src/components/backoffice/BackOfficeStockPage.tsx:29-42 | the initial page state, in which the filter relation already holds |
| BackofficeStock.StockPage.Filtered | src/components/backoffice/BackOfficeStockPage.tsx:70-77 | once the effect has run, every shown row matches the lower-cased query and the rows keep the items' order |
| BackofficeStock.StockPage.TotalPages | src/components/backoffice/BackOfficeStockPage.tsx:114 | `Math.ceil(filtered.length / 20)`: zero exactly for an empty list, and the fewest pages of 20 that hold the list |
| BackofficeStock.StockPage.PageItems | src/components/backoffice/BackOfficeStockPage.tsx:115-118 | at most 20 rows, all from the filtered list, and non-empty exactly when the page exists |
| BackofficeStock.StockPage.RunFilterEffect | src/components/backoffice/BackOfficeStockPage.tsx:70-79 | afterwards `filtered` is the stock filter of the items by the query, and the page is 0 |
| BackofficeStock.StockPage.SetQuery | src/components/backoffice/BackOfficeStockPage.tsx:70-79 | typing refilters through the effect and returns to page 0 |
| BackofficeStock.StockPage.LoadItems | src/components/backoffice/BackOfficeStockPage.tsx:46-79 | a success sets the items and page 0, and the effect it triggers leaves the filter relation holding; a failure keeps the lists and sets "Impossibile caricare gli stock" |
| BackofficeStock.StockPage.OpenModal | src/components/backoffice/BackOfficeStockPage.tsx:81-86 | sets the mode and the selected item, quantity 0, and shows the modal |
| BackofficeStock.StockPage.SetQuantity | src/components/backoffice/BackOfficeStockPage.tsx:240 | the quantity becomes `QuantityFromInput` of the text |
| BackofficeStock.StockPage.HandleModal | src/components/backoffice/BackOfficeStockPage.tsx:88-112 | no selection does nothing; otherwise sends `ModalRequest`; success hides the modal and reloads; failure sets "Errore durante l'operazione di stock" |
| BackofficeStock.StockPage.SetPage | src/components/backoffice/BackOfficeStockPage.tsx:201-209 | a page button changes only the page |
| BackofficeProducts.SearchRoute | src/components/backoffice/BackofficeProductsPage.tsx:61-76 | an id lookup exactly when the trimmed term is non-empty and all digits; otherwise a search with title = isbn = author = the trimmed term, which is empty for a blank term, at the given page and size 20 |
| BackofficeProducts.SearchRouteIgnoresEdges | src/components/backoffice/BackofficeProductsPage.tsx:61-63 | leading white space does not change the route |
| BackofficeProducts.NumberTermIsLookup | src/components/backoffice/BackofficeProductsPage.tsx:61-64 | the decimal text of any natural number is looked up by id, and parses back to that number |
| BackofficeProducts.TrimAll | src/components/backoffice/BackofficeProductsPage.tsx:160 | each piece is trimmed and has no edge white space |
| BackofficeProducts.ParseList | src/components/backoffice/BackofficeProductsPage.tsx:158-165 | no parsed element is empty or has edge white space |
| BackofficeProducts.TrimSplitJoin | src/components/backoffice/BackofficeProductsPage.tsx:158-160 | splitting a ", "-join on commas and trimming gives back the trimmed, comma-free elements |
| BackofficeProducts.ParseListOfJoin | src/components/backoffice/BackofficeProductsPage.tsx:132-165 | round trip: parsing the ", "-join returns the list when every element is non-empty, trimmed and comma-free, including the empty list |
| BackofficeProducts.ParseListCommaFree | src/components/backoffice/BackofficeProductsPage.tsx:158-165 | no element of a parsed list holds a comma |
| BackofficeProducts.ParseListStable | src/components/backoffice/BackofficeProductsPage.tsx:132-165 | for every input, re-parsing the join of a parsed list gives the same list |
| BackofficeProducts.FormOf | src/components/backoffice/BackofficeProductsPage.tsx:123-136 | the form takes the product's fields, absent optional fields become "", the stock is 0 and the product type is kept |
| BackofficeProducts.EditKeepsLists | src/components/backoffice/BackofficeProductsPage.tsx:132-165 | editing a product and submitting unchanged sends back its categories and images (none becomes the empty list) |
| BackofficeProducts.SubmitRequest | src/components/backoffice/BackofficeProductsPage.tsx:167-197 | create POSTs /products with the full body; edit PUTs /products/<id> without type and stock; edit without a selection POSTs /products with no body |
| BackofficeProducts.ProductsPage.constructor | src/components/backoffice/BackofficeProductsPage.tsx:30-54 | the initial page state, with one page |
| BackofficeProducts.ProductsPage.FetchProducts | src/components/backoffice/BackofficeProductsPage.tsx:55-92 | sends the `SearchRoute` query; a lookup gives a one-element list and one page; a search takes content and page count; a failure sets "Impossibile caricare i prodotti" |
| BackofficeProducts.ProductsPage.SetSearchTerm | src/components/backoffice/BackofficeProductsPage.tsx:40 | typing changes only the term |
| BackofficeProducts.ProductsPage.HandleSearch | src/components/backoffice/BackofficeProductsPage.tsx:98-101 | returns to page 0 and fetches it: the request is the `SearchRoute` of the term at page 0, and the products, page count and error are those `FetchProducts` gives for that route and answer |
| BackofficeProducts.ProductsPage.ClearForm | src/components/backoffice/BackofficeProductsPage.tsx:103-115 | every field reset and no selection |
| BackofficeProducts.ProductsPage.OpenCreate | src/components/backoffice/BackofficeProductsPage.tsx:117-121 | a cleared form in create mode, shown |
| BackofficeProducts.ProductsPage.OpenEdit | src/components/backoffice/BackofficeProductsPage.tsx:123-136 | the form is `FormOf` the product, which is selected, in edit mode |
| BackofficeProducts.ProductsPage.HandleSubmit | src/components/backoffice/BackofficeProductsPage.tsx:154-216 | sends `SubmitRequest`; success hides the form and reloads; failure sets the create or update message by mode |
| BackofficeProducts.ProductsPage.PaginationLinks | src/components/backoffice/BackofficeProductsPage.tsx:218-230 | `totalPages` links, only the current page active |
| BackofficeUsers.EmptyStaff | src/components/backoffice/BackofficeUserComponent.tsx:49-59 | every staff field "" and role "STAFF" |
| BackofficeUsers.AssignRequest | src/components/backoffice/BackofficeUserComponent.tsx:130-141 | no request without a selected user or with a null id; otherwise the role assignment for that id |
| BackofficeUsers.UsersPage.constructor | src/components/backoffice/BackofficeUserComponent.tsx:31-65 | the initial page state, with assign role "USER" and no pages |
| BackofficeUsers.UsersPage.LoadUsers | src/components/backoffice/BackofficeUserComponent.tsx:67-92 | a success sets the users, the page from the answer's number and the page count; a failure sets "Impossibile caricare gli utenti" |
| BackofficeUsers.UsersPage.ClearCreateForm | src/components/backoffice/BackofficeUserComponent.tsx:49-59 | the staff form becomes `EmptyStaff` |
| BackofficeUsers.UsersPage.OpenCreate | src/components/backoffice/BackofficeUserComponent.tsx:98-101 | a cleared staff form, shown |
| BackofficeUsers.UsersPage.OpenAssign | src/components/backoffice/BackofficeUserComponent.tsx:103-107 | the user is selected and the role field takes the user's role |
| BackofficeUsers.UsersPage.HandleCreate | src/components/backoffice/BackofficeUserComponent.tsx:109-128 | sends the staff form; success closes and reloads; failure sets the creation message |
| BackofficeUsers.UsersPage.HandleAssign | src/components/backoffice/BackofficeUserComponent.tsx:130-155 | without a selected user or id: "Utente non selezionato correttamente" and nothing sent; otherwise sends `AssignRequest` |
| BackofficeUsers.UsersPage.PaginationLinks | src/components/backoffice/BackofficeUserComponent.tsx:157-169 | `totalPages` links, only the current page active |
| BackofficeHome.IsBackofficeUser | src/components/backoffice/BackofficeHomeComponent.tsx:10-11 | holds exactly when the token is non-empty and the role is "ADMIN" or "STAFF"; the role is the one the login page fetched, which the session as written never supplies (see Findings) |
| BackofficeHome.Redirect | src/components/backoffice/BackofficeHomeComponent.tsx:13-17 | intended rule: a visitor is sent to /unauthorized exactly when not a backoffice user |
| BackofficeHome.RedirectCases | src/components/backoffice/BackofficeHomeComponent.tsx:10-17 | intended rule: role "USER" or no token is redirected; staff and admins with a token never are |
| BackofficeHome.RedirectAsWritten | src/components/backoffice/BackofficeHomeComponent.tsx:9-17 | as written, the role read from the session is always undefined, so every visitor, staff and admins included, is sent to /unauthorized |
| BackofficeHome.StaffLockedOut | src/components/backoffice/BackofficeHomeComponent.tsx:9-17 | a signed-in staff member is admitted by the intended rule but sent away as written |
| BackofficeHome.CardTarget | src/components/backoffice/BackofficeHomeComponent.tsx:28-58 | every card navigates under /backoffice/ |
| BackofficeHome.CardTargetsDistinct | src/components/backoffice/BackofficeHomeComponent.tsx:28-58 | different cards navigate to different routes |
| Registration.TransformPayload | src/components/login-registration/RegistrationPageComponent.tsx:28-38 | the same keys; every field but bornDate untouched; an absent or empty bornDate leaves the payload as it was; otherwise bornDate is reformatted |
| Registration.FormatDate | src/components/login-registration/RegistrationPageComponent.tsx:35-38 | "Y-M-D" becomes "D/M/Y" |
| Registration.FormatDateIgnoresRest | src/components/login-registration/RegistrationPageComponent.tsx:36 | only the first three dash-separated parts are used |
| Registration.FormatDateWithoutDash | src/components/login-registration/RegistrationPageComponent.tsx:36-37 | a date with no dash renders its missing parts as "undefined" |
| Registration.DateRoundTrip | src/components/login-registration/RegistrationPageComponent.tsx:36-37 | for dash- and slash-free parts, splitting the result on "/" gives day, month and year back |
| Registration.RefusalMessage | src/components/login-registration/RegistrationPageComponent.tsx:49 | the server message when it is non-empty, otherwise "Registrazione fallita"; never an empty text |
| Registration.RegistrationPage.constructor | src/components/login-registration/RegistrationPageComponent.tsx:21-22 | no error, no navigation, nothing sent |
| Registration.RegistrationPage.Register | src/components/login-registration/RegistrationPageComponent.tsx:24-57 | sends the transformed payload; success navigates to /auth/login; a refusal sets its message or "Registrazione fallita" and stays; a network failure sets its own message |
| WishlistToggle.HasProductIff | src/components/HomePageComponent.tsx:53-57 | `find` succeeds exactly when some item has the product id |
| WishlistToggle.IsInWishlistIff | src/components/HomePageComponent.tsx:53-57 | membership holds exactly when the wishlist is loaded and some item has the id; never for a null wishlist |
| WishlistToggle.ToggleOp | src/components/HomePageComponent.tsx:59-66 | no operation without a user; removal when present; addition otherwise |
| WishlistToggle.ToggleAlternates | src/components/SearchPage.tsx:48-55 | when the server's answer reflects a toggle, the next toggle of the same product does the opposite |
| WishlistToggle.ToggleWishlist | src/components/SearchPage.tsx:48-55 | the store changes by exactly the `Step` of `ToggleOp`, and nothing without a user |
| WishlistToggle.LoadForUser | src/components/SearchPage.tsx:38-40 | the page effect calls `viewWishlist` exactly when the user id is truthy, whatever the token; after a successful load the heart shows exactly the answered products; the home page and the product page run the same effect |
| HomePage.Section | src/components/HomePageComponent.tsx:70-72 | a section is the first min(8, n) products of the shuffled copy |
| HomePage.SectionDrawnFromProducts | src/components/HomePageComponent.tsx:68-72 | for any permutation of the products, a section holds at most 8 of them, all drawn from the loaded products without repetition beyond theirs |
| HomePage.AddToCartButton | src/components/HomePageComponent.tsx:143 | the button adds quantity 1 through the cart store |
| SearchPage.Insert | src/components/SearchPage.tsx:72-79 | inserting keeps every element and adds the new one |
| SearchPage.InsertTieClass | src/components/SearchPage.tsx:72-79 | within any class of mutually tied titles, the new element goes in front of the class and the others keep their order |
| SearchPage.InsertSorted | src/components/SearchPage.tsx:72-79 | insertion into a sorted list keeps it sorted |
| SearchPage.SortByTitle | src/components/SearchPage.tsx:72-79 | the sort is a permutation of its input |
| SearchPage.SortByTitleStable | src/components/SearchPage.tsx:72-79 | the sort is stable: the products of any class of tied titles come out in the order they went in |
| SearchPage.SameTitleKeepsOrder | src/components/SearchPage.tsx:72-79 | two products with the same title keep their order |
| SearchPage.SortByTitleSorted | src/components/SearchPage.tsx:72-79 | for any total preorder on titles the sorted list is ordered by it |
| SearchPage.SearchKey | src/components/SearchPage.tsx:71 | the key is trimmed, no longer than the title and has no upper-case ASCII letter |
| SearchPage.TitleMatches | src/components/SearchPage.tsx:73 | the empty key matches every title |
| SearchPage.Results | src/components/SearchPage.tsx:71-79 | the results are a permutation of the products whose lower-cased title contains the trimmed, lower-cased query |
| SearchPage.ResultsStable | src/components/SearchPage.tsx:71-79 | the results tied with any title are the matching answered products tied with it, in the answer's order |
| SearchPage.ResultsSpec | src/components/SearchPage.tsx:71-79 | a product is a result exactly when it was answered and matches, and the results are sorted by title |
| SearchPage.SearchPageState.constructor | src/components/SearchPage.tsx:34-36 | initially loading, no products, no error |
| SearchPage.SearchPageState.Load | src/components/SearchPage.tsx:57-84 | an empty title issues nothing; otherwise the products become `Results`, a non-ok status sets "Errore: <status>", and loading ends false |
| ProductDetail.ShouldFetch | src/components/ProductDetailPageComponent.tsx:63 | the product is fetched exactly when the id is a non-zero number |
| ProductDetail.IsFavorite | src/components/ProductDetailPageComponent.tsx:48-51 | the heart is filled exactly when the wishlist is loaded and some item has the page's product id; never for a NaN id |
| ProductDetail.Availability | src/components/ProductDetailPageComponent.tsx:141 | the line is "Esaurito" exactly when the stock is not positive |
| ProductDetail.AvailabilityShowsStock | src/components/ProductDetailPageComponent.tsx:141 | for positive stock, the line begins with the stock count, which parses back |
| ProductDetail.AddDisabled | src/components/ProductDetailPageComponent.tsx:146 | disabled while adding, and otherwise exactly when the stock is 0 |
| ProductDetail.AvailabilityAgreesWithButton | src/components/ProductDetailPageComponent.tsx:141-146 | for non-negative stock, the button is disabled at rest exactly when the page says "Esaurito" |
| ProductDetail.DetailPage.constructor | src/components/ProductDetailPageComponent.tsx:31-42 | the page starts loading, with no product |
| ProductDetail.DetailPage.Load | src/components/ProductDetailPageComponent.tsx:62-73 | a falsy id fetches nothing; otherwise the product is stored or the error set, and loading ends false |
| ProductDetail.DetailPage.HandleAddToCart | src/components/ProductDetailPageComponent.tsx:75-79 | adds quantity 1 through the cart store, and `adding` is false afterwards |
| ProductDetail.DetailPage.ToggleWishlist | src/components/ProductDetailPageComponent.tsx:48-60 | no change without a user; removes a favourite and adds otherwise |
| ResetPassword.TokenFrom | src/components/ResetPasswordPageComponent.tsx:14 | the query token, or "" when absent |
| ResetPassword.RedirectTarget | src/components/ResetPasswordPageComponent.tsx:24-26 | an empty token, and only an empty one, redirects to /auth/forgot-password |
| ResetPassword.FormVisible | src/components/ResetPasswordPageComponent.tsx:56 | the form is on screen in every status but success |
| ResetPassword.SubmitDisabled | src/components/ResetPasswordPageComponent.tsx:88 | the button is disabled only while submitting, and then the form is on screen |
| ResetPassword.FailureMessage | src/components/ResetPasswordPageComponent.tsx:42-50 | the body message when non-empty, else the status text; a thrown error gives its own message |
| ResetPassword.ResetPasswordPage.constructor | src/components/ResetPasswordPageComponent.tsx:14-22 | idle, no error, empty fields |
| ResetPassword.ResetPasswordPage.SetPasswords | src/components/ResetPasswordPageComponent.tsx:70-81 | typing changes only the two fields |
| ResetPassword.ResetPasswordPage.BeginSubmit | src/components/ResetPasswordPageComponent.tsx:28-41 | a mismatch sets "Le password non coincidono", keeps the status and sends nothing; matching passwords move to submitting, clear the error and send the request |
| ResetPassword.ResetPasswordPage.FinishSubmit | src/components/ResetPasswordPageComponent.tsx:42-50 | success moves to success; a failure sets the error to `FailureMessage` and moves to error |
| ResetPassword.ResetPasswordPage.HandleSubmit | src/components/ResetPasswordPageComponent.tsx:28-88 | the whole handler: a mismatch as above; otherwise success hides the form, and failure leaves it visible with the button enabled |
| ForgotPassword.FormVisible | src/components/ForgotPasswordPageComponent.tsx:45 | the form is on screen in every status but sent |
| ForgotPassword.SubmitDisabled | src/components/ForgotPasswordPageComponent.tsx:64 | the button is disabled only while sending, and then the form is on screen |
| ForgotPassword.ForgotPasswordPage.constructor | src/components/ForgotPasswordPageComponent.tsx:12-15 | idle, no error, empty email |
| ForgotPassword.ForgotPasswordPage.SetEmail | src/components/ForgotPasswordPageComponent.tsx:56-57 | typing changes only the email |
| ForgotPassword.ForgotPasswordPage.BeginSubmit | src/components/ForgotPasswordPageComponent.tsx:17-21 | from any status: sending, no error, and the email sent |
| ForgotPassword.ForgotPasswordPage.FinishSubmit | src/components/ForgotPasswordPageComponent.tsx:27-35 | success moves to sent; a failure sets the body message or status text and moves to error |
| ForgotPassword.ForgotPasswordPage.HandleSubmit | src/components/ForgotPasswordPageComponent.tsx:17-64 | the whole handler: sent hides the form; error leaves it visible with the button enabled |
| OrderDetail.EffectiveUid | src/components/OrderDetailPage.tsx:23 | the route parameter when present, otherwise the session user id as text, otherwise none |
| OrderDetail.ShouldFetch | src/components/OrderDetailPage.tsx:31 | the order is fetched exactly when the uid, the order id and the token are all present and non-empty |
| OrderDetail.SessionUidIsTruthy | src/components/OrderDetailPage.tsx:23-31 | a uid taken from the session is never empty, so only order id and token decide the guard |
| OrderDetail.StatusError | src/components/OrderDetailPage.tsx:41-46 | 403, and only 403, gives "Non autorizzato"; any other status gives "Errore <status>" |
| OrderDetail.StatusErrorShowsStatus | src/components/OrderDetailPage.tsx:44-46 | the status parses back from its message |
| OrderDetail.Total | src/components/OrderDetailPage.tsx:80 | the amount when it is a number, otherwise 0 |
| OrderDetail.RedirectFor | src/components/OrderDetailPage.tsx:54-56 | the login page exactly for the message "Non autorizzato" |
| OrderDetail.OnlyForbiddenRedirects | src/components/OrderDetailPage.tsx:41-56 | among non-ok statuses, only 403 leads to the login page |
| OrderDetail.OrderDetailPage.constructor | src/components/OrderDetailPage.tsx:26-28 | no order, not loading, no error |
| OrderDetail.OrderDetailPage.Load | src/components/OrderDetailPage.tsx:30-59 | no fetch unless uid, order id and token are all present; success stores the DTO; 403 sets "Non autorizzato" and navigates to /auth/login; another status sets "Errore <status>"; loading ends false |
| NavbarLogic.LinkItems | src/type/useNavbarLogic.ts:8-15 | six links |
| NavbarLogic.LinkItemsDistinct | src/type/useNavbarLogic.ts:8-15 | every link points at an in-page anchor, and no two share a label or a target |
| NavbarLogic.Select | src/type/useNavbarLogic.ts:21-25 | a non-empty key becomes active; null or "" keeps the active key |
| NavbarLogic.SelectIdempotent | src/type/useNavbarLogic.ts:21-25 | selecting a key twice is selecting it once, and a later non-empty key wins |
| NavbarLogic.SelectKeepsNonEmpty | src/type/useNavbarLogic.ts:18-25 | the active key never becomes empty |
| NavbarLogic.Navbar.constructor | src/type/useNavbarLogic.ts:18-19 | the first label "Novità" is active, logged out |
| NavbarLogic.Navbar.OnSelect | src/type/useNavbarLogic.ts:21-25 | the active key becomes `Select` of the old one, the login flag untouched |
| NavbarLogic.Navbar.HandleLogin | src/type/useNavbarLogic.ts:27-29 | logged in, and nothing else changed |
| NavbarLogic.Navbar.HandleLogout | src/type/useNavbarLogic.ts:31-33 | logged out, and nothing else changed |
| NavbarSelection.LinkItems | src/logics/useNavbarLogic.ts:8-15 | six links |
| NavbarSelection.SameLinks | src/logics/useNavbarLogic.ts:8-15 | the same six label/href pairs, in the same order, as the other hook |
| NavbarSelection.NavbarState.constructor | src/logics/useNavbarLogic.ts:18 | the first label "Novità" is active |
| NavbarSelection.NavbarState.OnSelect | src/logics/useNavbarLogic.ts:20-24 | the same selection rule as the other hook |
| Js.NumberToString | src/context/AuthContext.tsx:31 | the text of an integer is non-empty and starts with a digit or a minus sign |
| Js.ParseIntOfNumberToString | src/context/AuthContext.tsx:26-31 | `parseInt` reads back every integer's decimal text |
| Js.ParseIntOfNumberThen | src/components/ProductDetailPageComponent.tsx:141 | `parseInt` stops at the first non-digit after a number's text |
| Js.TrimIsTrimmed | src/components/backoffice/BackofficeProductsPage.tsx:61-160 | `trim` leaves no white space at either edge |
| Js.TrimChars | src/components/backoffice/BackofficeProductsPage.tsx:158-165 | `trim` adds no character: each one comes from the input |
| Js.TrimKeepsOut | src/components/backoffice/BackofficeProductsPage.tsx:158-165 | a character absent from the input is absent from its trim |
| Js.SplitPiecesLackSeparator | src/components/backoffice/BackofficeProductsPage.tsx:158-165 | no piece of a split holds the separator |
| Js.TrimOfTrimmed | src/components/backoffice/BackofficeProductsPage.tsx:160 | trimming a trimmed text changes nothing |
| Js.TrimAfterSpaces | src/components/backoffice/BackofficeProductsPage.tsx:61 | leading white space does not change the trim |
| Js.SplitJoin | src/components/backoffice/BackofficeProductsPage.tsx:132-159 | splitting a join on its separator gives the pieces back when none contains it |
| Js.IncludesEmpty | src/components/backoffice/BackOfficeCategoriesPage.tsx:142-144 | every text includes the empty text |

## Left out

- The HTTP layer: the API host, headers, the bearer token text and `encodeURIComponent`. Every call is an argument of the operation that makes it.
- JSON decoding and `JSON.stringify` (e.g. a NaN quantity becomes `null` in a body). A response payload is an already-decoded Dafny value.
- Concurrency: overlapping calls on the cart or wishlist can finish out of order, and the last answer wins. Each modelled call finishes before the next starts.
- The double fetch on the products page: `handleSearch` calls `fetchProducts` and also sets the page that the effect watches. The model issues one fetch.
- The checkout page: it drives the Stripe SDK and has floating-point totals. `toFixed` rendering of prices is not modelled either.
- The login page: its sequencing is network plumbing.
- `Math.random` in the home-page shuffle is not modelled: the shuffled copy is an argument. `HomePage.SectionDrawnFromProducts` assumes only that the copy is a permutation of the products, and that the input list is left as it was is not stated.
- `localeCompare`: the collation is an arbitrary total preorder over titles.
- `toLowerCase` covers ASCII letters only. Other letters are left as they are.
- `parseInt` handles decimal digits with an optional sign after leading white space. Other radixes and the `0x` prefix are not modelled, nor is `Number.prototype.toString` for fractional numbers or numbers of 1e21 and above.
- The conversion `Number(id)` of the route parameter on the product page is not modelled. The id arrives as a `JsInt`.
- `ProductDetail.DetailPage.HandleAddToCart`, `ProductDetail.DetailPage.ToggleWishlist`: both require a truthy product id, because their buttons render only after a product has loaded.
- `handleDelete` on the products and categories pages: it depends on `window.confirm` and only reloads or sets a message.
- `navigate` as a router: a navigation is the target path stored in a `location` field.
- The profile page is outside the modelled core. Its load effect stops with "User ID non disponibile" when there is no uid. Otherwise it makes two GETs, the user and then the addresses, and sets an error and `loading`.
- The cart drawer is outside the modelled core. It sums a floating-point total with `reduce` and calls the cart store's `removeItem` and `clearCart`, which are modelled.
- The wishlist page is outside the modelled core. It calls the modelled store operations `removeFromWishlist` and `addToCart`.
- The footer, the not-found page, the navbar markup and the app shell are markup.
- The tab-key effects on the stock page: the load runs when the list tab is shown, and is a method the caller invokes.
- The home-page product fetch is outside the modelled core. It GETs the first 50 products and stores them. A failure sets "Errore fetching prodotti: <status>" or the thrown message, and `loading` ends false.
- The order page's per-row rendering (`price ?? "---"`, line totals): floating point.
- `BackofficeStock.StockPage.LoadItems` states that the filter relation holds after a successful load because the filter effect re-runs. The intermediate render, in which the whole answer is shown unfiltered, is not a state of the model.
- `BackofficeHome.Redirect`, `BackofficeHome.IsBackofficeUser`, `BackofficeHome.RedirectCases`: the role is an input. The session store does not hold one (see Findings); these members state the intended rule.

## Findings

| source | as written | input that shows it | evidently intended | confidence | as-written member | corrected member |
|---|---|---|---|---|---|---|
| src/components/backoffice/BackofficeHomeComponent.tsx:9-17 | `userRole` is read from the session context, whose value holds only `token`, `userId`, `login` and `logout`; `login` takes two arguments and drops the role the login page passes as a third | a signed-in administrator or staff member, e.g. token "t" and role "STAFF" from the login page | staff and administrators with a token stay on the dashboard; everyone else goes to /unauthorized | not executed | BackofficeHome.RedirectAsWritten | BackofficeHome.RedirectCases |
