# Fashion kids' web store — a Dafny model of the storefront and admin pages

This project models the client logic of a small React storefront backed by a
hosted Postgres service. The store's tables (products, profiles, addresses,
wishlist, cart, orders, order items, notifications, admins) are in-memory
sequences held by one `Backend.Store` object. Every query the pages send is a
function over those sequences. Each page component is a class. Its React state
is the class's fields. Each event handler is a method whose `modifies` clause
names exactly the state and tables it writes.

Pure derivations are functions, with lemmas that state what they mean. These
derivations include filtered lists, the category list, tag parsing,
percentages, initials, gradients and toast texts.

Failures of the backend are parameters: a `bool` for a failed read or insert,
an `Option<DbError>` where the handler looks at the error's code, and a `Reply`
(`Written`, `Rejected` or `Thrown`) for a write whose `{ error }` the handler
never reads. A `Rejected` write leaves the table as it was, but the handler
still updates the page and shows its success message. A `Thrown` one lands in
the handler's `catch`. Each modelled error path has its own postcondition. The
few error paths that are not modelled are listed under "Left out".

Shared modules:

- `Types`: rows, `Option`, toasts and redirects.
- `Text`: ASCII case mapping, `trim` (over ECMAScript's white space and line terminators), `split`, `join`, `includes` and `slice`.
- `Seqs`: filter, map, subsequence, de-duplication and batching, with their lemmas.
- `Backend`: the tables.
- `Gateways`: the add-to-cart and wishlist writes, shared by the product tile,
  the product page and the wishlist.

Row ids come from a counter in the store (`RowId(nextId)`).

## Model

| member | source | states |
|---|---|---|
| Gateways.ProductById | src/pages/ProfileOrders.tsx:117-119 | the result is a product of the list with the requested id; no result only when no product has that id |
| Gateways.SingleCartRow | src/components/shared/ProductCard.tsx:68-73 | `.single()` on the cart: a row exactly when one (user, product) row exists, and it is that row |
| Gateways.AddToCartInserts | src/components/shared/ProductCard.tsx:80-88 | without exactly one existing row, adding appends one row of quantity 1 |
| Gateways.AddToCartIncrements | src/components/shared/ProductCard.tsx:75-79 | with exactly one existing row, adding raises that row's quantity by one and leaves every other row as it was |
| Gateways.AddToCartKeepsQuantitiesPositive | src/components/shared/ProductCard.tsx:75-88 | adding to the cart keeps every quantity positive |
| Gateways.AddToCartTwice | src/components/shared/ProductCard.tsx:75-88 | two adds of a new product leave one row of quantity 2 |
| Gateways.LikeAddsOneRow | src/components/shared/ProductCard.tsx:44-50 | a like inserts exactly one more (user, product) row and keeps the existing rows |
| Gateways.UnlikeRemovesAllRows | src/components/shared/ProductCard.tsx:37-41 | an unlike deletes every (user, product) row and keeps all other rows in order |
| Gateways.LikeThenUnlikeRestores | src/components/shared/ProductCard.tsx:36-51 | like then unlike restores the wishlist table |
| Gateways.AddToCart | src/components/shared/ProductCard.tsx:66-88 | the cart table becomes the upsert-increment result; a new id is used only for an insert |
| Gateways.Like | src/components/shared/ProductCard.tsx:44-50 | the wishlist gains the like row |
| Gateways.Unlike | src/components/shared/ProductCard.tsx:37-41 | the wishlist loses the user's rows for the product |
| Backend.Store.InsertNotifications | src/pages/Cart.tsx:169-176 | the batch is appended after the old rows, with ids from the store's counter, and carries exactly the drafts given |
| CartPage.WithQuantity | src/pages/Cart.tsx:82-102 | only the entries with the item id get the new quantity; the rest stay as they were |
| CartPage.RemoveKeepsOthersInOrder | src/pages/Cart.tsx:104-115 | removal drops exactly the entries with the id and keeps the others in order |
| CartPage.QuantityChangeKeepsPositive | src/pages/Cart.tsx:82-102 | a positive new quantity or a removal keeps every quantity positive |
| CartPage.OrderItemsFor | src/pages/Cart.tsx:151-156 | one order item per cart entry, with its product, quantity and unit price |
| CartPage.OrderItemsMatchTotal | src/pages/Cart.tsx:117-121 | the order items' price times quantity sums to the cart total |
| CartPage.CartWithoutUser | src/pages/Cart.tsx:163-166 | after clearing, the user has no cart rows, and every other user's row is kept, in order |
| CartPage.JoinedCart | src/pages/Cart.tsx:64-80 | the rows behind the lines are the user's rows of the table, in table order and with their multiplicity; each line is joined with its product |
| CartPage.RejectedRemoveComesBack | src/pages/Cart.tsx:104-115 | after a rejected delete the line is gone from the list while the row is still among the user's rows a fetch shows |
| CartPage.Cart.constructor | src/pages/Cart.tsx:21-24 | an empty cart, no profile and no addresses |
| CartPage.Cart.FetchCart | src/pages/Cart.tsx:64-80 | all of the user's rows, in table order, joined; a failed read keeps the list |
| CartPage.Cart.FetchUserData | src/pages/Cart.tsx:38-60 | the first profile row with the user's id, when there is one, and the user's addresses |
| CartPage.Cart.RemoveFromCart | src/pages/Cart.tsx:104-115 | a written delete removes the row and the line; a rejected one removes only the line; a thrown one changes nothing |
| CartPage.Cart.UpdateQuantity | src/pages/Cart.tsx:82-102 | a quantity of 0 or less removes the item; otherwise a written update sets it in table and list, a rejected one only in the list, a thrown one nowhere; positivity is preserved |
| CartPage.Cart.HandleRazorpayPayment | src/pages/Cart.tsx:123-190 | the profile gate; a failed order changes nothing; otherwise one paid order, its items, the cleared cart, one unread notification and the success toast |
| ProductCardView.LikeToast | src/components/shared/ProductCard.tsx:52 | the success toast names the direction of the click |
| ProductCardView.ToggleTwiceRestores | src/components/shared/ProductCard.tsx:28-57 | two heart clicks from an unliked product restore both the table and the heart |
| ProductCardView.CardLikeOnLikedProductDuplicates | src/components/shared/ProductCard.tsx:20-50 | the tile's heart starts unfilled, so a click on an already liked product inserts a second row |
| ProductCardView.ProductCard.constructor | src/components/shared/ProductCard.tsx:20-21 | the heart is unfilled and the tile is not busy |
| ProductCardView.ProductCard.HandleLikeClick | src/components/shared/ProductCard.tsx:28-57 | sign-in redirect without a user; a thrown write shows the error toast and changes nothing; a rejected one flips the heart and shows the success toast with the table unchanged; a written one toggles table and heart and uses one fresh id only for a like |
| ProductCardView.ProductCard.HandleAddToCart | src/components/shared/ProductCard.tsx:59-96 | sign-in redirect without a user; the busy flag always ends cleared; a written add does the upsert-increment, using a fresh id only for a new row; a rejected one shows the success toast with the table unchanged; a thrown one the error toast |
| ProductDetailPage.SingleProduct | src/pages/ProductDetail.tsx:33-37 | a product exactly when one row has the id, and it is that row |
| ProductDetailPage.RelatedProductsProperties | src/pages/ProductDetail.tsx:43-48 | at most four related products, never the viewed one, in table order; all candidates when at most four |
| ProductDetailPage.ToggleKeepsHeartInSync | src/pages/ProductDetail.tsx:54-99 | with the heart read at load, a click leaves the heart equal to whether the row exists |
| ProductDetailPage.DuplicateLikeHidesHeart | src/pages/ProductDetail.tsx:54-62 | after a duplicate like, `.single()` finds two rows and the heart loads unfilled |
| ProductDetailPage.ProductDetail.constructor | src/pages/ProductDetail.tsx:18-22 | no product, no related products, unfilled heart, loading |
| ProductDetailPage.ProductDetail.FetchProduct | src/pages/ProductDetail.tsx:30-69 | loading ends; without a single match the page keeps its state; otherwise the product is set, a failed related query keeps the old related list and heart, and a failed wishlist read loads the heart unfilled for a signed-in user |
| ProductDetailPage.ProductDetail.HandleLikeClick | src/pages/ProductDetail.tsx:71-99 | the same redirect and the same three outcomes (written, rejected, thrown) as on the tile |
| ProductDetailPage.ProductDetail.HandleAddToCart | src/pages/ProductDetail.tsx:101-137 | the same add-to-cart, id use and three outcomes as on the tile; the busy flag ends cleared |
| WishlistPage.JoinedWishlist | src/pages/Wishlist.tsx:34-51 | the rows behind the entries are the user's rows of the table, in table order and with their multiplicity; each entry is joined with its product |
| WishlistPage.RemoveEntryKeepsOthers | src/pages/Wishlist.tsx:53-68 | removal drops exactly the entries with the id, keeps the others in order, and an absent id changes nothing |
| WishlistPage.Wishlist.constructor | src/pages/Wishlist.tsx:15-17 | an empty list and no product being added |
| WishlistPage.Wishlist.FetchWishlist | src/pages/Wishlist.tsx:34-51 | all of the user's rows, in table order, joined; a failed read keeps the list |
| WishlistPage.Wishlist.RemoveFromWishlist | src/pages/Wishlist.tsx:53-68 | a written delete removes row and entry with the success popup; a rejected one removes only the entry, with the same popup; a thrown one changes nothing and shows the failure popup |
| WishlistPage.Wishlist.AddToCart | src/pages/Wishlist.tsx:70-102 | a written add does the upsert-increment, using a fresh id only for a new row, with the success popup; a rejected one shows the same popup with the table unchanged; a thrown one the failure popup; the busy marker is reset on every outcome |
| WishlistPage.Wishlist.ClickCart | src/pages/Wishlist.tsx:338-342 | the disabled button for a missing or inactive product does nothing; otherwise the add of `AddToCart` |
| NotificationsPage.MarkRead | src/pages/Notifications.tsx:43-58 | only the notifications with the id become read |
| NotificationsPage.MarkReadIdempotent | src/pages/Notifications.tsx:43-58 | marking twice equals marking once |
| NotificationsPage.MarkReadLowersUnread | src/pages/Notifications.tsx:43-58 | the unread count never grows, and drops when an unread one with the id exists |
| NotificationsPage.DeleteKeepsOthers | src/pages/Notifications.tsx:60-71 | deletion drops exactly the id's rows and keeps the others in order |
| NotificationsPage.MarkReadEnablesDelete | src/pages/Notifications.tsx:266-287 | a read notification shows the delete button, an unread one the mark-read button |
| NotificationsPage.Notifications.constructor | src/pages/Notifications.tsx:13-14 | an empty list |
| NotificationsPage.Notifications.FetchNotifications | src/pages/Notifications.tsx:26-41 | the user's notifications; a failed read keeps the list |
| NotificationsPage.Notifications.MarkAsRead | src/pages/Notifications.tsx:43-58 | a written update marks table and list; a rejected one only the list; a thrown one nothing; the unread count never grows |
| NotificationsPage.Notifications.DeleteNotification | src/pages/Notifications.tsx:60-71 | a written delete removes it from table and list; a rejected one only from the list; a thrown one changes nothing |
| ProfilePage.ApplyEdit | src/pages/Profile.tsx:89-94 | the edited field takes the given value and every other field is kept; no profile stays no profile |
| ProfilePage.ApplyEditIdempotent | src/pages/Profile.tsx:89-94 | the same edit twice equals once |
| ProfilePage.AgeOrNull | src/pages/Profile.tsx:110 | `age \|\| null`: a missing or zero age becomes null |
| ProfilePage.ProfilePayload | src/pages/Profile.tsx:107-114 | the saved row carries the user's id and email, and each empty text field becomes null |
| ProfilePage.SaveLeavesOneRow | src/pages/Profile.tsx:117-139 | update-or-insert leaves exactly one row for the user, equal to the payload, and keeps the others |
| ProfilePage.UpdatedRowsAreThePayload | src/pages/Profile.tsx:126-131 | the update by id turns each of the user's rows into the payload |
| ProfilePage.ProfileErrorMessage | src/pages/Profile.tsx:157-163 | each of the two known error codes has its message; every other code gets the generic one |
| ProfilePage.AddressCompleteMeansNotBlank | src/pages/Profile.tsx:175-176 | line 1, city, state and postal code must be non-blank; line 2 and country are not checked |
| ProfilePage.WithoutAddressesOf | src/pages/Profile.tsx:187-190 | after the delete the user has no addresses, and every other user's address is kept, in order |
| ProfilePage.SavedAddressesOfUser | src/pages/Profile.tsx:186-210 | with addresses on the page the user ends with only the new one; otherwise it is appended to the old ones |
| ProfilePage.DeleteAddressKeepsOthers | src/pages/Profile.tsx:243-263 | the delete drops exactly that address and keeps the others in order |
| ProfilePage.Profile.constructor | src/pages/Profile.tsx:14-28 | no profile, no addresses, the empty address form with country India |
| ProfilePage.Profile.FetchUserData | src/pages/Profile.tsx:39-87 | the first profile row, or a blank local profile when none exists, and the user's addresses |
| ProfilePage.Profile.HandleProfileUpdate | src/pages/Profile.tsx:89-94 | the profile is the edit applied to the old profile: the edited field takes the value, the others are kept |
| ProfilePage.Profile.SaveProfileChanges | src/pages/Profile.tsx:100-169 | nothing without a profile; an error shows the code's message and leaves the table, the profile and the addresses; success saves the payload and reloads the profile and addresses from the table |
| ProfilePage.Profile.SetAddressForm | src/pages/Profile.tsx:96-98 | the form takes the edited value (the whole form at once) |
| ProfilePage.Profile.SaveAddress | src/pages/Profile.tsx:171-241 | an incomplete form only shows the required-fields message; otherwise the writes of `WriteAddress` |
| ProfilePage.Profile.WriteAddress | src/pages/Profile.tsx:183-239 | the delete only when the page holds addresses; a failure shows its message, keeps the page's list, form and form visibility, and leaves the table as the writes before it left it; on success the new default row, a reset and hidden form, and a reload of the page's list unless the reload fails, which keeps the old list |
| ProfilePage.Profile.DeleteAddress | src/pages/Profile.tsx:243-263 | on success the row leaves table and list; on failure nothing changes but the message |
| ProductFormView.InitialForm | src/pages/ProductForm.tsx:14-23 | blank fields for a new product; an edited product's fields, tags joined with ", ", and the default category for an empty one |
| ProductFormView.ImageRejection | src/pages/ProductForm.tsx:84-104 | a file is accepted exactly when its type starts with "image/" and it is at most 5 MB; otherwise the matching alert |
| ProductFormView.SizeLimitBoundary | src/pages/ProductForm.tsx:84-104 | for an image type, 5242880 bytes pass and 5242881 bytes are too large |
| ProductFormView.SubmittedImageUrl | src/pages/ProductForm.tsx:106-124 | the uploaded file's URL when a file is chosen, else the typed URL |
| ProductFormView.ProductForm.constructor | src/pages/ProductForm.tsx:14-25 | the initial form, no file, the product's image as preview, one image source |
| ProductFormView.ProductForm.HandleImageChange | src/pages/ProductForm.tsx:84-104 | a rejected file raises its alert and changes nothing; an accepted one replaces the typed URL; one image source is kept |
| ProductFormView.ProductForm.HandleImageUrlChange | src/pages/ProductForm.tsx:127-131 | the typed URL replaces any chosen file |
| ProductFormView.ProductForm.RemoveImage | src/pages/ProductForm.tsx:133-137 | no file, no preview and no URL |
| ProductFormView.ProductForm.HandleSubmit | src/pages/ProductForm.tsx:106-124 | a failed upload submits nothing; otherwise the form with the image URL to use; the busy flag ends cleared |
| AdminProductsPage.FilterProductsIsSubsequence | src/pages/AdminProducts.tsx:32-46 | the shown list keeps table order and every product that passes the three filters |
| AdminProductsPage.FilterProductsConstraints | src/pages/AdminProducts.tsx:32-46 | every shown product passes the status, category and text filters |
| AdminProductsPage.FilterProductsNoFilter | src/pages/AdminProducts.tsx:32-46 | all statuses, all categories and an empty query show every product |
| AdminProductsPage.CategoryColumn | src/pages/AdminProducts.tsx:29 | the category of each product, in order |
| AdminProductsPage.CategoriesProperties | src/pages/AdminProducts.tsx:29 | each category once, exactly the categories in use, in order of first appearance |
| AdminProductsPage.ParseTags | src/pages/AdminProducts.tsx:54-56 | splitting never yields an empty list |
| AdminProductsPage.ParseTagsPieces | src/pages/AdminProducts.tsx:54-56 | one tag more than there are commas, each trimmed |
| AdminProductsPage.SplitShownTags | src/pages/ProductForm.tsx:19 | splitting the shown tags at commas gives the first tag and the others with their leading space |
| AdminProductsPage.TagsRoundTrip | src/pages/AdminProducts.tsx:54-56 | tags without commas or edge spaces survive showing in the form and parsing back |
| AdminProductsPage.EmptyTagsComeBackAsOneEmptyTag | src/pages/AdminProducts.tsx:54-56 | a product without tags comes back from the form with one empty tag |
| AdminProductsPage.AlertDrafts | src/pages/AdminProducts.tsx:92-98 | one unread " New Product Alert!" per profile, addressed to that profile |
| AdminProductsPage.NoFailureInsertsAll | src/pages/AdminProducts.tsx:101-112 | when no batch fails, every draft is inserted in order |
| AdminProductsPage.OnlyFailedBatchIsMissing | src/pages/AdminProducts.tsx:101-112 | when exactly one batch fails, the inserted alerts are all the other batches, in order |
| AdminProductsPage.FanOutBatchShape | src/pages/AdminProducts.tsx:100-103 | the batches concatenate to the drafts, hold 1 to 50 each, and number ceil(n/50) |
| AdminProductsPage.FanOutReachesEveryProfile | src/pages/AdminProducts.tsx:80-119 | without failures the inserted alerts are exactly one per profile, in profile order |
| AdminProductsPage.InsertedStep | src/pages/AdminProducts.tsx:101-112 | one loop step of 50 inserts the next batch unless it fails |
| AdminProductsPage.ProductFromForm | src/pages/AdminProducts.tsx:51-57 | the form's fields with parsed price and parsed tags |
| AdminProductsPage.ReplaceProduct | src/pages/AdminProducts.tsx:142-146 | only the products with the id become the saved data |
| AdminProductsPage.SetActive | src/pages/AdminProducts.tsx:165-167 | only the products with the id get the new active flag |
| AdminProductsPage.ToggleTwiceRestores | src/pages/AdminProducts.tsx:156-172 | toggling twice from the shown state restores the list |
| AdminProductsPage.AdminProducts.constructor | src/pages/AdminProducts.tsx:22-23 | the given list, the add form closed, nothing being edited |
| AdminProductsPage.AdminProducts.CreateProductNotifications | src/pages/AdminProducts.tsx:80-119 | a failed profile read inserts nothing; otherwise the inserted alerts are the batches that did not fail; old rows are kept |
| AdminProductsPage.AdminProducts.InsertInBatches | src/pages/AdminProducts.tsx:101-112 | the loop appends exactly the non-failing batches in order |
| AdminProductsPage.AdminProducts.InsertUnlessFails | src/pages/AdminProducts.tsx:103-110 | a batch is appended whole, or nothing on failure |
| AdminProductsPage.AdminProducts.HandleAddProduct | src/pages/AdminProducts.tsx:48-77 | a failed insert changes nothing; otherwise the row is stored, put first in the list, the alerts fan out (none after a failed profile read) and the form closes |
| AdminProductsPage.AdminProducts.HandleUpdateProduct | src/pages/AdminProducts.tsx:121-153 | no-op without an edited product; an update matching exactly one row replaces it in table and list; otherwise nothing is written and the error toast shows |
| AdminProductsPage.AdminProducts.ToggleProductStatus | src/pages/AdminProducts.tsx:156-172 | table and list get the flipped flag and the toast names it; a failure changes nothing |
| AdminOrdersPage.RowsOf | src/pages/AdminOrders.tsx:98-102 | the order rows behind the list, in order |
| AdminOrdersPage.FilterOrdersProperties | src/pages/AdminOrders.tsx:72-85 | the shown list keeps order, keeps every matching order, and a status tab shows only that status |
| AdminOrdersPage.EmptySearchShowsTab | src/pages/AdminOrders.tsx:72-85 | with no search the 'all' tab shows everything and a status tab exactly that status |
| AdminOrdersPage.StatusCountsMatchTabs | src/pages/AdminOrders.tsx:129-136 | each badge count equals the length of its tab's list without search; the three statuses never exceed all |
| AdminOrdersPage.TabCount | src/pages/AdminOrders.tsx:129-136 | a status count equals the size of that status's tab |
| AdminOrdersPage.StatusStyling | src/pages/AdminOrders.tsx:56-70 | unknown statuses look pending; completed, cancelled and pending have distinct colours |
| AdminOrdersPage.SetRowStatus | src/pages/AdminOrders.tsx:89-94 | only the rows with the id get the new status |
| AdminOrdersPage.SetOrderStatus | src/pages/AdminOrders.tsx:98-102 | only the list entries with the id get the new status |
| AdminOrdersPage.SetStatusProperties | src/pages/AdminOrders.tsx:98-102 | the list update agrees with the table update and is idempotent |
| AdminOrdersPage.StatusMessageMentions | src/pages/AdminOrders.tsx:111-119 | the customer's message names the first 8 characters of the order id and the new status |
| AdminOrdersPage.AdminOrders.constructor | src/pages/AdminOrders.tsx:15 | the given orders, nothing selected |
| AdminOrdersPage.AdminOrders.UpdateOrderStatus | src/pages/AdminOrders.tsx:87-127 | only an update matching exactly one order succeeds; then table, list and the open order change, the customer is notified and the success toast shows; a failed notification adds the error toast |
| AdminDashboardPage.ActivePlusInactive | src/pages/AdminDashboard.tsx:21-22 | active and inactive products add up to all products |
| AdminDashboardPage.StatusCountsBounded | src/pages/AdminDashboard.tsx:23-25 | pending, completed and cancelled orders never exceed all orders |
| AdminDashboardPage.TotalRevenueIsCompletedSum | src/pages/AdminDashboard.tsx:28-30 | revenue is the sum of the completed orders' amounts |
| AdminDashboardPage.RevenueBounds | src/pages/AdminDashboard.tsx:28-30 | no completed order means no revenue; non-negative amounts give non-negative revenue |
| AdminDashboardPage.AverageOrderValue | src/pages/AdminDashboard.tsx:33 | 0 without completed orders; otherwise it times their count is the revenue |
| AdminDashboardPage.Percent | src/pages/AdminDashboard.tsx:425 | 0 for an empty whole; a part of the whole lies in 0 to 100; all of it is 100 |
| AdminDashboardPage.PercentagesInRange | src/pages/AdminDashboard.tsx:425-439 | success rate and inventory health lie in 0 to 100 and are 0 for empty lists |
| AdminUsersPage.FilterUsersProperties | src/pages/AdminUsers.tsx:52-60 | the shown users keep order, are exactly the matching users, and an empty search shows all |
| AdminUsersPage.UserInitials | src/pages/AdminUsers.tsx:62-69 | '?' without a name or without words; otherwise the first one or two word-starting characters, upper-cased |
| AdminUsersPage.FirstCharsAreWordStarts | src/pages/AdminUsers.tsx:62-69 | the first characters of the space-separated parts are exactly the characters that start a word, in order |
| AdminUsersPage.FirstCharsOfWords | src/pages/AdminUsers.tsx:62-69 | a name of spaces yields no initials; otherwise the first initial is its first non-space character |
| AdminUsersPage.UserInitialsCases | src/pages/AdminUsers.tsx:62-69 | '?' without a name or for spaces only; otherwise the upper-cased first non-space character comes first; a name has word starts exactly when it is not all spaces |
| AdminUsersPage.GradientIndex | src/pages/AdminUsers.tsx:71-82 | a valid index for every non-empty id, none for the empty id |
| AdminUsersPage.Gradient | src/pages/AdminUsers.tsx:71-82 | one of the six gradients for every non-empty id |
| AdminUsersPage.GradientByFirstCharacter | src/pages/AdminUsers.tsx:71-82 | ids with the same first character, or first codes six apart, share a gradient |
| ShopPage.ShopFilterSelects | src/pages/Shop.tsx:50-66 | the shown list keeps order and holds exactly the products that pass both enabled stages |
| ShopPage.ShopFilterNoFilter | src/pages/Shop.tsx:50-66 | category 'all' and a blank query show every product |
| ShopPage.ShopFilterIdempotent | src/pages/Shop.tsx:50-66 | filtering the shown list again changes nothing |
| ShopPage.ShopFilterStagesCommute | src/pages/Shop.tsx:50-66 | the category and search stages can run in either order |
| ProfileOrdersPage.FormatOrderId | src/pages/ProfileOrders.tsx:121 | '#' and the id's first 8 characters upper-cased |
| ProfileOrdersPage.ProductDetailsIsFirstMatch | src/pages/ProfileOrders.tsx:117-119 | the lookup gives the first product with the id, and none exactly when no product has it |
| ProfileOrdersPage.RequestedProductIds | src/pages/ProfileOrders.tsx:63-97 | the product id of each item, in order |
| ProfileOrdersPage.OrderDetailsProperties | src/pages/ProfileOrders.tsx:63-97 | the modal's items are exactly the order's items, and its products are exactly those some item refers to |
| ProfileOrdersPage.OrderNoun | src/pages/ProfileOrders.tsx:203-206 | "order" for exactly one, "orders" otherwise |
| ProfileOrdersPage.ProfileOrders.constructor | src/pages/ProfileOrders.tsx:23-28 | no orders, no selection, an empty closed modal |
| ProfileOrdersPage.ProfileOrders.FetchOrders | src/pages/ProfileOrders.tsx:41-61 | the user's orders; a failed read keeps the list |
| ProfileOrdersPage.ProfileOrders.FetchOrderDetails | src/pages/ProfileOrders.tsx:63-97 | the order details, or the old lists after a failed read; loading ends either way |
| ProfileOrdersPage.ProfileOrders.HandleOrderClick | src/pages/ProfileOrders.tsx:99-103 | the modal opens on the order with its details; a failed item or product read keeps the old lists |
| ProfileOrdersPage.ProfileOrders.CloseModal | src/pages/ProfileOrders.tsx:105-109 | the modal closes and its contents are cleared |
| UseAuth.SessionUser | src/hooks/useAuth.ts:15 | the session's user, and none exactly without a session |
| UseAuth.MaybeSingleOf | src/hooks/useAuth.ts:44-49 | no row, the one row, or an error for several |
| UseAuth.AdminFlag | src/hooks/useAuth.ts:44-57 | admin exactly when the lookup succeeds with one admins row |
| UseAuth.AdminFlagMeansAdminRow | src/hooks/useAuth.ts:44-57 | a flagged user has an admins row; a user without one is never flagged |
| UseAuth.AuthState.constructor | src/hooks/useAuth.ts:6-9 | no user, no session, not admin, loading |
| UseAuth.AuthState.OnInitialSession | src/hooks/useAuth.ts:13-18 | session and user are set and loading ends |
| UseAuth.AuthState.OnAuthStateChange | src/hooks/useAuth.ts:23-36 | signing out clears the admin flag; the event never raises it |
| UseAuth.AuthState.CheckAdmin | src/hooks/useAuth.ts:44-57 | the flag becomes the lookup's answer |
| AuthCallbackPage.ProfileName | src/pages/AuthCallback.tsx:45-48 | full name, else name, else the email's local part, else 'User', skipping empty ones; never empty |
| AuthCallbackPage.EmailFallback | src/pages/AuthCallback.tsx:47-48 | without names: 'User' for an empty email or one starting with '@'; otherwise the email up to its first '@' |
| AuthCallbackPage.ExistingProfile | src/pages/AuthCallback.tsx:27-31 | a row exactly when the check succeeds and one profile has the id |
| AuthCallbackPage.UpsertProfileProperties | src/pages/AuthCallback.tsx:39-50 | afterwards the user has a row with the email and name; other users' rows are unchanged |
| AuthCallbackPage.AuthCallback.constructor | src/pages/AuthCallback.tsx:8 | the initial status text |
| AuthCallbackPage.AuthCallback.HandleAuthCallback | src/pages/AuthCallback.tsx:11-72 | a failed or missing session goes to sign-in; otherwise a profile is upserted when none is found, and the user goes home |

## Left out

- Rendering, animation, modals' markup, icons other than the status icons, and the toast component's timing are not modelled.
- The hosted backend client is replaced by in-memory tables. Row-level security, server-generated timestamps, `created_at` ordering and the `.or(...)` filter string's exact server semantics are not modelled. The related-product query is read as "same category, or containing all of the viewed product's tags".
- Concurrency and realtime are not modelled. Each awaited request is one atomic step. An admin lookup started by an auth event completes as a separate `CheckAdmin` step, so a stale lookup finishing after a sign-out is not modelled.
- Floating point is not modelled. Money is a mathematical real. `parseFloat`, `toString` and `toFixed` are the `parsePrice` and `render` parameters. The `|| 0` for a missing order amount is not needed because amounts are never missing in the model.
- Timers, navigation delays (`setTimeout`), the WhatsApp link, image upload to storage (the `upload` parameter) and the sign-up and sign-in helpers are not modelled.
- Case mapping is ASCII only. `charCodeAt(0)` is read as the character's code point, not its UTF-16 unit.
- Row ids are taken from the store's counter. That they are fresh is not proved.
- Intermediate flags are not modelled as observable states. These are `isAddingToCart`, `addingToCart`, `isSubmitting`, `loading…` and the intermediate status texts of the sign-in callback. Each handler is atomic, and only the final value of each flag is stated.
- The admin shell page that loads products and orders and switches tabs is not part of this model. The admin pages get their lists through their constructors.
- An exception caught by a handler that only logs it is the `Thrown` reply or the handler's failure parameter.
- Gateways.AddToCart: a lookup of the existing cart row that returns an error object reads as "no row" in the source and leads to an insert. The model's lookup always reads the table; only the write's outcome is a parameter.
- UseAuth.AdminFlag: `maybeSingle` reports several admins rows for one user as an error, so such a user is not an admin. The code decides this, not the pages' wording.
- CartPage.Cart.HandleRazorpayPayment: the Razorpay checkout itself is not modelled. Only the order insert's error is checked, as in the source. The item, cart and notification writes are assumed to succeed.
- AdminProductsPage.AdminProducts.HandleAddProduct: a failure of the notification fan-out is caught inside it and does not change the toast. The model keeps only the per-batch and profile-read failures.
- CartPage.Cart.FetchUserData: a failed profile or address read is not modelled. Both reads are assumed to succeed.
- ProfilePage.Profile.FetchUserData: read errors are not modelled. The profile and address reads are assumed to succeed.
