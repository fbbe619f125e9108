# Music Store: carts, orders and the client views, in Dafny

This project models the shopping core of the Music Store web application.

The backend keeps one cart per user: a sequence of `(album, quantity)` lines. Four cart routes read,
create, add to and remove from it. Checkout copies a non-empty cart into a new order and empties
the cart. The history route returns the user's orders with album fields filled in, newest first.
Two middlewares gate these routes on the session's user id.

The React client decides which cart request a quantity button sends. It also filters and groups
the album list, filters a genre page, and formats track durations. The order-history page counts
items and shortens ids. The root component keeps a small view-state machine.

Layout, one module per file:

- `Lines`: cart and order lines, `findIndex` and the quantity sums.
- `Replies`: the error kinds with their status and message.
- `Seqs`: `filter` and subsequences.
- `Text`: decimal printing, `padStart`, ASCII lower-casing and `includes`.
- `CartRoutes` and `OrderRoutes`: what each route replies and stores, as functions.
- `Store`: the persisted collections as a class, one method per route handler. Each method is
  proved equal to its route function.
- `Auth`: the middlewares.
- `Http`: the shape of a client-side `fetch` outcome.
- `CartPage`, `App`, `AlbumCards`, `AlbumList`, `GenrePage`, `AlbumDetail`, `OrderHistory`: the
  client components.

Modelling choices:

- The backend's album collection is a map from album id to the fields that history shows. The
  cart routes only ask whether an id is a key.
- Order ids come from a counter in the store.
- The order date is a parameter of checkout, standing in for the clock.
- Every network reply the client receives is a parameter of the method or function that handles
  it.

## Model

| member | source | states |
|---|---|---|
| Lines.IndexOf | backend/routes/cart.js:53 | The result is the first line for the album; it is -1 exactly when no line holds it. |
| Lines.IndexOfIs | backend/routes/cart.js:53 | A line for the album with none before it is the one `findIndex` returns. |
| Lines.QuantityOfLine | backend/database/models/Cart.js:5-10 | In a duplicate-free cart, an album's total quantity is the quantity of its one line, or 0. |
| Lines.QuantityOfUpdate | backend/routes/cart.js:55 | Rewriting one line moves the per-album and total sums by exactly the old and new quantities. |
| Lines.QuantityOfSplice | backend/routes/cart.js:89 | Splicing a line out takes exactly its quantity out of the sums. |
| Lines.SpliceKeepsOrder | backend/routes/cart.js:89 | `splice(i, 1)` shortens the cart by one and keeps the other lines in order. |
| Lines.AppendQuantity | backend/routes/cart.js:57 | Pushing a line adds its quantity to its album and to the total. |
| Lines.TotalQuantityZero | frontend/src/components/Cart.js:117-120 | For positive lines, the summed quantity is 0 exactly when there are no lines. |
| Lines.TotalQuantity | frontend/src/components/Cart.js:117-120 | For positive lines, at least the number of lines; TotalQuantityZero and the quantity lemmas state what it sums. |
| Replies.Status | backend/routes/cart.js:41-83 | 404 is sent exactly for a missing album, cart, orders or history; 500 only for the history catch-all; 400 otherwise. |
| Replies.Message | backend/routes/cart.js:41-83 | The `error` text of each failure, never empty; MessagesDistinguishFailures shows no two failures share one. |
| Replies.MessagesDistinguishFailures | backend/routes/cart.js:44-51 | A missing album and a missing cart share status 404; the error messages tell every failure apart. |
| Text.DigitsValueOfNatToString | frontend/src/components/AlbumDetail.js:51 | Reading back the decimal form of a number gives the number. |
| Text.PadStart | frontend/src/components/AlbumDetail.js:51 | The result has at least the target width, ends with the input and is filled on the left. |
| Text.Lower | frontend/src/components/AlbumList.js:93 | Same length as the input, each character lower-cased (ASCII). |
| Text.IncludesMeansOccurs | frontend/src/components/AlbumList.js:95-97 | `includes` holds exactly when the needle occurs at some position. |
| Text.Includes | frontend/src/components/AlbumList.js:95-97 | The empty needle is always included; a needle longer than the text never is. |
| CartRoutes.Merged | backend/routes/cart.js:53-58 | An existing line gains `q` with length and other lines unchanged; otherwise one line `(album, q)` is appended after the old lines. |
| CartRoutes.Decremented | backend/routes/cart.js:81-90 | A line holding more than `q` loses `q`, everything else unchanged; otherwise (equal included) it is removed and the rest keep their order. |
| CartRoutes.ValidBody | backend/routes/cart.js:41 | The falsy cases of the guard fail: a missing or empty album id, and a missing, zero or negative quantity. |
| CartRoutes.Get | backend/routes/cart.js:10-21 | The owner's lines, unchanged, exactly when the owner has a cart; otherwise "cart not found". |
| CartRoutes.Create | backend/routes/cart.js:24-35 | An empty cart exactly when the owner has none; otherwise "already exists". |
| CartRoutes.Add | backend/routes/cart.js:38-64 | Checks in order: body (400), then album (404), then cart (404); success is exactly when all pass, with the merged lines. |
| CartRoutes.Remove | backend/routes/cart.js:66-96 | The same checks, then "Album not in cart" when no line holds the album; success is exactly when all checks pass and the cart holds the album, with the decremented lines. |
| CartRoutes.MergedQuantities | backend/routes/cart.js:53-58 | Adding raises the album by exactly `q`, leaves every other album alone and raises the total by `q`. |
| CartRoutes.MergedWellFormed | backend/routes/cart.js:53-58 | Adding a positive quantity keeps the cart duplicate-free with every quantity at least 1. |
| CartRoutes.MergeTwice | backend/routes/cart.js:53-58 | Two adds of one album equal one add of the summed quantity. |
| CartRoutes.DecrementedQuantities | backend/routes/cart.js:86-90 | Removing `q` leaves the album at `max(0, old - q)` and every other album unchanged. |
| CartRoutes.DecrementedWellFormed | backend/routes/cart.js:86-90 | Removing any quantity keeps the cart duplicate-free and positive. |
| CartRoutes.DecrementedDeletes | backend/routes/cart.js:86-90 | The album's line disappears exactly when it held at most `q`. |
| CartRoutes.RoutesKeepCartsWellFormed | backend/routes/cart.js:38-96 | A successful add or remove keeps every stored cart well formed. |
| OrderRoutes.OrdersOf | backend/routes/order.js:11 | Exactly the orders owned by the user, in stored order; empty exactly when the user owns none. |
| OrderRoutes.List | backend/routes/order.js:9-19 | "Orders not found" exactly when the user owns no order; otherwise exactly the user's orders. |
| OrderRoutes.PlacedOrderIsListed | backend/routes/order.js:87-90 | A new order is listed last among its owner's orders and no other user's list changes. |
| OrderRoutes.Snapshot | backend/routes/order.js:78-86 | No cart gives "cart not found"; an empty cart gives "Cart is empty"; a non-empty cart always succeeds with exactly its lines. |
| OrderRoutes.Summary | backend/routes/order.js:48-53 | The projected album carries the id, title, price and artist of the catalog record; a missing artist stays missing (`null`). |
| OrderRoutes.ProjectItems | backend/routes/order.js:47-55 | Same number and order of items, each keeping its album id and quantity. |
| OrderRoutes.Project | backend/routes/order.js:45-56 | An order keeps its id, owner and date; only its items are reshaped. |
| OrderRoutes.ProjectAll | backend/routes/order.js:34-60 | One projected entry per order, in the same order. |
| OrderRoutes.InsertNewestPerm | backend/routes/order.js:63-65 | One insertion step adds exactly the inserted entry and nothing else. |
| OrderRoutes.InsertNewestSorted | backend/routes/order.js:63-65 | Inserting into a newest-first list keeps it newest-first and adds exactly one element. |
| OrderRoutes.SortNewestFirst | backend/routes/order.js:63-65 | The result is newest-first and a permutation of the input. |
| OrderRoutes.InsertNewestStable | backend/routes/order.js:63-65 | An insertion places the new entry after every entry with the same date. |
| OrderRoutes.InsertBehind | backend/routes/order.js:63-65 | The step case of the stability proof, when the entry goes behind the head. |
| OrderRoutes.InsertInFront | backend/routes/order.js:63-65 | The step case of the stability proof, when the entry goes in front. |
| OrderRoutes.SortIsStable | backend/routes/order.js:63-65 | Entries with equal dates keep their input order (the sort is stable). |
| OrderRoutes.History | backend/routes/order.js:22-75 | No orders gives 404; an album missing from the catalog gives 500; otherwise it always succeeds, with the projected orders newest first. |
| OrderRoutes.HistoryIsOwnersOrdersNewestFirst | backend/routes/order.js:25-65 | A successful history is newest-first, a permutation of the user's projected orders, and holds only the user's orders. |
| Store.Shop.GetCart | backend/routes/cart.js:10-21 | Replies as `CartRoutes.Get` on the stored carts; the lines returned are well formed. |
| Store.Shop.CreateCart | backend/routes/cart.js:24-35 | Replies as `CartRoutes.Create`; on success only this owner's entry is added, as an empty cart. |
| Store.Shop.AddItem | backend/routes/cart.js:38-64 | Replies as `CartRoutes.Add`; on success only the owner's cart changes, to the reply; on failure nothing changes. |
| Store.Shop.RemoveItem | backend/routes/cart.js:66-96 | Replies as `CartRoutes.Remove`, with the same rule for the stored state. |
| Store.Shop.FindOrders | backend/routes/order.js:11 | The loop yields exactly `OrdersOf` on the stored orders. |
| Store.Shop.ListOrders | backend/routes/order.js:9-19 | Replies as `OrderRoutes.List`. |
| Store.Shop.OrderHistory | backend/routes/order.js:22-75 | Replies as `OrderRoutes.History`. |
| Store.Shop.PlaceOrder | backend/routes/order.js:77-97 | Failure changes nothing. Success appends exactly one order: the next id, the caller as owner, the pre-checkout lines and the given date. The caller's cart stays and is empty; other carts and orders are untouched; the store invariant holds. |
| Auth.RequireAuth | backend/middleware/auth.js:2-8 | Passes exactly for a session with a non-empty user id; otherwise 401 "Authentication required". |
| Auth.RequireGuest | backend/middleware/auth.js:11-17 | Passes exactly when that condition fails; otherwise 400 "Already logged in". |
| Auth.ExactlyOneGuardPasses | backend/middleware/auth.js:2-17 | For every request exactly one of the two guards passes. |
| Auth.AddUserInfo | backend/middleware/auth.js:20-24 | `isAuthenticated` is set exactly when `requireAuth` would pass; `userId` is the session's id, or missing without a session; `next` is always called. |
| CartPage.ChooseRequest | frontend/src/components/Cart.js:52-70 | A target of 0 or less removes 999. Without a cart or line nothing is sent. Otherwise a positive difference is added and a non-positive one removed as its absolute value. |
| CartPage.ButtonsAsWrittenChangeNothing | frontend/src/components/Cart.js:59-106 | As written, every request the quantity and trash buttons send lacks `albumId`, whatever its quantity, so it is rejected with 400 and the owner's lines stay as they were. |
| CartPage.UpdateLandsOnTarget | frontend/src/components/Cart.js:59-65 | Applying the chosen request to the backend leaves the album at the target (a difference of 0 is rejected with 400 and the line is already there), other albums unchanged and the cart well formed. |
| CartPage.RaiseLands | frontend/src/components/Cart.js:59-63 | A target above the current quantity sends an add of the difference; the line rises by exactly that, other albums stay, and the cart stays well formed. |
| CartPage.LowerLands | frontend/src/components/Cart.js:59-65 | A positive target below the current quantity sends a remove of the difference; the line drops by exactly that, other albums stay, and the cart stays well formed. |
| CartPage.TrashDeletesLine | frontend/src/components/Cart.js:197 | The trash button's remove of 999 deletes the line exactly when it holds at most 999; otherwise 999 come off. |
| CartPage.TotalItems | frontend/src/components/Cart.js:117-120 | 0 without a cart; otherwise the summed quantity, at least the number of lines. |
| CartPage.ShowsEmpty | frontend/src/components/Cart.js:143 | No cart shows the empty panel; a cart with a line never does. |
| CartPage.CheckoutDisabled | frontend/src/components/Cart.js:219 | The button is disabled only for a cart that the empty panel replaces, so a shown button is enabled. |
| CartPage.EmptyPanelIffNoItems | frontend/src/components/Cart.js:143 | The empty panel shows exactly when the item count is 0; whenever the checkout button shows, it is enabled. |
| CartPage.CartView.Load | frontend/src/components/Cart.js:13-34 | GET success shows the cart. 404 creates one. Another status sets "Failed to load cart"; a network failure sets "Network error". The spinner always stops. |
| CartPage.CartView.CreateCart | frontend/src/components/Cart.js:36-50 | Success shows the new cart; a rejection is ignored; a network failure sets "Failed to create cart". |
| CartPage.CartView.Apply | frontend/src/components/Cart.js:72-106 | Success shows the returned cart; a rejection is ignored; a network failure sets the add or remove message. |
| CartPage.CartView.UpdateQuantity | frontend/src/components/Cart.js:52-106 | Sends what `ChooseRequest` picks. A success shows the returned cart, a rejection changes nothing, and a network failure keeps the cart and reports "Failed to add to cart" or "Failed to remove from cart" by request kind. When nothing can be sent it sets "Failed to update quantity". |
| App.Dispatch | frontend/src/App.js:189-270 | Each of the seven non-home views mounts its own component, the detail and genre pages with their selection. "home" and every unknown view mount the album list with the search term. |
| App.UnknownViewRendersHome | frontend/src/App.js:258-268 | A view name outside the switch renders exactly what "home" renders. |
| App.KnownViewsAreDistinct | frontend/src/App.js:191-257 | Distinct non-home views mount distinct components. |
| App.AppState.Render | frontend/src/App.js:189-294 | The main area: the cart page for "cart", the album list with the current term for "home" and unknown views. |
| App.CartCount | frontend/src/App.js:100-125 | 0 when logged out or on any failure; otherwise the summed quantity of the cart. |
| App.BadgeMatchesCartPage | frontend/src/App.js:114-118 | The header badge equals the cart page's item count; for a stored cart it is 0 exactly when the cart is empty. |
| App.AppState.CheckSession | frontend/src/App.js:26-47 | A successful session check logs the user in; anything else keeps the login state. The check always ends. |
| App.AppState.HandleAlbumClick | frontend/src/App.js:49-54 | Selects the album, clears the artist and the search term, opens `albumDetail`; the genre is kept. |
| App.AppState.HandleArtistClick | frontend/src/App.js:56-61 | Selects the artist, clears the album and the search term, opens `artistDetail`. |
| App.AppState.HandleGenreClick | frontend/src/App.js:63-71 | Selects the genre, clears album, artist and search term, and opens `genrePage`. |
| App.AppState.HandleBackToHome | frontend/src/App.js:73-78 | Clears all three selections and opens `home`, keeping the search term. |
| App.AppState.HandleShow | frontend/src/App.js:80-98 | Clears the search term and opens the given view; the selections stay as they are. |
| App.AppState.Navigate | frontend/src/App.js:279 | Sets any view name; an unknown one renders the album list. |
| App.AppState.SetSearchTerm | frontend/src/App.js:285 | Sets the search term. |
| App.AppState.UpdateCartCount | frontend/src/App.js:100-125 | The badge becomes `CartCount` of the login state and the reply. |
| App.AppState.HandleCheckout | frontend/src/App.js:127-144 | Success sets the badge to 0 and the view to `home`; any failure changes neither. |
| App.AppState.HandleLogin | frontend/src/App.js:155-165 | Logs in with the given user and opens `home`. |
| App.AppState.HandleLogout | frontend/src/App.js:167-187 | Ends logged out, with no user and view `home`, whatever the server replied. |
| AlbumList.Filtered | frontend/src/components/AlbumList.js:90-99 | Never longer than the input. |
| AlbumList.Matches | frontend/src/components/AlbumList.js:90-98 | An empty term matches every album; an album without title, artist and genre matches only the empty term. |
| AlbumList.FilteredIsMatchingSubsequence | frontend/src/components/AlbumList.js:90-99 | An order-preserving subsequence holding exactly the matching albums; an empty term keeps the whole list. |
| AlbumList.FieldHasMeansOccurs | frontend/src/components/AlbumList.js:93-98 | A present field matches exactly when the lower-cased term occurs in it, lower-cased. |
| AlbumList.GenreKey | frontend/src/components/AlbumList.js:103 | Never empty; it is the genre name when that is present and non-empty, else "Unknown Genre". |
| AlbumList.GroupIndex | frontend/src/components/AlbumList.js:104 | The position of the group with that key, -1 exactly when there is none. |
| AlbumList.Push | frontend/src/components/AlbumList.js:102-108 | One `reduce` step: a new group only for a new key; the album ends a group of its key; groups of other keys are unchanged. |
| AlbumList.GroupAll | frontend/src/components/AlbumList.js:102-109 | No more groups than albums; GroupAllPartitions states the partition. |
| AlbumList.GroupAllPartitions | frontend/src/components/AlbumList.js:102-109 | Group genres are distinct. A group exists exactly for the keys some album has. Each group is exactly its key's albums, in list order. |
| AlbumList.PushGenres | frontend/src/components/AlbumList.js:104-107 | One reduce step keeps genres distinct and only ever adds a new group at the end. |
| AlbumList.PushKeys | frontend/src/components/AlbumList.js:102-109 | After a step, groups exist exactly for the keys seen so far. |
| AlbumList.PushFilters | frontend/src/components/AlbumList.js:102-109 | After a step, each group is exactly its key's albums so far, in order. |
| AlbumList.EachAlbumInOneGroup | frontend/src/components/AlbumList.js:102-109 | Every album is in the group of its key and in no other. |
| AlbumList.NoGroupsIffNoAlbums | frontend/src/components/AlbumList.js:118-119 | "No albums available" (no groups) shows exactly when nothing passed the search. |
| AlbumList.Shown | frontend/src/components/AlbumList.js:125 | A prefix of the group, at most 15 long; all of it when the group has at most 15. |
| AlbumList.TitleLabel | frontend/src/components/AlbumList.js:138-140 | A title over 15 characters shows its first 15 plus "..."; otherwise unchanged; a missing title throws. |
| AlbumList.ArtistLabel | frontend/src/components/AlbumList.js:151-153 | Over 20 characters: the first 20 plus "...". A missing artist or empty name: "Unknown Artist". An artist without a name throws. |
| AlbumList.Sections | frontend/src/components/AlbumList.js:121-125 | One section per group of the filtered list, each with the cards `Shown` gives. |
| AlbumList.ShownCardsMatch | frontend/src/components/AlbumList.js:121-125 | Every card shown is an album of the list that matches the term, in the section of its genre. |
| CardButton.AfterCreate | frontend/src/components/AlbumList.js:47-50 | The button's POST leaves the user with a cart: an empty new one, or the old one unchanged. Other users' carts are untouched. |
| CardButton.UnknownAlbumRetriesForever | frontend/src/components/AlbumList.js:45-52 | For a well-formed album id the backend does not know, the press as written never settles, however many attempts are followed. |
| CardButton.Press | frontend/src/components/AlbumList.js:15-59 | With at most one retry, an unknown album ends as "Album not found" and an empty id as the 400 input error. |
| CardButton.PressAddsOne | frontend/src/components/AlbumList.js:23-52 | For a known album the one-retry press succeeds. It adds exactly one copy to the user's cart, a fresh one if needed, and leaves the other albums alone. |
| CardButton.KnownAlbumSettles | frontend/src/components/GenrePage.js:54-61 | For a known album the press as written settles by the second PUT, with the same outcome as the one-retry press. |
| GenrePage.GenreAlbums | frontend/src/components/GenrePage.js:83-85 | Never longer than the catalog. |
| GenrePage.GenreAlbumsExact | frontend/src/components/GenrePage.js:83-85 | An order-preserving subsequence holding exactly the albums whose genre name equals the selected name; never an album without a genre. |
| GenrePage.Mount | frontend/src/components/GenrePage.js:71-100 | With an empty or missing genre name nothing is fetched and loading never ends. Otherwise loading ends with the genre's albums of a successful fetch, or none. |
| GenrePage.Subtitle | frontend/src/components/GenrePage.js:125 | Ends in " albums", and its leading digits read back as the number of albums. |
| GenrePage.NoticeIffGenreEmpty | frontend/src/components/GenrePage.js:133-134 | After a fetch, the empty notice shows exactly when no album has the genre. |
| AlbumDetail.JsRem60 | frontend/src/components/AlbumDetail.js:50 | For non-negative input it is Dafny's remainder; for negative input it is non-positive and differs from the input by a multiple of 60. |
| AlbumDetail.FormatDuration | frontend/src/components/AlbumDetail.js:48-52 | The minutes text, then a colon, then at least two characters of seconds; FormatDurationRoundTrip reads it back. |
| AlbumDetail.PaddedSeconds | frontend/src/components/AlbumDetail.js:51 | A remainder below 60 prints as exactly two digits that read back as it. |
| AlbumDetail.FormatDurationRoundTrip | frontend/src/components/AlbumDetail.js:48-52 | For s ≥ 0 the output is minutes, ":" and a two-digit seconds field below 60, and `60 * minutes + seconds == s`. |
| AlbumDetail.TrackRows | frontend/src/components/AlbumDetail.js:155-161 | One row per track, in order: row i is numbered i + 1 and shows the track's title and formatted duration. |
| AlbumDetail.AddToCart | frontend/src/components/AlbumDetail.js:54-64 | Nothing is sent when logged out or before the album loaded; otherwise an add of one copy of that album. |
| AlbumDetail.AddToCartAddsOne | frontend/src/components/AlbumDetail.js:63 | Against an existing cart, that request raises the album by exactly one and leaves other albums alone. |
| OrderHistory.ItemCount | frontend/src/components/OrderHistory.js:52-54 | For positive quantities, at least the number of items. |
| OrderHistory.ItemCountMatchesLines | frontend/src/components/OrderHistory.js:52-54 | Items whose quantities match the lines count exactly the lines' total. |
| OrderHistory.ItemCountOfOrder | frontend/src/components/OrderHistory.js:120 | A card's item count equals the total quantity the order was placed with. |
| OrderHistory.ShortId | frontend/src/components/OrderHistory.js:112 | The last `min(8, length)` characters of the id. |
| OrderHistory.ShortIdIdempotent | frontend/src/components/OrderHistory.js:112 | Shortening twice is shortening once. |
| OrderHistory.Subtitle | frontend/src/components/OrderHistory.js:81 | The count's digits and a space, then "order placed" for one order and "orders placed" for any other count, with the matching length. |
| OrderHistory.SubtitleCount | frontend/src/components/OrderHistory.js:81 | The leading digits of the subtitle read back as the number of orders. |
| OrderHistory.Show | frontend/src/components/OrderHistory.js:85-148 | The error panel shows exactly when loading is over and an error is set; order cards show only for a non-empty list. |
| OrderHistory.FetchAsWritten | frontend/src/components/OrderHistory.js:13-33 | Success stores the body's orders (or none) and 404 stores none, both keeping the previous error. Other failures set their message. Loading always ends. |
| OrderHistory.RetryKeepsStaleError | frontend/src/components/OrderHistory.js:93 | After a network error, a successful retry still shows the error panel. |
| OrderHistory.Fetch | frontend/src/components/OrderHistory.js:13-33 | As `FetchAsWritten`, except a reply clears any earlier error. |
| OrderHistory.FetchShowsReply | frontend/src/components/OrderHistory.js:20-31 | Every load or retry shows what its reply calls for; 404 is an empty history with no error. |
| OrderHistory.FirstLoadAgrees | frontend/src/components/OrderHistory.js:9-33 | On the first load the code as written behaves exactly as the corrected loader. |

## Left out

- Database and server plumbing (connection, generic CRUD wrappers, Express setup) is not modelled. The store is a pair of in-memory collections.
- Concurrency is not modelled: each handler is one atomic step. The source's load, mutate, save sequences and the separate order create and cart save in checkout can interleave under concurrent requests.
- History has no degradation for an album deleted from the catalog. The populated album is null and the route answers 500, as in the code; no skip or mark policy is modelled.
- Money totals are not modelled: floating-point price times quantity, and `toFixed`.
- CartRoutes.Add: an album id that is not a well-formed ObjectId makes the album lookup at backend/routes/cart.js:44 throw a cast error. Nothing catches it, so no reply is sent. The model answers such an id, like any id missing from the catalog, with "Album not found".
- CartRoutes.Remove: the same holds for the lookup at backend/routes/cart.js:72. A malformed id gets no reply, where the model answers "Album not found".
- JavaScript input coercion is not modelled: string quantities, fractional quantities, and ObjectId versus string comparison. Ids are strings and quantities integers.
- `toLowerCase` is modelled on ASCII letters only.
- AlbumList.Push: a genre named like a property every object inherits (`constructor`, `toString`, `__proto__`) makes `groups[genreName]` truthy without an array (frontend/src/components/AlbumList.js:104-107), so the `push` throws and the list does not render. The model groups such albums like any other genre.
- AlbumList.TitleLabel, AlbumList.ArtistLabel, OrderHistory.ShortId: JavaScript's `length` and `substring` count UTF-16 code units. The model counts characters, so the two differ for text outside the Basic Multilingual Plane.
- The groups are kept in first-appearance order. Object key order in JavaScript puts integer-like genre names first; this is not modelled.
- Rendering and browser effects are not modelled: JSX, hooks, `alert`, `setTimeout`, DOM feedback, and date formatting.
- Header.js, Login.js, Register.js and ArtistDetail.js are not part of this model, except the two header callbacks `Navigate` and `SetSearchTerm`.
- CardButton.PressAsWritten follows at most `fuel` attempts of the unbounded retry. A network failure, its alert and the button's visual feedback are not modelled.
- Login, session and logout routes, password hashing and user registration are not modelled: they are foreign library calls. Their answers enter the client model only as replies.
- Reading back AlbumDetail's album and tracks (`fetchAlbumDetails`), and the loading and error screens around them, are not modelled.
- AlbumDetail.FormatDuration: durations are whole seconds. `duration_seconds` is a `Number` (backend/database/models/Track.js:5), so a fractional duration prints a fractional seconds field such as "1:30.5"; the model's `Track` holds an integer and does not cover that.
- `formatDuration` with a negative duration is modelled (JavaScript's remainder keeps the sign) but has no lemma; durations are never negative.
- Lines.TotalQuantity, AlbumList.Filtered, GenrePage.GenreAlbums, OrderHistory.ItemCount: their own contracts only bound the result. What each computes is stated by the lemmas listed beside them.

## Findings

| source | as written | input that shows it | evidently intended | confidence | as-written member | corrected member |
|---|---|---|---|---|---|---|
| frontend/src/components/OrderHistory.js:13-33 | The loader never clears `error`, and the error panel is tested before the orders, so "Try Again" (line 93) can never leave the error panel. | A first load fails with a network error, then the retry answers 200 with one order: the page still shows "Network error". | A successful retry shows the orders, or the empty history on 404. | not executed | OrderHistory.RetryKeepsStaleError | OrderHistory.FetchShowsReply |
| frontend/src/components/AlbumList.js:45-52 | On every 404 (the genre page has the same code) the button posts a cart and presses again. The backend also answers 404 for an unknown album, so that press never ends. | The user has a cart and presses the button on a well-formed album id that is not in the album collection. | Create the cart and retry once; a second 404 is reported as a failure. | not executed | CardButton.UnknownAlbumRetriesForever | CardButton.PressAddsOne |
| frontend/src/components/Cart.js:175-197 | The "-", "+" and trash buttons pass `item.album._id`. The cart routes return each line's `album` as a bare id (backend/routes/cart.js:10-19, 53-63, 81-95), so that value is undefined and the request body has no `albumId`. The backend answers 400 (backend/routes/cart.js:41-42) and the page ignores it (Cart.js:81-84, 99-102). The lookup at Cart.js:59 matches the first line, but no request reaches a cart. | A cart with one line `(album-A, 2)`; pressing "+" sends an add without `albumId`, gets 400, and the cart stays at 2. | Each button sends the line's own album id, so the cart lands on the target quantity. | not executed | CartPage.ButtonsAsWrittenChangeNothing | CartPage.UpdateLandsOnTarget |
