# Drop-Shop marketplace core, modelled in Dafny

Drop-Shop is a browser-only marketplace. Buyers and sellers share one
`localStorage` as their database. A `BroadcastChannel` pushes catalog edits and
product-page messages to the other open tabs. This project models the state
kept by the client and the rules that change it:

- **Storage and bus** (`storage_service.dfy`): the persistent store is a map
  from keys to typed slots. A key is one of the seven fixed keys or a
  per-product message key, and `KeyNameInjective` proves that distinct keys
  have distinct key strings.
  The bus is an outbox of published events plus the single `onmessage` handler
  the channel holds.
- **Catalog and cart state** (`store_updates.dfy`, `store_context.dfy`):
  - the pure list updates (`map`/`filter`/prepend) and the cart rules;
  - the `StoreProvider` class with its mount effects, sync handler,
    cart-persistence effect and actions;
  - the loops that rebuild the cart from the stored quantity map and that
    rebuild the map from the cart.
- **Identity** (`auth_context.dfy`): session restore, the mocked login (the
  password is never checked), registration with defaults and the duplicate
  check, logout and profile merge. The `AuthProvider` class holds these.
- **Pages**: the search filter (`feed.dfy`), the page title and navigation
  highlight (`layout.dfy`), the login and registration form
  (`login.dfy`), the listing form (`product_form.dfy`), the product page with
  its public Q&A log and report form (`product_details.dfy`), and direct chats
  (`chat.dfy`).
- **Shared helpers** (`types.dfy`, `seqs.dfy`, `text.dfy`): the data types, and
  JavaScript's `find`/`filter`/`map`, `trim`, `toLowerCase`, `includes` and the
  decimal rendering of a clock value.

React state setters become field assignments in atomic methods. Each effect
becomes a method the caller runs at the point React would. The
cart-persistence effect runs after every cart change, so each cart action ends
by persisting. `Date.now()` is a parameter `now`, and ids are its decimal
rendering.

The code differs from the behaviour one might expect in a few places, and the
model follows the code:

- Deleting a product leaves the cart and the stored quantity map untouched.
  A dangling line only disappears on the next load. `LoadThenPersist` proves
  that the map stored then holds exactly the saved entries whose product still
  exists.
- The channel holds one handler. Opening a product page replaces the
  catalog's sync handler, and leaving it sets the handler to nothing, so
  catalog events are no longer applied in that tab. The contracts of
  `SubscribeToSync`, `DisposeSubscription`, `ProductDetailsView.Mount` and
  `Unmount` state this.
- `startMockChat` stores only the sessions currently listed plus the new one.
  Stored chats the user is not part of are overwritten
  (`MockChatKeepsOnlyVisible`).
- Login ignores the password. Registration checks duplicates on email or
  username, and stores the typed name, username and email without trimming
  them.

## Model

| member | source | states |
|---|---|---|
| Seqs.FirstIndex | context/StoreContext.tsx:36 | `find`: the first position satisfying the test; `None` exactly when none does |
| Seqs.Filter | context/StoreContext.tsx:55 | `filter`: an order-preserving subsequence holding every passing element as many times as the input does, and nothing else |
| Seqs.Map | context/StoreContext.tsx:52 | `map`: same length, each element transformed in place |
| Seqs.FilterKeepsAll | pages/Feed.tsx:14-20 | a test every element passes keeps the whole list |
| Seqs.FilterAgreeing | pages/Feed.tsx:14-20 | two tests agreeing on the list filter it alike |
| Seqs.FilterIdempotent | pages/Feed.tsx:14-20 | filtering twice by one test equals filtering once |
| Text.TrimStart | pages/Login.tsx:42 | removes exactly a leading run of whitespace |
| Text.TrimEnd | pages/Login.tsx:42 | removes exactly a trailing run of whitespace |
| Text.TrimStartIsSuffix | pages/Login.tsx:42 | trimming the start leaves a suffix of the text |
| Text.TrimEndIsPrefix | pages/Login.tsx:42 | trimming the end leaves a prefix of the text |
| Text.Trim | pages/Login.tsx:42 | `trim()`: both ends non-space; empty exactly when the input is all whitespace |
| Text.TrimIsInfix | pages/Login.tsx:42 | the trimmed text is the original's piece that starts after the leading whitespace, and only whitespace follows it |
| Text.Utf16Length | pages/Login.tsx:42-45 | JavaScript's `length`: the character count plus one for each character outside the Basic Multilingual Plane, so between one and two units per character |
| Text.LowerChar | pages/Feed.tsx:15 | an ASCII upper-case letter becomes its lower-case partner, every other character is unchanged |
| Text.ToLower | pages/Feed.tsx:15-19 | `toLowerCase()` character by character, length kept |
| Text.ToLowerIdempotent | pages/Feed.tsx:15-19 | lowering twice equals lowering once |
| Text.Contains | pages/Feed.tsx:16-19 | `includes`: true exactly when the fragment occurs at some position |
| Text.ContainsEmpty | pages/Feed.tsx:15-19 | every string includes the empty string |
| Text.NatToString | context/AuthContext.tsx:71 | `Date.now().toString()`: decimal digits that spell the number, with no leading zero |
| Text.NatToStringInjective | context/AuthContext.tsx:71 | distinct clock values give distinct ids |
| StorageService.NameCarriesSignature | services/storageService.ts:3-12 | characters 9 and 10 of every key string tell the kinds of key apart |
| StorageService.KeyNameInjective | services/storageService.ts:3-12 | two keys have the same key string exactly when they are the same key: fixed keys are distinct, no message log hits a fixed key, one log per product id |
| StorageService.Storage.constructor | services/storageService.ts:3-15 | an empty store and channel with no handler |
| StorageService.Storage.GetUsers | services/storageService.ts:29 | the stored users; an absent key reads as the empty list |
| StorageService.Storage.GetCurrentUser | services/storageService.ts:32-35 | the stored session user; an absent key reads as none |
| StorageService.Storage.GetProducts | services/storageService.ts:44 | the stored catalog; an absent key reads as the empty list |
| StorageService.Storage.GetChats | services/storageService.ts:51 | the stored chats; an absent key reads as the empty list |
| StorageService.Storage.GetReports | services/storageService.ts:54 | the stored reports; an absent key reads as the empty list |
| StorageService.Storage.GetCart | services/storageService.ts:57 | the stored quantity map; an absent key reads as the empty map |
| StorageService.Storage.GetHelpReports | services/storageService.ts:60 | the stored help reports; an absent key reads as the empty list |
| StorageService.Storage.GetProductMessages | services/storageService.ts:64-67 | the product's message log; an absent key reads as the empty list |
| StorageService.Storage.SaveUsers | services/storageService.ts:30 | overwrites only the users slot, which then reads back the saved list |
| StorageService.Storage.SaveCurrentUser | services/storageService.ts:36-42 | a user overwrites the session slot; none removes the key |
| StorageService.Storage.SaveProducts | services/storageService.ts:45-49 | overwrites only the catalog slot and publishes nothing |
| StorageService.Storage.SaveChats | services/storageService.ts:52 | overwrites only the chats slot |
| StorageService.Storage.SaveReports | services/storageService.ts:55 | overwrites only the reports slot |
| StorageService.Storage.SaveCart | services/storageService.ts:58 | overwrites only the cart slot |
| StorageService.Storage.SaveHelpReports | services/storageService.ts:61 | overwrites only the help-reports slot |
| StorageService.Storage.SaveProductMessage | services/storageService.ts:68-74 | appends to that product's log only, leaves other logs and the fixed slots alone, then publishes NEW_PRODUCT_MSG |
| StorageService.Storage.Broadcast | services/storageService.ts:17-19 | appends the event to the outbox; storage unchanged |
| StorageService.Storage.SubscribeToSync | services/storageService.ts:21-22 | the callback replaces whatever handler the channel held |
| StorageService.Storage.DisposeSubscription | services/storageService.ts:23-25 | the disposer clears the handler, whoever installed it |
| StoreUpdates.ProductById | pages/ProductDetails.tsx:15 | the first product with the id; none exactly when no product has it |
| StoreUpdates.ReplaceById | context/StoreContext.tsx:52 | every product with the id becomes the new one, others kept, ids kept position-wise |
| StoreUpdates.RemoveById | context/StoreContext.tsx:55 | drops exactly the products with the id; every other product stays as often as it occurred, order kept |
| StoreUpdates.ApplySyncEvent | context/StoreContext.tsx:47-57 | the handler's catalog update: NEW_PRODUCT prepends, UPDATE_PRODUCT replaces by id, DELETE_PRODUCT removes by id, message and report events leave the catalog alone |
| StoreUpdates.UpdateOfUnknownIdIsNoOp | context/StoreContext.tsx:51-53 | an update for an id not in the catalog changes nothing |
| StoreUpdates.AddThenDeleteRestores | context/StoreContext.tsx:47-56 | adding a product with a fresh id and deleting it restores the catalog |
| StoreUpdates.DeleteAbsorbsUpdate | context/StoreContext.tsx:51-56 | deleting after updating the same id equals deleting |
| StoreUpdates.UpdateIdempotent | context/StoreContext.tsx:51-53 | replaying an update changes nothing more |
| StoreUpdates.AddToCart | context/StoreContext.tsx:91-99 | an existing line gains the quantity in place; otherwise one line is appended; ids stay unique |
| StoreUpdates.AddTwiceSumsQuantities | context/StoreContext.tsx:91-99 | adding one product twice leaves one line whose quantity is the old one plus both amounts |
| StoreUpdates.RemoveFromCart | context/StoreContext.tsx:101-103 | the product has no line afterwards; every other line stays, in order |
| StoreUpdates.SetQuantity | context/StoreContext.tsx:110 | lines with the id get the new quantity, the rest unchanged, ids stay unique |
| StoreUpdates.UpdateCartQuantity | context/StoreContext.tsx:105-111 | a quantity of zero or less removes the line; otherwise it sets the quantity without adding a line |
| StoreUpdates.SubsequenceKeepsIdsUnique | context/StoreContext.tsx:101-103 | filtering a cart with unique ids keeps them unique |
| StoreUpdates.CartMap | context/StoreContext.tsx:65-66 | every line's id is a key, and the last line's quantity is stored under its id (a later line wins) |
| StoreUpdates.CartMapKeys | context/StoreContext.tsx:64-68 | the persisted map has exactly the cart's product ids as keys |
| StoreUpdates.CartMapOfUniqueCart | context/StoreContext.tsx:64-68 | for a cart with unique ids, the persisted map gives each line's quantity |
| StoreUpdates.LoadThenPersist | context/StoreContext.tsx:28-68 | the map persisted after a load holds exactly the saved entries whose product is still in the catalog |
| StoreContext.DeriveCart | context/StoreContext.tsx:32-39 | the loop yields one line per saved id found in the catalog, with the saved quantity, ids unique |
| StoreContext.BuildCartMap | context/StoreContext.tsx:65-66 | the loop builds the quantity map of the cart |
| StoreContext.StoreProvider.constructor | context/StoreContext.tsx:23-24 | catalog and cart start empty |
| StoreContext.StoreProvider.Mount | context/StoreContext.tsx:28-61 | the catalog is the stored one, the cart is derived from the saved map, the catalog handler is installed, and the saved map loses dangling entries |
| StoreContext.StoreProvider.PersistCart | context/StoreContext.tsx:63-68 | only the cart slot changes; its keys are the cart's ids and each maps to that line's quantity |
| StoreContext.StoreProvider.OnSyncEvent | context/StoreContext.tsx:43-61 | the catalog follows the event; nothing is stored or published |
| StoreContext.StoreProvider.AddProduct | context/StoreContext.tsx:70-75 | prepends, stores the new catalog, publishes NEW_PRODUCT; a tab applying that event reaches the same catalog |
| StoreContext.StoreProvider.UpdateProduct | context/StoreContext.tsx:77-82 | replaces by id, stores, publishes UPDATE_PRODUCT; applying the event gives the same catalog |
| StoreContext.StoreProvider.DeleteProduct | context/StoreContext.tsx:84-89 | removes by id, stores, publishes DELETE_PRODUCT; the cart is left alone |
| StoreContext.StoreProvider.AddToCart | context/StoreContext.tsx:91-99 | the cart follows the add rule with an amount that defaults to one, and is persisted |
| StoreContext.StoreProvider.RemoveFromCart | context/StoreContext.tsx:101-103 | the line goes and the cart is persisted |
| StoreContext.StoreProvider.UpdateCartQuantity | context/StoreContext.tsx:105-111 | remove at zero or less, else set; the cart is persisted |
| StoreContext.StoreProvider.ClearCart | context/StoreContext.tsx:113-115 | the cart is empty and the empty map is stored |
| StoreContext.StoreProvider.ReportProduct | context/StoreContext.tsx:117-131 | without a user nothing happens; otherwise one report is appended and NEW_REPORT published |
| StoreContext.StoreProvider.SubmitHelpReport | context/StoreContext.tsx:133-144 | one help report is appended; nothing is published |
| AuthContext.Merge | context/AuthContext.tsx:104 | an empty patch leaves the user unchanged |
| AuthContext.MergeIdempotent | context/AuthContext.tsx:104 | applying the same patch twice equals applying it once |
| AuthContext.Defaults | context/AuthContext.tsx:70-82 | a clock id and creation time, a non-empty name and username (the supplied ones unless absent or empty), online and not blocked |
| AuthContext.NewUser | context/AuthContext.tsx:70-84 | each field is the supplied value or its default (clock id, "User", online, not blocked, empty bio/address/phone) |
| AuthContext.IdentityTaken | context/AuthContext.tsx:65 | registration is refused exactly when a stored user has the email or the username |
| AuthContext.LoginMatch | context/AuthContext.tsx:47 | the first non-blocked user whose email or username is the identifier; none exactly when no one qualifies |
| AuthContext.RestoredUser | context/AuthContext.tsx:23-31 | the session survives only if the first record with its id exists and is not blocked, and then that fresh record is used |
| AuthContext.ProfileWrite | context/AuthContext.tsx:108-113 | the first stored user with the id is replaced; with none, nothing is written |
| AuthContext.AuthProvider.constructor | context/AuthContext.tsx:17 | no current user |
| AuthContext.AuthProvider.CheckSession | context/AuthContext.tsx:20-40 | a restorable session sets the user; an unrestorable one is removed from storage |
| AuthContext.AuthProvider.Login | context/AuthContext.tsx:42-58 | succeeds exactly when some user may sign in; that user, online, becomes current and the session; failure changes nothing |
| AuthContext.AuthProvider.Register | context/AuthContext.tsx:60-92 | a duplicate fails with its message and changes nothing; otherwise exactly one user is appended and becomes current and the session |
| AuthContext.AuthProvider.Logout | context/AuthContext.tsx:94-100 | no current user and no session key |
| AuthContext.AuthProvider.UpdateProfile | context/AuthContext.tsx:102-114 | without a user nothing; otherwise the merged user is current and the session, and the stored record is replaced if present |
| ChatPage.VisibleSessions | pages/Chat.tsx:17 | exactly the chats the user takes part in, each as often as stored, order kept |
| ChatPage.WithMessage | pages/Chat.tsx:32-36 | the session gains the message at the end, id and participants kept |
| ChatPage.ReplaceChat | pages/Chat.tsx:39 | chats with the id become the updated one, count and order kept |
| ChatPage.MockChat | pages/Chat.tsx:50-55 | the user and the mock seller, one greeting, visible to the user |
| ChatPage.MockChatKeepsOnlyVisible | pages/Chat.tsx:56-57 | what is stored drops every chat the user is not part of, and is all visible to the user |
| ChatPage.ChatView.constructor | pages/Chat.tsx:9-11 | no sessions, none open, empty input |
| ChatPage.ChatView.LoadSessions | pages/Chat.tsx:13-20 | with a user, the list is that user's stored chats |
| ChatPage.ChatView.SetActiveSession | pages/Chat.tsx:10 | the open session is the chosen one |
| ChatPage.ChatView.SetMsgText | pages/Chat.tsx:11 | the input holds the typed text |
| ChatPage.ChatView.SendMessage | pages/Chat.tsx:22-45 | blank text, no session or no user changes nothing; otherwise the message by the user is stored in its chat, the list refreshed and the input cleared |
| ChatPage.ChatView.StartMockChat | pages/Chat.tsx:48-58 | with a user, the listed sessions plus the mock chat are stored and listed |
| FeedPage.Matches | pages/Feed.tsx:15-19 | the search test on name, description, category and shop name; the empty term matches every product |
| FeedPage.FilteredProducts | pages/Feed.tsx:14-20 | exactly the products matching the term in name, description, category or shop name, each as often as listed, order kept |
| FeedPage.EmptySearchKeepsAll | pages/Feed.tsx:14-20 | an empty search lists the whole catalog |
| FeedPage.SearchIdempotent | pages/Feed.tsx:14-20 | searching the results again changes nothing |
| FeedPage.SearchIgnoresTermCase | pages/Feed.tsx:15 | lower-casing the term first gives the same results |
| LayoutView.PageTitle | components/Layout.tsx:35-42 | the first listed fragment the path includes decides the title |
| LayoutView.ProductPathMentioningCart | components/Layout.tsx:36-40 | every product path whose id includes "/cart" or starts with "cart" is titled as the cart |
| LayoutView.FeedHighlightsHome | components/Layout.tsx:17 | on the feed the home item is highlighted, the header reads "Drop Shop" and no back button shows |
| LayoutView.TitledPagesShowBack | components/Layout.tsx:75 | every page with a title of its own shows the back button and leaves the home item unhighlighted |
| LoginPage.ValidateRegistration | pages/Login.tsx:42-45 | the first failing check gives its message, lengths counted in UTF-16 code units; none exactly when all four pass |
| LoginPage.RegistrationPatch | pages/Login.tsx:47-52 | only name, username, email and role are passed, as typed; every other field is absent |
| LoginPage.RegisteredFromForm | pages/Login.tsx:47-52 | the registered user has the typed fields and role, a clock id, is online and not blocked |
| LoginPage.RegisterErrorMessage | pages/Login.tsx:57 | the non-empty message returned, else "Erro ao registrar."; never empty |
| LoginPage.LoginView.constructor | pages/Login.tsx:14-23 | an empty buyer form and no error |
| LoginPage.LoginView.SetForm | pages/Login.tsx:14-20 | the form holds the typed values |
| LoginPage.LoginView.HandleLogin | pages/Login.tsx:27-35 | succeeds exactly when the email field identifies a user who may sign in, who then is current and the session, online; else the single failure message and nothing changes |
| LoginPage.LoginView.HandleRegister | pages/Login.tsx:37-59 | a failed check shows its message and touches nothing; a duplicate shows its message and touches nothing; otherwise only the users and session slots change, the new user added to the list and current |
| LoginPage.LoginView.SubmitRegistration | pages/Login.tsx:47-58 | a duplicate identity shows its message and changes nothing; otherwise only the users and session slots change, one user appended and current |
| ProductDetailsPage.BuildMessage | pages/ProductDetails.tsx:50-59 | the message is for this product by this user, flagged as the seller's exactly when the user is the seller |
| ProductDetailsPage.SentMessageReachesOnlyItsProduct | pages/ProductDetails.tsx:33 | a sent question is taken up by exactly the pages of its product |
| ProductDetailsPage.ProductDetailsView.constructor | pages/ProductDetails.tsx:17-23 | empty log and input, reason "Fraude", empty details |
| ProductDetailsPage.ProductDetailsView.Shown | pages/ProductDetails.tsx:15 | the first product with the route id, or none when no product has it |
| ProductDetailsPage.ProductDetailsView.Mount | pages/ProductDetails.tsx:28-41 | with a product shown, the log is the stored one and this page's handler replaces the channel's |
| ProductDetailsPage.ProductDetailsView.Unmount | pages/ProductDetails.tsx:40 | the channel is left without a handler |
| ProductDetailsPage.ProductDetailsView.OnSyncEvent | pages/ProductDetails.tsx:32-37 | only a new message for the page's own product is appended |
| ProductDetailsPage.ProductDetailsView.SetNewMessage | pages/ProductDetails.tsx:18 | the input holds the typed text |
| ProductDetailsPage.ProductDetailsView.HandleSendMessage | pages/ProductDetails.tsx:47-65 | blank text, no user or no product changes nothing; otherwise only this product's stored log changes, the question joins it and the local list, is published, and the input clears |
| ProductDetailsPage.ProductDetailsView.SetReportReason | pages/ProductDetails.tsx:134 | the reason holds the chosen option |
| ProductDetailsPage.ProductDetailsView.SetReportDetails | pages/ProductDetails.tsx:22 | the details hold the typed text |
| ProductDetailsPage.ProductDetailsView.HandleReport | pages/ProductDetails.tsx:67-78 | no product, empty details or no user changes nothing; otherwise only the reports slot changes, gaining the report with the chosen reason, and NEW_REPORT is published; the channel's handler is untouched |
| ProductFormPage.InitialForm | pages/ProductForm.tsx:15-28 | shop name from the user's name, every payment method on, condition new |
| ProductFormPage.ValidateListing | pages/ProductForm.tsx:42-53 | each message exactly when its check is the first to fail; none exactly when every field is valid and an image exists |
| ProductFormPage.PaymentMethods | pages/ProductForm.tsx:70 | exactly the enabled methods, in the order pix, credit, debit |
| ProductFormPage.BuildProduct | pages/ProductForm.tsx:57-73 | the listing is by the user, active, with a clock id and time, the uploaded images and the form's name, description, shop name, category, condition and payment methods |
| ProductFormPage.ProductFormView.constructor | pages/ProductForm.tsx:12-30 | the initial form, no images, no error |
| ProductFormPage.ProductFormView.SetForm | pages/ProductForm.tsx:15-28 | the form holds the typed values |
| ProductFormPage.ProductFormView.HandleImageUpload | pages/ProductForm.tsx:32-37 | a chosen file joins the end; never more than five images |
| ProductFormPage.ProductFormView.RemoveImage | pages/ProductForm.tsx:97 | exactly that image goes, the others stay in order, and the upload slot is shown again |
| ProductFormPage.ProductFormView.HandleSubmit | pages/ProductForm.tsx:39-77 | a failed check shows its message and adds nothing; no user adds nothing; otherwise the built product is prepended, only the catalog slot changes, and it is published; the channel's handler is untouched |

## Left out

- Delivery over the broadcast channel: events are recorded in an outbox. Another tab's handler is run by calling its `OnSyncEvent` with an event. The browser's asynchronous delivery, and the fact that a tab does not receive its own posts, are not modelled.
- JSON encoding and decoding of storage values: each key holds a typed slot, so malformed or foreign data under a key is not modelled.
- The `isLoading` flags, the artificial `setTimeout` delays of login and registration, the `scrollToBottom` timer and the timer that hides the report confirmation: each operation is one atomic step.
- `Date.now()`: each operation takes one `now`, used both for the id and for the timestamps, so two clock readings inside one call never differ.
- Floating-point prices, and `parseFloat`/`parseInt` of the form's price and stock strings: the parsed values are inputs, with `None` for NaN.
- `toLowerCase` beyond ASCII letters, and `trim` beyond the whitespace characters listed in `Text.IsSpace` (U+1680, U+2000 to U+200A, U+2028, U+2029, U+202F, U+205F and U+3000 are left out): Unicode case mapping and the other Unicode space separators are not modelled.
- `AuthContext.NewUser`: the avatar URL is built from the raw name, without `encodeURIComponent`.
- `StoreContext.DeriveCart`: the order of `Object.entries` is unspecified in the model (the loop picks any pending key). The contract therefore states which lines exist and their quantities, not their order.
- `Partial<User>` fields present but explicitly `undefined` are treated as absent.
- Navigation, rendering, `alert`, the image viewer, the report form toggle and the `URL.createObjectURL` call: the upload takes the resulting address as input.
- The pages outside this core (cart, help, profile, landing, terms, privacy) and the router are not part of this model. They are reached only through the provider methods modelled here.
- `AuthContext.Merge`: its contract states only that an empty patch is neutral; the field-by-field override is its definition, and `MergeIdempotent` is the property proved about it.
