# Marsen marketplace — verified model of the client-side state logic

Marsen is a React marketplace where customers find vendors and their
products, keep favourites and chat with vendors. Vendors manage a product
catalogue on a free or premium plan. Every screen works the same way: it
calls the hosted backend, then updates its local state according to the
answer. This project models that local state logic in Dafny and proves
what each handler promises.

Each component is a class whose fields are the component's state slots,
and each handler is a method on it. A backend answer — success with the
returned rows or id, or an error — is a parameter of the method
(`Backend.Reply`, `Backend.Outcome`). The list and text computations the
handlers use are pure functions, with lemmas about them. Every handler and
every realtime event is one atomic transition.

Files, one module each:

- `backend.dfy`: ids, `Option`, backend answers.
- `seqs.dfy`: keyed `filter`, keyed `map` replace, `filter` by position, `[...new Set]`.
- `text.dfy`: JavaScript `trim`, truthiness, `|| null`, `localeCompare`/`sort` order, `replace(/\D/g, '')`, `includes`, `startsWith`.
- `conversations.dfy`: the conversation rows and participant/profile handling shared by the chat page and the client dashboard.
- `chat_page.dfy`: the chat view controller.
- `vendor_dashboard.dfy`: the vendor's product manager.
- `catalog.dfy`: the product cards of the search and favourites pages.
- `favorites.dfy`: the optimistic favourite toggle of the search and vendor pages.
- `search_page.dfy`, `vendor_page.dfy`, `favorites_page.dfy`, `product_page.dfy`: the corresponding pages.
- `client_dashboard.dfy`: the customer's dashboard.
- `app.dfy`: the auth modal and its pending continuation.
- `auth_context.dfy`: the auth context.

JavaScript semantics are written out where they matter:

- `trim` strips the ECMAScript white-space and line-terminator set.
- A string is truthy when it is present and non-empty.
- `x === y` on two `undefined` values holds.
- `new Map(rows)` keeps the last row for a key.
- `sort()` and `localeCompare` compare by code point (the compared values are UUIDs and `HH:MM` times).

## Model

| member | source | states |
|---|---|---|
| Text.TrimEmptyIffBlank | src/pages/ChatPage.jsx:225 | the trimmed text is empty exactly when the text is all white space, so the send guard refuses exactly the blank texts |
| Text.OrNull | src/pages/ChatPage.jsx:252 | `content \|\| null` is null exactly for the empty string and otherwise the string itself |
| Text.LexLessTotal | src/pages/ChatPage.jsx:94 | code-point order compares any two distinct strings one way or the other |
| Text.LexLessAsymmetric | src/pages/ChatPage.jsx:94 | code-point order never holds both ways |
| Text.LexLessTransitive | src/pages/ChatPage.jsx:94 | code-point order is transitive, so the comparator sorts consistently |
| Text.LexLessIrreflexive | src/pages/ChatPage.jsx:94 | no string precedes itself |
| Text.DigitsOnly | src/pages/VendorPage.jsx:83 | the stripped number holds only digits and every digit of the phone |
| Text.DigitsOnlyAppend | src/pages/VendorPage.jsx:83 | stripping distributes over concatenation: digits keep their order and nothing is added |
| Text.DigitsOnlyOfDigits | src/pages/VendorPage.jsx:83 | a number already made of digits is kept as it is |
| Text.DigitsOnlyOfSeparators | src/pages/VendorPage.jsx:83 | a string without digits strips to nothing |
| Text.ContainsIffOccurs | src/contexts/SupabaseAuthContext.jsx:63 | `message.includes(t)` holds exactly when `t` occurs at some position of the message |
| Text.TrimStart | src/pages/ChatPage.jsx:228 | the result is the text minus a leading all-white-space prefix, and it starts with a non-space |
| Text.TrimEnd | src/pages/ChatPage.jsx:228 | the result is the text minus a trailing all-white-space suffix, and it ends with a non-space |
| Seqs.Without | src/pages/ChatPage.jsx:212 | `filter(x => key(x) !== k)` keeps exactly the elements whose key differs from `k` |
| Seqs.WithoutAppend | src/pages/ChatPage.jsx:212 | filtering distributes over concatenation, so the kept elements keep their relative order |
| Seqs.WithoutAbsent | src/pages/ChatPage.jsx:212 | filtering out a key no element has changes nothing |
| Seqs.WithoutDistinct | src/pages/ChatPage.jsx:59 | filtering a duplicate-free list leaves it duplicate-free |
| Seqs.Replace | src/pages/ChatPage.jsx:209 | the keyed `map` keeps the length and swaps in the new row exactly at the positions with the key |
| Seqs.RemoveAt | src/pages/VendorDashboard.jsx:230 | `filter((_, i) => i !== index)` removes only position `index`, and nothing when it is out of range |
| Seqs.Dedupe | src/pages/ChatPage.jsx:58 | `[...new Set(xs)]` has the same members as `xs` and no duplicates |
| Seqs.DedupeDistinct | src/pages/ChatPage.jsx:58 | deduplicating a duplicate-free list gives it back unchanged |
| Conversations.AllParticipants | src/pages/ChatPage.jsx:58 | `flatMap` of the participant lists holds exactly the ids that take part in some conversation |
| Conversations.OtherParticipantIds | src/pages/ChatPage.jsx:58-59 | the other-participant ids are duplicate-free and are exactly the participants other than the user |
| Conversations.FirstOther | src/pages/ChatPage.jsx:75 | `find(pId => pId !== user)` is the first participant other than the user, and none when all are the user |
| Conversations.LookupProfile | src/pages/ChatPage.jsx:72-76 | the profile found has the looked-up id, the last row with that id wins, and an undefined id finds nothing |
| Conversations.DisplayName | src/pages/ChatPage.jsx:86 | the name is the profile's name when it is truthy, and 'Utilisateur' when there is no profile or no name; never empty |
| Conversations.AvatarUrl | src/pages/ChatPage.jsx:87 | the avatar is the profile's truthy picture URL, else the pravatar URL of the other participant's id, or of the text 'undefined' when there is none; never empty |
| Conversations.Timestamp | src/pages/ChatPage.jsx:89 | a conversation with messages shows the time of its first (latest) message, one without shows the empty timestamp |
| ChatPage.Preview | src/pages/ChatPage.jsx:77-81 | the preview is 'Aucun message' without a message, 'Photo' when the message has an image even with text, and its content otherwise |
| ChatPage.SummarizeAll | src/pages/ChatPage.jsx:74-90 | one summary per conversation row, in row order |
| ChatPage.InOrderTotal | src/pages/ChatPage.jsx:91-95 | the comparator orders any two summaries one way or the other |
| ChatPage.InOrderTransitive | src/pages/ChatPage.jsx:91-95 | the comparator is transitive |
| ChatPage.InsertByRecency | src/pages/ChatPage.jsx:91-95 | inserting into a sorted list keeps it sorted and adds exactly the one entry |
| ChatPage.SortByRecency | src/pages/ChatPage.jsx:91-95 | the sort yields a permutation of its input that is sorted under the comparator |
| ChatPage.BuildSummaries | src/pages/ChatPage.jsx:74-97 | the stored list is a permutation of the summaries, with the empty timestamps after all the others and the others in descending string order |
| ChatPage.InsertAppends | src/pages/ChatPage.jsx:205-206 | an INSERT for the open conversation appends its row as the last message and leaves the earlier ones unchanged |
| ChatPage.UpdateReplacesInPlace | src/pages/ChatPage.jsx:208-209 | an UPDATE for the open conversation keeps length and order, replaces every message with the id, and changes nothing when no id matches |
| ChatPage.DeleteRemovesId | src/pages/ChatPage.jsx:211-212 | a DELETE for the open conversation keeps exactly the messages with another id |
| ChatPage.DeleteRemovesOne | src/pages/ChatPage.jsx:211-212 | with unique ids, a DELETE removes exactly the one message and keeps the rest in their relative order |
| ChatPage.OtherConversationIgnored | src/pages/ChatPage.jsx:204-213 | an event for another conversation, or any tagged event while none is open, leaves the messages unchanged |
| ChatPage.UntaggedDeleteMatchesNoSelection | src/pages/ChatPage.jsx:211 | a DELETE whose old row lacks `conversation_id` matches when no conversation is open, since `undefined === undefined` |
| ChatPage.FindById | src/pages/ChatPage.jsx:119 | `find(c => c.id === id)` returns a member with that id, and none exactly when no member has it |
| ChatPage.PrependIfAbsent | src/pages/ChatPage.jsx:155-158 | the direct-navigation update leaves a list that already has the id unchanged, and otherwise puts the entry first over the old list |
| ChatPage.PrependIfAbsentIdempotent | src/pages/ChatPage.jsx:155-158 | loading the same conversation twice adds it once |
| ChatPage.PrependIfAbsentKeepsIdsDistinct | src/pages/ChatPage.jsx:155-158 | a list with distinct ids keeps distinct ids |
| ChatPage.DirectSummary | src/pages/ChatPage.jsx:136-153 | a directly loaded conversation is shown with 'Nouvelle conversation' exactly when it has another participant and a profile came back |
| ChatPage.ChatView.constructor | src/pages/ChatPage.jsx:29-40 | the initial state slots |
| ChatPage.ChatView.FetchConversations | src/pages/ChatPage.jsx:45-105 | the list is rebuilt from the rows and profiles, emptied when nobody else takes part, and kept on any error; loading ends false |
| ChatPage.ChatView.OnChange | src/pages/ChatPage.jsx:201-221 | a feed event applies its list update to the open conversation only, and every event refreshes the conversation list |
| ChatPage.ChatView.SelectConversation | src/pages/ChatPage.jsx:357 | a click selects the conversation |
| ChatPage.ChatView.FetchMessages | src/pages/ChatPage.jsx:175-199 | the selected conversation's messages replace the list on success and are kept on error |
| ChatPage.ChatView.DirectLoad | src/pages/ChatPage.jsx:112-173 | direct navigation selects a listed conversation, or fetches, prepends if absent and selects one, and is a no-op while loading, without a target or user, or when already selected |
| ChatPage.ChatView.TypeMessage | src/pages/ChatPage.jsx:519 | typing sets the compose text |
| ChatPage.ChatView.HandleImageSelect | src/pages/ChatPage.jsx:300-312 | a file is staged exactly when its type starts with 'image/'; anything else is refused |
| ChatPage.ChatView.OnPreviewLoaded | src/pages/ChatPage.jsx:305-307 | the read data URL becomes the preview |
| ChatPage.ChatView.ClearStagedImage | src/pages/ChatPage.jsx:491 | removing the staged image clears file and preview |
| ChatPage.ChatView.HandleSendMessage | src/pages/ChatPage.jsx:223-268 | send is a no-op for blank text without image or without selection or user; the row has trimmed text or null and the uploaded URL or null; buffers clear only on success |
| ChatPage.ChatView.StartEdit | src/pages/ChatPage.jsx:469-470 | the edit buffer takes the message and its text |
| ChatPage.ChatView.TypeEdit | src/pages/ChatPage.jsx:445 | typing sets the edit text |
| ChatPage.ChatView.CancelEdit | src/pages/ChatPage.jsx:450 | cancelling clears the edit target only |
| ChatPage.ChatView.HandleEditMessage | src/pages/ChatPage.jsx:270-284 | edit is refused without a target or with blank text, sends the untrimmed text, and clears the edit state only on success |
| ChatPage.ChatView.StageDelete | src/pages/ChatPage.jsx:474 | the message is staged for confirmation |
| ChatPage.ChatView.DismissDelete | src/pages/ChatPage.jsx:549 | closing the dialog unstages the message |
| ChatPage.ChatView.HandleDeleteMessage | src/pages/ChatPage.jsx:286-298 | the staged message's id is deleted, and the stage is cleared whether or not the delete succeeded |
| VendorDashboard.Payload | src/pages/VendorDashboard.jsx:143-147 | the saved image list is the existing URLs followed by the uploaded ones, with the vendor's id and the form's fields |
| VendorDashboard.PublicUrls | src/pages/VendorDashboard.jsx:101-105 | one public URL per upload, in order |
| VendorDashboard.CollectUrls | src/pages/VendorDashboard.jsx:87-114 | the upload loop returns every URL in order when all uploads succeeded, and `[]` when any failed |
| VendorDashboard.UploadFailureIsEmpty | src/pages/VendorDashboard.jsx:138-141 | with files staged, an empty result means exactly that some upload failed |
| VendorDashboard.DashboardView.constructor | src/pages/VendorDashboard.jsx:23-25 | the initial form and staged files |
| VendorDashboard.DashboardView.ResetForm | src/pages/VendorDashboard.jsx:116-121 | the form is back to its initial state, no file is staged, no product is edited, and the form is hidden |
| VendorDashboard.DashboardView.EditProduct | src/pages/VendorDashboard.jsx:170-175 | the product is loaded into the form over the initial state, with no staged files and the form shown |
| VendorDashboard.DashboardView.HandleFileSelect | src/pages/VendorDashboard.jsx:221-228 | files are refused when existing + staged + new would exceed 5, and otherwise appended after the staged ones |
| VendorDashboard.DashboardView.RemoveNewImage | src/pages/VendorDashboard.jsx:230 | only the staged file at the index is removed |
| VendorDashboard.DashboardView.RemoveExistingImage | src/pages/VendorDashboard.jsx:231 | every occurrence of the URL, and nothing else, leaves the stored image list |
| VendorDashboard.DashboardView.HandleImageUpload | src/pages/VendorDashboard.jsx:87-114 | the result is all-or-nothing, and the uploading flag ends false |
| VendorDashboard.DashboardView.HandleFormSubmit | src/pages/VendorDashboard.jsx:123-168 | no profile sends to the profile tab; a new product over the free limit of 5 goes to the subscription tab before any upload; a failed upload saves nothing; on success an edit replaces the matching product and an add prepends, and the form resets; `uploading` ends false once an upload was attempted and is untouched otherwise |
| VendorDashboard.DashboardView.HandleDeleteProduct | src/pages/VendorDashboard.jsx:177-185 | on success the products with that id are removed; on error the list is unchanged |
| Catalog.FirstImage | src/pages/SearchPage.jsx:70 | the card image is the first stored image when there is one, else null |
| Catalog.SearchCards | src/pages/SearchPage.jsx:65-76 | no list at all exactly when some row has a null vendor (the `map` throws); otherwise one card per row in order, with the row's id, first image, vendor fields and category |
| Catalog.FavoriteCards | src/pages/FavoritesPage.jsx:57-67 | no list at all exactly when some row has a null vendor (the `map` throws); otherwise one card per row in order, with the row's id, first image and vendor fields |
| Catalog.CardsAgreeUpToCategory | src/pages/FavoritesPage.jsx:57-67 | both pages fail on the same rows and otherwise build the same card for a row, except for the category |
| Favorites.Drop | src/pages/SearchPage.jsx:142 | the filtered list holds exactly the other ids |
| Favorites.SettledMembership | src/pages/SearchPage.jsx:139-166 | a toggle flips the product's membership on success, keeps it on failure, and no other id enters or leaves |
| Favorites.FailedAddRestores | src/pages/SearchPage.jsx:154-162 | a failed add gives back exactly the list it started from |
| Favorites.FailedRemoveAppends | src/pages/SearchPage.jsx:141-150 | for any list holding the id, a failed removal gives the other ids in order followed by the id, with the same members as before |
| Favorites.FailedRemoveMayReorder | src/pages/SearchPage.jsx:141-150 | a failed removal re-appends the id at the end, so the order can change |
| Favorites.SettledDistinct | src/pages/SearchPage.jsx:139-166 | a duplicate-free id list stays duplicate-free through a toggle |
| SearchPage.Get | src/pages/SearchPage.jsx:11-12 | `searchParams.get` returns a value stored under the key, and none when no parameter has it |
| SearchPage.ParamsFor | src/pages/SearchPage.jsx:169-174 | the URL has `q` exactly for a non-empty query and `category` exactly for a non-empty category, with those values |
| SearchPage.ParamsRoundTrip | src/pages/SearchPage.jsx:169-174 | reading back the written URL gives the query and category it was written from |
| SearchPage.GetSkips | src/pages/SearchPage.jsx:11-12 | `get` finds the first parameter with the key |
| SearchPage.FiltersFor | src/pages/SearchPage.jsx:51-57 | the name filter `%q%` is added exactly for a non-empty query, and the category filter exactly for a non-empty category |
| SearchPage.SearchView.constructor | src/pages/SearchPage.jsx:10-15 | the query and category start from the URL, or empty |
| SearchPage.SearchView.SyncParams | src/pages/SearchPage.jsx:169-174 | the URL is rewritten from the query and category, and reads them back |
| SearchPage.SearchView.FetchProducts | src/pages/SearchPage.jsx:32-89 | the query carries the filters; the cards are replaced on success and kept on an error answer or a row with a null vendor; loading ends false |
| SearchPage.SearchView.FetchUserFavorites | src/pages/SearchPage.jsx:92-110 | no user clears the favourites; success replaces them with the ids; an error keeps them |
| SearchPage.SearchView.ToggleFavorite | src/pages/SearchPage.jsx:133-167 | without a user only the auth modal opens; otherwise the list is the settled optimistic toggle, and membership flips exactly on success |
| VendorPage.ContactLink | src/pages/VendorPage.jsx:75-85 | no phone opens nothing; a call dials the phone; WhatsApp opens the number with every non-digit removed |
| VendorPage.WhatsAppIgnoresSeparators | src/pages/VendorPage.jsx:83 | the same number written with separators gives the same WhatsApp link |
| VendorPage.VendorView.constructor | src/pages/VendorPage.jsx:14-17 | the initial state slots |
| VendorPage.VendorView.FetchVendorData | src/pages/VendorPage.jsx:19-48 | a failed vendor lookup goes home without fetching products; otherwise the vendor is set and the products replaced on success; loading ends false |
| VendorPage.VendorView.FetchUserFavorites | src/pages/VendorPage.jsx:50-67 | no user clears the favourites; success replaces them; an error keeps them |
| VendorPage.VendorView.ToggleFavorite | src/pages/VendorPage.jsx:87-121 | without a user only the auth modal opens; otherwise the optimistic toggle with per-item revert, and membership flips exactly on success |
| FavoritesPage.FavoritesView.constructor | src/pages/FavoritesPage.jsx:10-11 | the initial state slots |
| FavoritesPage.FavoritesView.FetchFavorites | src/pages/FavoritesPage.jsx:16-80 | no user only clears loading; zero favourites empty the list without a product query; the cards replace the list on success, and an error answer or a product row with a null vendor keeps it |
| FavoritesPage.FavoritesView.RemoveFavorite | src/pages/FavoritesPage.jsx:98-122 | no user does nothing; success leaves the list without that product; an error restores the exact previous list |
| FavoritesPage.FavoritesView.ClearAllFavorites | src/pages/FavoritesPage.jsx:124-148 | no user does nothing; success empties the list; an error restores the exact snapshot |
| ProductPage.SortedPair | src/pages/ProductPage.jsx:126 | the participant list holds the two ids in code-point order |
| ProductPage.SortedPairSymmetric | src/pages/ProductPage.jsx:126 | both orders of the same two users give the same participant list |
| ProductPage.StartChat | src/pages/ProductPage.jsx:116-157 | not signed in asks for login; no vendor account does nothing; a lookup error other than PGRST116 aborts; a found conversation is reused; otherwise the created one opens |
| ProductPage.Checked | src/pages/ProductPage.jsx:56-72 | checkFavorite yields a consistent pair that is a favourite exactly when the lookup found a row |
| ProductPage.Toggled | src/pages/ProductPage.jsx:80-101 | delete success gives (false, null), insert success gives (true, id), a failure keeps the pair, and consistency is preserved |
| ProductPage.ToggleTwice | src/pages/ProductPage.jsx:80-101 | two successful toggles return to the starting favourite state |
| ProductPage.ContactFor | src/pages/ProductPage.jsx:103-114 | without product or vendor nothing happens; a call dials the stored phone (the text 'null' when there is none); WhatsApp opens the phone's digits, in order, and only digits |
| ProductPage.SameWhatsAppNumberAsVendorPage | src/pages/ProductPage.jsx:112 | for a vendor with a phone, the product page opens WhatsApp on the number the vendor page's link uses |
| ProductPage.ProductView.constructor | src/pages/ProductPage.jsx:14-19 | the initial state slots, with a consistent favourite pair |
| ProductPage.ProductView.LoadProduct | src/pages/ProductPage.jsx:21-54 | the product and image selection reset before the fetch; a missing product goes home; loading ends false |
| ProductPage.ProductView.CheckFavorite | src/pages/ProductPage.jsx:56-72 | without user or product nothing changes; otherwise the pair is the lookup's, and isFavorite ⇔ favoriteId ≠ null holds |
| ProductPage.ProductView.ToggleFavorite | src/pages/ProductPage.jsx:80-101 | without a user only the auth modal opens; otherwise the pair is updated after the store call only, keeping it consistent |
| ProductPage.ProductView.HandleStartChat | src/pages/ProductPage.jsx:116-157 | the outcome is StartChat's, over the sorted pair, with startingChat reset whenever it was set |
| ClientDashboard.LastMessage | src/pages/ClientDashboard.jsx:62 | the preview is the first message's text when non-empty, else 'Aucun message', with no 'Photo' case |
| ClientDashboard.PreviewAgreesWithChatPage | src/pages/ClientDashboard.jsx:62 | without an image the dashboard preview agrees with the chat page's |
| ClientDashboard.PhotoOnlyOnChatPage | src/pages/ClientDashboard.jsx:62 | with an image the chat page says 'Photo' and the dashboard shows the text |
| ClientDashboard.Summaries | src/pages/ClientDashboard.jsx:54-64 | one summary per row, in row order, with its id, preview and timestamp |
| ClientDashboard.SameCounterpartAsChatPage | src/pages/ClientDashboard.jsx:53-60 | each conversation's other participant gets the same name and avatar as on the chat page |
| ClientDashboard.ChosenAvatar | src/pages/ClientDashboard.jsx:110-129 | the avatar stays the current one unless a file was chosen, becomes the uploaded URL, and an upload error abandons the update |
| ClientDashboard.ClientView.constructor | src/pages/ClientDashboard.jsx:12-20 | the initial state slots |
| ClientDashboard.ClientView.FillProfileForm | src/pages/ClientDashboard.jsx:24-29 | the form takes the user's name and avatar, or '' |
| ClientDashboard.ClientView.FetchClientData | src/pages/ClientDashboard.jsx:31-84 | no user changes nothing; conversations are kept when nobody else takes part or the lookup fails; favourites are kept on error; loading ends false |
| ClientDashboard.ClientView.HandleAvatarChange | src/pages/ClientDashboard.jsx:94-104 | a picked file is staged, and no file changes nothing |
| ClientDashboard.ClientView.OnAvatarLoaded | src/pages/ClientDashboard.jsx:98-101 | the read data URL becomes the preview |
| ClientDashboard.ClientView.HandleProfileUpdate | src/pages/ClientDashboard.jsx:106-142 | the metadata sent carries the form name and the chosen avatar; an upload error sends nothing; the user is refreshed only on success |
| App.Step | src/App.jsx:29-79 | opening stores the callback and opens; dismissing closes and clears; sign-in runs the stored callback, if any, then closes and clears |
| App.RunsAtMostOnce | src/App.jsx:29-79 | over any event sequence, no more callbacks run than were stored |
| App.DismissNeverRuns | src/App.jsx:34-79 | without a successful sign-in no callback ever runs |
| App.OpenThenSignInRunsOnce | src/App.jsx:74-79 | a stored callback runs once on sign-in, and a second sign-in runs nothing |
| App.AppShell.constructor | src/App.jsx:25-26 | the modal starts closed with no callback |
| App.AppShell.OpenAuthModal | src/App.jsx:29-32 | openAuthModal is the open step, and a pending callback only exists while the modal is open |
| App.AppShell.CloseAuthModal | src/App.jsx:34-37 | closeAuthModal is the dismiss step |
| App.AppShell.OnSuccess | src/App.jsx:74-79 | onSuccess runs exactly the stored callback, then closes |
| AuthContext.VendorFlag | src/contexts/SupabaseAuthContext.jsx:20-24 | isVendor holds exactly when there is a user whose `is_vendor` is the boolean true; the text "true" does not count |
| AuthContext.SignUpNoticeFor | src/contexts/SupabaseAuthContext.jsx:62-81 | rate limit exactly when the message is non-empty and mentions it or the code is the rate-limit code; existing user when the message says 'already registered'; otherwise generic with the message or a default |
| AuthContext.RateLimitCodeAloneIsGeneric | src/contexts/SupabaseAuthContext.jsx:63 | the rate-limit code without a message is reported as a generic failure |
| AuthContext.RateLimitWins | src/contexts/SupabaseAuthContext.jsx:63-69 | a message mentioning both cases is reported as a rate limit |
| AuthContext.SignInNoticeFor | src/contexts/SupabaseAuthContext.jsx:93-107 | 'Email not confirmed' or the code email_not_confirmed gives the unconfirmed notice, anything else the generic one |
| AuthContext.UseAuth | src/contexts/SupabaseAuthContext.jsx:140-145 | the hook throws exactly outside the provider and otherwise returns the context |
| AuthContext.AuthProvider.constructor | src/contexts/SupabaseAuthContext.jsx:11-14 | the initial state: no user, no session, loading, not a vendor |
| AuthContext.AuthProvider.HandleSession | src/contexts/SupabaseAuthContext.jsx:16-26 | the session and its user (or null) are stored, isVendor is derived from the user, and loading ends false |
| AuthContext.AuthProvider.RefreshUser | src/contexts/SupabaseAuthContext.jsx:28-36 | the refreshed user is stored with the same isVendor derivation |
| AuthContext.AuthProvider.SignUp | src/contexts/SupabaseAuthContext.jsx:55-85 | the service's answer is returned unchanged, with the classified notice exactly on error |
| AuthContext.AuthProvider.SignIn | src/contexts/SupabaseAuthContext.jsx:87-110 | the service's answer is returned unchanged, with the classified notice exactly on error |
| AuthContext.AuthProvider.SignOut | src/contexts/SupabaseAuthContext.jsx:112-124 | the service's error is returned unchanged, with its message or a default shown on error |

## Left out

- Every backend call is a parameter of the handler that makes it: table queries, the profile RPC, storage upload and public URLs, the realtime channel, and `auth.*`. Which rows the server returns for a filter is therefore not modelled.
- Async interleaving and stale closures are left out. Each handler and each feed event is one atomic step, and the realtime effect's re-subscription on selection change is not modelled.
- Toasts, navigation, `window.open`, `navigator.share`, the clipboard, JSX rendering and animations are left out. A notice or a navigation only appears as a returned flag or outcome.
- The clock, `uuid`, `Math.random` (mock ratings, file names) and `FileReader` are left out. The current time and a read data URL are parameters.
- `toLocaleTimeString` is left out. Message times are given strings.
- ClientDashboard.Summaries: the `new Date(...)` sort of the client dashboard's conversations is not modelled (it compares locale time strings as dates, a float/NaN computation). The summaries stay in query order.
- ProductPage.ContactFor: the WhatsApp message text is left out, since it needs `encodeURIComponent` and `window.location.origin`. Only the number is modelled. A WhatsApp contact with a null phone throws in the source; the model returns no contact.
- ProductPage.ProductView.ToggleFavorite: the insert uses `product.id`. The button only exists once a product is loaded, and the model does not check that.
- AuthContext.VendorFlag: `user_metadata` is taken to be always present (the service always sends an object), so its optional chaining is not modelled.
- VendorDashboard's vendor profile fetch/creation, profile update, profile image change, share and subscription navigation are left out. They are backend plumbing without list logic.
- SearchPage's and FavoritesPage's `handleContact` are left out. They are the same dialling and digit stripping as VendorPage's, without the missing-phone guard.
- ProductPage's share handler and the image gallery's selection clicks are left out.
- Routing in `App` (the route table, the router, Stripe's provider) and the footer's hiding on the `/chat` path are left out.
- `localeCompare` is modelled as code-point order, not a locale collation. The compared values are `HH:MM` times and UUIDs, which both orders rank alike.
- The DELETE event's `old.conversation_id` is modelled as optional. When it is absent and no conversation is open, the event matches (`undefined === undefined`) as written; this is kept, not corrected.
