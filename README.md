# sellit: the marketplace front end's state, in Dafny

sellit is a student marketplace written in React. This project models its core:
- the browser-storage service that persists listings, chats, notifications, broadcasts, offers, transactions and saved ids;
- the dashboard's state and the handlers that replace it;
- the notifications screen;
- the negotiation dialog for one offer;
- the seller's profile, with its boost checkout.

Each part is taken in the form the code has:

- **Storage** (`storage.dfy`). The service's keys and local storage become a map from keys to typed entries, held in a class `StorageService` whose methods rewrite the map exactly as the service writes local storage. A missing or unparsable entry reads as an empty list (`None` for the user). Each in-place list operation (`updateListing`, `toggleSavedListing`, `addMessage`, `markAsRead`, `updateOfferStatus`) has a specification function with a lemma stating what it changes. `clearAll` is the loop over the keys.
- **Dashboard** (`dashboard.dfy`, `feed.dfy`, `seed.dfy`). Every handler computes a new array from the previous one; those computations are functions with lemmas. The class `Store` holds the `useState` fields, and its methods apply the handlers. The feed, the search suggestions and the recently-viewed strip are pure functions over the listings. Sorting is a stable insertion sort: `Array.prototype.sort` is stable, and every comparator is shown to be a strict weak order, so the result is determined.
- **Notifications** (`notifications.dfy`):
  - the All / Unread / Deals tabs are filters;
  - the Today / Yesterday / Earlier grouping is the source's loop;
  - a click becomes the pair of requests it makes to the dashboard.
- **Offer dialog** (`offers.dfy`). The class `OfferDialog` holds the price arithmetic and the dialog's state. Each `setTimeout` callback still to run is an element of a `pending` list, and a separate method for each kind of timer runs one of them, in whatever order the clock decides. A ghost invariant counts Accept clicks against `onAccept` calls.
- **Profile** (`profile.dfy`). The listing tabs, the received offers and the account-number sanitiser are filters. The boost checkout is a small state machine, both as values and as the class `BoostCheckout`.

`entities.dfy` holds the records. `text.dfy` holds the JavaScript string operations the code relies on: `includes`, `toLowerCase`, `trim`, `toString`, en-US `toLocaleString` for integers, and `localeCompare`. `seqs.dfy` holds generic sequence lemmas: filters, partitions and the stable sort.

## Model

| member | source | states |
|---|---|---|
| Storage.KeyPosition | services/storageService.ts:5-14 | every one of the eight keys occurs in the key list that `clearAll` walks |
| Storage.ClearedTableIsEmpty | services/storageService.ts:17-41 | with nothing stored, every getter returns an empty list, there is no user, and the next visit is a first visit |
| Storage.StorageService.constructor | services/storageService.ts:17-41 | the service reads whatever local storage already holds |
| Storage.StorageService.SaveUser | services/storageService.ts:44-46 | the user entry is replaced and nothing else changes |
| Storage.StorageService.Logout | services/storageService.ts:52-54 | only the user entry is removed |
| Storage.StorageService.SaveListings | services/storageService.ts:61-63 | the listings entry becomes the given list, and reading it back gives that list |
| Storage.StorageService.AddListing | services/storageService.ts:65-69 | the new listing is prepended to the stored listings |
| Storage.UpdateFirstListingSpec | services/storageService.ts:71-78 | no listing has the id exactly when nothing is written; otherwise only the first listing with the id is merged with the patch, and it keeps its id unless the patch carries one |
| Storage.UpdateRenames | services/storageService.ts:75 | a patch carrying only an id renames the listing and leaves its other fields alone |
| Storage.StorageService.UpdateListing | services/storageService.ts:71-78 | storage is unchanged when the id is missing; otherwise the listings entry is replaced by the merged list, for any patch, including one that changes the id |
| Storage.StorageService.DeleteListing | services/storageService.ts:80-83 | every listing with the id is removed and the others are kept in order |
| Storage.RemoveAtSpec | services/storageService.ts:95-97 | splicing one position out of a duplicate-free list removes exactly that id, keeps every other id and leaves no duplicate |
| Storage.ToggleFirstFlips | services/storageService.ts:90-99 | on a duplicate-free list, toggling flips whether the id is saved, keeps every other id, and keeps the list duplicate-free |
| Storage.ToggleFirstTwice | services/storageService.ts:90-99 | toggling twice gives back the same set of ids, and exactly the same list when the id was absent |
| Storage.StorageService.ToggleSavedListing | services/storageService.ts:90-99 | the saved ids entry becomes the toggled list, and on a duplicate-free list whether the id is saved flips |
| Storage.StorageService.SaveChats | services/storageService.ts:110-112 | the chats entry becomes the given list |
| Storage.AppendToFirstChatSpec | services/storageService.ts:114-129 | the first chat with the id gains exactly the new message at its end, and its preview text and time then agree with that message; all other chats and fields are untouched; a missing id writes nothing |
| Storage.StorageService.AddMessage | services/storageService.ts:114-129 | storage is unchanged when no chat has the id; otherwise the chats entry is replaced by the appended list |
| Storage.StorageService.AddChat | services/storageService.ts:131-135 | the chat is prepended to the stored chats |
| Storage.StorageService.SaveNotifications | services/storageService.ts:142-144 | the notifications entry becomes the given list |
| Storage.StorageService.AddNotification | services/storageService.ts:146-150 | the notification is prepended |
| Storage.MarkFirstReadSpec | services/storageService.ts:152-159 | only the first notification with the id is marked read; a missing id writes nothing |
| Storage.StorageService.MarkAsRead | services/storageService.ts:152-159 | storage is unchanged for a missing id; otherwise the notifications entry is the marked list |
| Entities.AllReadSpec | services/storageService.ts:161-165 | every notification is read afterwards, nothing else about it changes, and the unread count is 0 |
| Entities.AllReadIdempotent | services/storageService.ts:161-165 | marking everything read twice is the same as once |
| Storage.StorageService.MarkAllAsRead | services/storageService.ts:161-165 | the stored notifications are all marked read |
| Storage.StorageService.DeleteNotification | services/storageService.ts:167-170 | every notification with the id is removed |
| Storage.StorageService.ClearNotifications | services/storageService.ts:172-174 | the stored notification list becomes empty |
| Storage.StorageService.SaveBroadcasts | services/storageService.ts:181-183 | the broadcasts entry becomes the given list |
| Storage.StorageService.AddBroadcast | services/storageService.ts:185-189 | the broadcast is prepended |
| Storage.StorageService.SaveOffers | services/storageService.ts:196-198 | the offers entry becomes the given list |
| Storage.StorageService.AddOffer | services/storageService.ts:200-204 | the offer is prepended |
| Storage.SetFirstOfferStatusSpec | services/storageService.ts:206-213 | only the first offer with the id gets the new status; a missing id writes nothing |
| Storage.StorageService.UpdateOfferStatus | services/storageService.ts:206-213 | storage is unchanged for a missing id; otherwise the offers entry is the updated list |
| Storage.StorageService.SaveTransactions | services/storageService.ts:220-222 | the transactions entry becomes the given list |
| Storage.StorageService.AddTransaction | services/storageService.ts:224-228 | the transaction is prepended |
| Storage.StorageService.GetUser | services/storageService.ts:48-50 | the user is the stored user entry when there is one, and no user otherwise |
| Storage.StorageService.GetListings | services/storageService.ts:57-59 | the stored listings entry, or the empty list when there is none |
| Storage.StorageService.GetSavedListings | services/storageService.ts:86-88 | the stored saved-ids entry, or the empty list when there is none |
| Storage.StorageService.IsListingSaved | services/storageService.ts:101-103 | an id is saved exactly when the stored saved-ids entry lists it |
| Storage.StorageService.GetChats | services/storageService.ts:106-108 | the stored chats entry, or the empty list when there is none |
| Storage.StorageService.GetNotifications | services/storageService.ts:138-140 | the stored notifications entry, or the empty list when there is none |
| Storage.StorageService.GetBroadcasts | services/storageService.ts:177-179 | the stored broadcasts entry, or the empty list when there is none |
| Storage.StorageService.GetOffers | services/storageService.ts:192-194 | the stored offers entry, or the empty list when there is none |
| Storage.StorageService.GetTransactions | services/storageService.ts:215-217 | the stored transactions entry, or the empty list when there is none |
| Storage.StorageService.IsFirstTimeUser | services/storageService.ts:230-232 | a visit is a first visit exactly when the raw listings entry is missing or empty |
| Storage.StorageService.ClearAll | services/storageService.ts:236-238 | after removing every key, storage is empty, every getter returns an empty list, there is no user, and the next visit counts as a first visit |
| Entities.UserName | components/Dashboard.tsx:398 | the name used for the signed-in user is never empty, and it is the user's own name when they have one |
| Dashboard.SeededSpec | components/Dashboard.tsx:35-45 | a first visit writes and reads back the sample listings, notifications and support chat and leaves the other entries alone; a later visit changes nothing; after seeding it is no longer a first visit |
| Dashboard.InitialListings | components/Dashboard.tsx:35-43 | the listings initialiser seeds storage and returns the stored listings |
| Dashboard.Store.constructor | components/Dashboard.tsx:32-64 | every state field starts from storage (broadcasts fall back to the sample broadcast when none are stored) or from its literal initial value |
| Feed.CompareMeaning | components/Dashboard.tsx:103-116 | each sort mode's comparator places a before b exactly when: it is cheaper; it is dearer; b is urgent and it is not (the Urgent First comparator as written); or it is boosted and b is not, then by descending id |
| Feed.LessStrictWeak | components/Dashboard.tsx:103-116 | every comparator is a strict weak order, so the stable sort has one result |
| Feed.CandidatesAreSelected | components/Dashboard.tsx:91-101 | the category filter followed by the text filter is one filter by both criteria |
| Feed.FeedIsSelection | components/Dashboard.tsx:90-118 | the feed is a permutation of the selected listings: a listing appears exactly when it is stored, is in the category (or the category is All Categories) and its lowercased title or description contains the lowercased query |
| Feed.FilteredListings | components/Dashboard.tsx:90-118 | the feed is a rearrangement of the listings the category and text filters keep |
| Feed.FeedSorted | components/Dashboard.tsx:103-116 | the feed is ordered as the chosen mode's comparator asks |
| Feed.FeedPriceOrder | components/Dashboard.tsx:104-107 | the price modes give non-decreasing, or non-increasing, prices |
| Feed.FeedDefaultOrder | components/Dashboard.tsx:110-115 | any other sort value puts boosted listings first and orders listings of equal boost by descending id |
| Feed.FeedUrgentLast | components/Dashboard.tsx:108-109 | as written, Urgent First lists the non-urgent selected listings and then the urgent ones, each group in filter order |
| Feed.FeedUrgentLastExample | components/Dashboard.tsx:108-109 | as written, an urgent listing stored before a non-urgent one comes out behind it |
| Feed.FilteredListingsCorrected | components/Dashboard.tsx:90-118 | the feed with the corrected Urgent First comparator is still a rearrangement of the selected listings and agrees with the feed as written in every other mode |
| Feed.FeedUrgentFirst | components/Dashboard.tsx:108-109 | with the corrected comparator, Urgent First lists the urgent listings and then the others, each group in filter order |
| Feed.CategorySuggestions | components/Dashboard.tsx:127 | one category suggestion per matching category, with its name |
| Feed.ListingSuggestions | components/Dashboard.tsx:132 | one listing suggestion per listing, with its title and the price as `₦` and en-US digit grouping |
| Feed.CategoryPartSpec | components/Dashboard.tsx:124-127 | the category suggestions are exactly the real categories (not All Categories) whose lowercased name contains the query |
| Feed.ListingPartSpec | components/Dashboard.tsx:129-132 | the listing suggestions are the first three stored listings whose lowercased title contains the query (all of them when fewer match), in store order, each with its title and grouped price |
| Feed.SearchSuggestions | components/Dashboard.tsx:120-139 | a blank query gets no suggestions, and a query longer than two characters ends with the assistant entry |
| Feed.SuggestionsSpec | components/Dashboard.tsx:120-139 | a blank query gets no suggestions; any other query gets categories, then listings, then the assistant, and the assistant exactly when the query is longer than two characters |
| Feed.Resolve | components/Dashboard.tsx:85-86 | resolving the history gives only stored listings, each with a record in the history, and no more than there are records |
| Feed.ResolveOne | components/Dashboard.tsx:85-86 | one record resolves to the first stored listing with its id, or to nothing when no listing has it |
| Feed.ResolveAppend | components/Dashboard.tsx:85-86 | resolving a concatenation resolves each part and concatenates the results |
| Feed.ResolveFound | components/Dashboard.tsx:85-86 | there is one resolved listing per record whose listing is stored, in the records' order, and each is the first stored listing with that record's id |
| Feed.ResolveAllFound | components/Dashboard.tsx:85-86 | when every record's listing exists, nothing is dropped and the order of the records is kept |
| Feed.LaterFirstStrictWeak | components/Dashboard.tsx:84 | the most-recent-first comparator is a strict weak order |
| Feed.RecentlyViewed | components/Dashboard.tsx:82-88 | at most eight items, and no more than there are records, each a stored listing |
| Feed.RecentlyViewedSpec | components/Dashboard.tsx:82-88 | the strip has as many items as there are history records whose listing is stored, capped at eight; the i-th item is the first stored listing with the id of the i-th such record in most-recent-first order, whose timestamps never increase; the sorted history is a rearrangement of the history |
| Dashboard.Store.RecentlyViewedItems | components/Dashboard.tsx:82-88 | computing the strip also sorts the state's history in place, most recent first, and keeps one record per listing |
| Dashboard.IncrementViewsSpec | components/Dashboard.tsx:211 | opening adds one view to each listing with the id (a missing count counts as 0) and changes nothing else; the total views grow by the number of such listings |
| Dashboard.UpsertHistorySpec | components/Dashboard.tsx:213-219 | the history keeps one record per listing; the opened listing's record carries the new time, with a first view prepended and every other record unchanged |
| Dashboard.Store.OpenProduct | components/Dashboard.tsx:210-220 | the views, the selected listing and the history are updated as above, and the history stays free of duplicate records |
| Dashboard.ToggleSaveFlips | components/Dashboard.tsx:222-224 | toggling flips whether the id is saved and keeps every other id |
| Dashboard.ToggleSaveTwice | components/Dashboard.tsx:222-224 | toggling twice restores the set of saved ids, and the exact list when the id was not saved |
| Dashboard.Store.ToggleSaved | components/Dashboard.tsx:222-224 | the id's saved state flips |
| Dashboard.StartChatSpec | components/Dashboard.tsx:226-245 | the first existing conversation with this contact about this product is made active and nothing is added; otherwise exactly one empty conversation about the product is prepended and made active |
| Dashboard.StartChatTwice | components/Dashboard.tsx:226-245 | starting the same conversation twice adds it once |
| Dashboard.Store.StartChatWith | components/Dashboard.tsx:226-245 | the chats and the active chat are those of the find-or-create, on the Messages tab |
| Dashboard.AcceptSpec | components/Dashboard.tsx:249-250 | accepting sets only that offer to accepted and only that listing to committed; doing it again changes nothing |
| Dashboard.AcceptedPreview | components/Dashboard.tsx:261 | the chat-list preview of an accepted offer is non-empty text |
| Dashboard.OpeningMessages | components/Dashboard.tsx:268-281 | the negotiation starts with the buyer's message and then the seller's reply |
| Dashboard.NegotiationChatSpec | components/Dashboard.tsx:253-282 | the negotiation chat has the fixed id from the offer, the two opening messages and the offer's product; its preview is not its last message's text |
| Dashboard.AcceptTwiceDuplicatesChat | components/Dashboard.tsx:284 | accepting twice prepends two chats with the same id |
| Dashboard.Store.AcceptOffer | components/Dashboard.tsx:247-288 | offers, listings and chats are updated as above, and the negotiation chat opens on the Messages tab |
| Dashboard.Store.SwitchToSupport | components/Dashboard.tsx:290-295 | the support chat opens on the Messages tab |
| Dashboard.NotificationActionSpec | components/Dashboard.tsx:297-315 | a listing is opened exactly when the payload names an existing listing, and it is the first such listing; offers lead to the Profile tab |
| Dashboard.Store.HandleNotificationAction | components/Dashboard.tsx:297-315 | opening a listing behaves like opening a product; a tab payload only switches the tab; anything else changes nothing |
| Dashboard.Store.MarkAllRead | components/Dashboard.tsx:317-319 | all notifications are marked read and the badge shows 0 |
| Dashboard.Store.DeleteNotification | components/Dashboard.tsx:321-323 | the notifications with the id are removed |
| Dashboard.MarkReadSpec | components/Dashboard.tsx:325-327 | every notification with the id is marked read, nothing else changes, and the unread count does not grow |
| Dashboard.Store.MarkNotificationRead | components/Dashboard.tsx:325-327 | the notifications with the id are marked read, and the badge does not grow |
| Dashboard.Store.ClearNotifications | components/Dashboard.tsx:329-331 | the list is emptied and the badge shows 0 |
| Dashboard.Store.SelectSuggestion | components/Dashboard.tsx:333-343 | a category suggestion selects that category and clears the query; a listing suggestion becomes the query; an assistant suggestion changes neither |
| Dashboard.AuthorName | components/Dashboard.tsx:348 | a broadcast's author is the signed-in user's name when it is non-empty, and `Student` otherwise |
| Dashboard.Store.AddBroadcast | components/Dashboard.tsx:345-361 | the new broadcast, with missing budgets as 0, is prepended |
| Dashboard.ReplaceListingSpec | components/Dashboard.tsx:373 | the edit replaces every listing with the edited id by the edited listing and keeps all others and every id |
| Dashboard.Store.SubmitEdit | components/Dashboard.tsx:373 | the listings are replaced as above and the form closes |
| Dashboard.AddProductSpec | components/Dashboard.tsx:379 | the new listing is prepended, available, with no views or offers, the signed-in seller, a numeric id, and the form's other fields |
| Dashboard.Store.AddProduct | components/Dashboard.tsx:379 | the listing is prepended and the Home tab shows |
| Dashboard.SendMessageSpec | components/Dashboard.tsx:392-394 | each chat with the id gains exactly the sent message at its end and its preview text, but its preview time is kept; other chats are untouched |
| Dashboard.Store.SendChatMessage | components/Dashboard.tsx:392-394 | the chats are updated as above |
| Dashboard.MyListingsSpec | components/Dashboard.tsx:398 | the profile receives exactly the signed-in seller's listings, in order |
| Dashboard.Store.DeleteListing | components/Dashboard.tsx:401 | every listing with the id is removed |
| Dashboard.MarkSoldBoostSpec | components/Dashboard.tsx:402-403 | marking sold, or boosting, changes only that field of the listings with the id; doing it twice is the same as once |
| Dashboard.Store.MarkListingSold | components/Dashboard.tsx:402 | the listings are marked as above |
| Dashboard.Store.BoostListing | components/Dashboard.tsx:403 | the listings are boosted as above |
| Dashboard.Store.ContactSeller | components/Dashboard.tsx:708 | the product sheet opens the conversation with the seller about this listing and closes |
| Dashboard.Store.MarkSoldFromDetail | components/Dashboard.tsx:709 | the product sheet marks the listing sold and closes |
| Dashboard.Store.EditFromDetail | components/Dashboard.tsx:710 | the listing shown moves into the edit form and the sheet closes |
| Notifications.Visible | components/NotificationsView.tsx:43-49 | every visible notification is in the list and belongs to the tab, and every notification of the list that belongs to the tab is visible |
| Notifications.VisibleSpec | components/NotificationsView.tsx:43-49 | each tab keeps the list's order; All shows all; Unread shows exactly the unread ones, as many as the badge counts; Deals shows exactly price drops, offers and payments |
| Notifications.BadgeMatchesUnreadTab | components/NotificationsView.tsx:154-156 | the NEW badge shows exactly when something is unread and counts the Unread tab's entries |
| Notifications.Group | components/NotificationsView.tsx:52-64 | the loop puts into each section exactly the visible notifications whose time belongs there, in order |
| Notifications.SectionOf | components/NotificationsView.tsx:58-60 | a time is Today's exactly when it mentions min or hour, Yesterday's exactly when it does not but mentions yesterday in any letter case, and Earlier's otherwise |
| Notifications.GroupStep | components/NotificationsView.tsx:57-61 | one more notification extends exactly its own section |
| Notifications.SectionsPartition | components/NotificationsView.tsx:52-64 | every visible notification lands in exactly one section, once |
| Notifications.SectionsCount | components/NotificationsView.tsx:52-64 | the section lengths add up to the visible count |
| Notifications.SeedNotificationsAreToday | components/NotificationsView.tsx:58 | the sample notifications' times fall under Today |
| Notifications.Respond | components/NotificationsView.tsx:66-71 | a click marks the notification read only when it is unread, and passes its payload on |
| Notifications.MarkReadCount | components/NotificationsView.tsx:67 | marking an id read lowers the unread count by the number of unread notifications with that id |
| Notifications.UnreadWithOwnId | components/NotificationsView.tsx:67 | with distinct ids, a notification is the only one carrying its id |
| Notifications.ClickReadsOnce | components/NotificationsView.tsx:66-71 | with distinct ids, a click leaves the notification read and lowers the unread count by one exactly when it was unread |
| Notifications.Panel.constructor | components/NotificationsView.tsx:29 | the All tab is selected at first |
| Notifications.Panel.SelectTab | components/NotificationsView.tsx:190 | selecting a tab makes it the filter |
| Notifications.Panel.Sections | components/NotificationsView.tsx:43-64 | the sections shown are the grouping of the selected tab's notifications |
| Offers.PriceDiff | components/OfferView.tsx:23 | the offer plus the difference is the asking price; the difference is non-negative exactly when the offer is at most the asking price |
| Offers.SplitDifference | components/OfferView.tsx:27-29 | the split is the midpoint rounded half up |
| Offers.SplitDifferenceUnique | components/OfferView.tsx:27-29 | that rounding condition determines the split |
| Offers.SplitDifferenceBetween | components/OfferView.tsx:27-29 | for an offer below the asking price, the split lies between the two prices and halves the gap to within one naira |
| Offers.CounterPrice | components/OfferView.tsx:194-203 | Keep Price proposes the asking price; Fair Middle proposes the rounded midpoint |
| Offers.CounterWithinRange | components/OfferView.tsx:194-203 | neither counter goes below the offer or above the asking price |
| Offers.RemoveAt | components/OfferView.tsx:33-46 | only the timer that ran leaves the pending timers |
| Offers.AcceptDelayKeeps | components/OfferView.tsx:33-35 | the first Accept timer keeps the accept bookkeeping, while swapping itself for the second |
| Offers.SuccessDelayKeeps | components/OfferView.tsx:36-38 | the second Accept timer is the single `onAccept` call it was counted for |
| Offers.CounterDelayKeeps | components/OfferView.tsx:44-47 | a counter's timer leaves the accept bookkeeping alone |
| Offers.OfferDialog.constructor | components/OfferView.tsx:18-20 | the dialog opens on the review view, idle, with nothing scheduled |
| Offers.OfferDialog.ClickAccept | components/OfferView.tsx:31-39 | an enabled Accept sets processing and schedules the first timer; a disabled or hidden one does nothing |
| Offers.OfferDialog.ShowView | components/OfferView.tsx:173 | Counter Offer and Cancel switch the view unless the success screen is up |
| Offers.OfferDialog.ClickCounter | components/OfferView.tsx:41-47 | a counter button in the counter view sets processing and schedules the toast-and-close for its price |
| Offers.OfferDialog.Close | components/OfferView.tsx:72 | the backdrop, the X and Decline call `onClose` unless the success screen is up, and change nothing |
| Offers.OfferDialog.FireAcceptDelay | components/OfferView.tsx:33-35 | the success screen appears, processing ends, and the hand-over is scheduled |
| Offers.OfferDialog.FireSuccessDelay | components/OfferView.tsx:36-38 | `onAccept` receives the dialog's own offer, and it is the first and only such call |
| Offers.OfferDialog.FireCounterDelay | components/OfferView.tsx:44-47 | a counter's timer yields its price for the toast, always calls `onClose`, and never calls `onAccept` |
| Offers.AcceptThenDecline | components/OfferView.tsx:179 | Accept followed by Decline still hands the offer to `onAccept` |
| Profile.ListingTabsSpec | components/ProfileView.tsx:81-82 | the listings tab shows exactly the available listings and the sold tab exactly the sold ones, in order, none on both and no committed one on either |
| Profile.ListingTabsCount | components/ProfileView.tsx:81-82 | available, sold and committed listings together account for every listing once |
| Profile.ReceivedOffersSpec | components/ProfileView.tsx:83 | the received offers are exactly the offers from other buyers, in order |
| Profile.SanitizeAccountSpec | components/ProfileView.tsx:245 | the account field keeps only digits, keeps every digit typed in order, leaves all-digit text alone, and sanitising again changes nothing |
| Profile.OpenAsWritten | components/ProfileView.tsx:178-179 | the Boost button as written selects a non-boosted listing and keeps the step, so Boost Now is offered exactly when the step was still at selection; a boosted listing's button does nothing |
| Profile.Open | components/ProfileView.tsx:178-179 | with the step reset, opening a non-boosted listing offers Boost Now for it; a boosted listing's button does nothing |
| Profile.PaySettlesSelected | components/ProfileView.tsx:94-101 | paying boosts exactly the listing selected at the time, and the step ends at success |
| Profile.PayWithoutSelection | components/ProfileView.tsx:95 | with nothing selected paying does nothing |
| Profile.StepNeverResets | components/ProfileView.tsx:64 | as written, once past selection no button or timer brings the step back |
| Profile.SecondBoostAsWritten | components/ProfileView.tsx:178 | as written, after one boost the next listing's checkout opens on the success screen without Boost Now, so that listing cannot be paid for |
| Profile.SecondBoost | components/ProfileView.tsx:178 | with the reset, the second listing gets its own payment for its own id |
| Profile.BoostCheckout.constructor | components/ProfileView.tsx:63-64 | the checkout starts closed at the selection step |
| Profile.BoostCheckout.OpenFor | components/ProfileView.tsx:178-179 | the Boost button selects a non-boosted listing and leaves the step where it was; a boosted listing's button does nothing |
| Profile.BoostCheckout.Close | components/ProfileView.tsx:265 | the backdrop, Dismiss and Done close the checkout and leave the step |
| Profile.BoostCheckout.ProcessPayment | components/ProfileView.tsx:94-96 | Boost Now moves to processing and schedules the payment for the selected listing |
| Profile.BoostCheckout.PaymentSettled | components/ProfileView.tsx:97-100 | a scheduled payment settles the listing id it was scheduled for and shows success |

## Left out

- Rendering, styling, toasts, scrolling, the sidebar, the profile and search dropdowns, and the loading spinner (components/Dashboard.tsx:140-165) are presentation. Toasts carry no state the model keeps.
- Local storage and JSON: storage is a typed map. `JSON.parse` failing and `getItem` returning the empty string both read as an absent entry. An entry of the wrong shape, such as `{}` under the listings key, reads as empty (or as no user) here, where the service would return it as it is and fail later, for example when `addListing` calls `unshift` on it.
- The persistence effects (components/Dashboard.tsx:169-191), which write each state slice back to storage after a change, are not modelled: the `Store` fields and the storage table are kept apart after start-up. The effect for saved ids calls `saveSavedListings`, which services/storageService.ts does not define, and no model member captures what that call does.
- `Dashboard.Store.RecentlyViewedItems`: the source sorts `viewHistory` in place inside a memo without `setViewHistory`; the model writes the sorted history back to the field.
- Time (`Date.now()`, `toLocaleTimeString`, `crypto.randomUUID()`) comes in as parameters. Timer delays are not modelled: only the order in which scheduled callbacks run matters, and every order is allowed.
- The backend, the AI assistant and its opening (`isAssistantOpen`), and the assistant's search suggestion action are outside this model.
- `percentDiff` (components/OfferView.tsx:24) and the progress bar width need floating point and are left out.
- Prices and budgets are whole numbers. `parseFloat` of a budget becomes an optional integer, missing as 0. `toLocaleString` is modelled for integers only.
- `localeCompare` is replaced by code-point order. `toLowerCase` folds ASCII letters only. Strings are sequences of characters, not UTF-16 units.
- The account field's `maxLength={10}` is enforced by the browser and is not modelled, and neither is the bank-details save with its timer (components/ProfileView.tsx:86-92).
- The profile's sub-tabs, the edit-profile modal, the payment-method choice and the sample transactions are display state and are not modelled.
- The boost checkout is modelled for one mounting of the profile screen. Leaving the Profile tab unmounts it (components/Dashboard.tsx:395-407), and coming back starts a fresh checkout at 'selection'; the model has no remount.

## Findings

| source | as written | input that shows it | evidently intended | confidence | as-written member | corrected member |
|---|---|---|---|---|---|---|
| components/ProfileView.tsx:178 | the Boost button sets `showBoostCheckout` but never resets `boostPaymentStep`, and within one visit to the Profile tab nothing else sets it back to 'selection' | boost listing A (Boost Now, payment settles, Done), then press Boost on listing B, which is not boosted | each checkout starts at 'selection', so B can be paid for | high; not executed | Profile.SecondBoostAsWritten | Profile.SecondBoost |
| components/Dashboard.tsx:108-109 | the Urgent First comparator is `(b.isUrgent ? -1 : 1) - (a.isUrgent ? -1 : 1)`, which sorts urgent listings after the others | an urgent listing and a non-urgent one, sorted by Urgent First | urgent listings first, as the option's name says | high; not executed | Feed.FeedUrgentLast | Feed.FeedUrgentFirst |
