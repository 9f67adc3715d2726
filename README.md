# Groceries: a verified model of the shopping-list core

Groceries is a shared shopping list with recipes. A small HTTP server keeps categories, list
items, recipes with their ingredients, and learned item-name to category mappings in a relational
store, and announces changes via server-sent events. A browser client keeps a local cache and
an offline queue of mutations, drains that queue when the device comes back online, keeps a
live-update connection with exponential backoff, and renders the list and the recipe editor.

This project models that core in Dafny and proves properties of the model.

- **Server.** Each table is a `map` from primary key to row, with the next key its auto-increment
  column hands out (`Tables.Database`). Each route is a method on that database: `CategoryRoutes`,
  `ItemRoutes`, `RecipeRoutes`, `Categorization`, `Seed`. It returns a status with a body, or an
  error status with the route's message.
- **Transactions.** A transaction computes the new tables first. It assigns them only when every
  statement would succeed, so an aborted transaction leaves no trace.
- **Client.** The cache (`LocalDb.LocalDatabase`), the queue drain (`Sync`), the live-update
  service (`LiveUpdates`) and the application store (`Store.AppStore`) are classes whose fields
  the methods update, as in the source.
- **Specification functions.** The queue drain and the live-update connection each also have a
  pure function that describes them: `Sync.Drain`, and `LiveUpdates.Conn` with its step
  functions. The methods are proved equal to those functions, and the properties are proved as
  lemmas about them.
- **Views.** The two screens (`GroceryList`, `RecipeEditor`) are functions from the store's lists
  to what is shown or sent.
- **Unknowns become parameters.** The network, timers, clocks and JSON parsing are all outcomes
  passed in as parameters:
  - the k-th API reply is `replies(k)`;
  - whether `new EventSource` threw is `constructs`;
  - `JSON.parse` results are `Option<Json>`;
  - the current time is `now`.

The store's actions (`frontend/src/store/useStore.js`) each await their API call and change
their list only after the call succeeds. Only `toggleItemCheck` writes the new flag first and
writes the opposite flag back when the call fails. The store neither queues mutations nor
filters the events it caused itself; the model has exactly this behaviour.

## Model

| member | source | states |
|---|---|---|
| Sync.Handler | frontend/src/services/sync.js:4-18 | an action name finds a handler only when that handler is registered under that very name |
| Sync.HandlerOfActionName | frontend/src/services/sync.js:4-18 | each of the thirteen handlers is found under its own action name |
| Sync.CallOfUsesHandler | frontend/src/services/sync.js:29-35 | with the store's handler table, an entry yields a request exactly when its action has a handler; the request goes to the handler named by the action, with the entry's own data |
| Sync.QueuedActionReachesHandler | frontend/src/services/sync.js:29-35 | an entry queued under an endpoint's action name is replayed against that endpoint with its data |
| Sync.DrainLeavesSuffix | frontend/src/services/sync.js:28-44 | a drain leaves a suffix of the queue queued: entries go only from the front, in order, and none are added |
| Sync.DrainStopsOnlyOffline | frontend/src/services/sync.js:37-39 | entries stay queued only after a failure seen offline; the first kept entry is the one whose call failed |
| Sync.DrainCalls | frontend/src/services/sync.js:28-44 | a drain issues exactly the requests of the entries it visited, in queue order, with one request per entry |
| Sync.DrainSkips | frontend/src/services/sync.js:29-33 | an entry whose action has no handler is dropped without a request, and the drain goes on with the same call count |
| Sync.DrainStops | frontend/src/services/sync.js:34-39 | a call that fails while offline is the last request, and its entry and every later one stay queued |
| Sync.DrainContinues | frontend/src/services/sync.js:34-43 | a call that succeeds, or fails while online, removes its entry and the drain goes on with the next call |
| Sync.DrainCallsBounded | frontend/src/services/sync.js:28-44 | a drain never issues more requests than there are queued entries |
| Sync.DrainOnlineEmptiesQueue | frontend/src/services/sync.js:35-42 | when no call fails offline, the queue is emptied and every entry with a handler is called once, in order |
| Sync.DrainDropsUnknown | frontend/src/services/sync.js:30-33 | a queue of unknown actions is emptied without issuing any request |
| Sync.RemoveHead | frontend/src/services/sync.js:31 | removing the head entry by id leaves the rest of the queue, in order, and keeps the store valid |
| Sync.DrainQueue | frontend/src/services/sync.js:27-44 | the loop over the queue snapshot issues exactly the requests of `Drain` and leaves exactly its remaining entries queued |
| Sync.SyncEngine.constructor | frontend/src/services/sync.js:20 | no drain running, no listener registered |
| Sync.SyncEngine.ProcessQueue | frontend/src/services/sync.js:22-48 | a running drain or an offline device does nothing; otherwise the requests and remaining queue are those of `Drain` on the queue snapshot, and `syncing` is false again |
| Sync.SyncEngine.StartSyncListener | frontend/src/services/sync.js:50-56 | the `online` handler is registered |
| Sync.SyncEngine.StopSyncListener | frontend/src/services/sync.js:57 | the returned function unregisters it |
| Sync.SyncEngine.OnOnline | frontend/src/services/sync.js:51-54 | when registered, the queue is processed and then completion is reported exactly once; when not registered nothing happens |
| LiveUpdates.Pow2Monotone | frontend/src/services/liveUpdates.js:82-85 | the power of two grows with the attempt count |
| LiveUpdates.DelayBounds | frontend/src/services/liveUpdates.js:10-11 | every reconnect delay lies between 1000 and 30000 ms |
| LiveUpdates.DelaySchedule | frontend/src/services/liveUpdates.js:81-85 | the delays are 1 s, 2 s, 4 s, 8 s, 16 s, then 30 s for every later attempt |
| LiveUpdates.DelayDoubles | frontend/src/services/liveUpdates.js:82-85 | each further attempt doubles the delay until it reaches the maximum |
| LiveUpdates.FreshIsIdle | frontend/src/services/liveUpdates.js:6-14 | a new service has no source, no timer, zero attempts and is not connected |
| LiveUpdates.ScheduleLeavesOnePending | frontend/src/services/liveUpdates.js:75-93 | scheduling clears the previous timer, so exactly one reconnect is pending, with the backoff delay for the current attempt count |
| LiveUpdates.DisconnectClearsAll | frontend/src/services/liveUpdates.js:98-116 | disconnect leaves no timer and no source, zeroes the attempts, and reports `false` when a callback is set |
| LiveUpdates.OpenAndError | frontend/src/services/liveUpdates.js:36-42 | `onopen` marks the source open, zeroes the attempts and reports `true`; `onerror` reports `false` and leaves one reconnect pending at the current delay |
| LiveUpdates.UnparsableMessageDropped | frontend/src/services/liveUpdates.js:44-54 | a message that does not parse, or parses to `null`, delivers no event and changes nothing; any other payload is delivered when the callback is set; without the callback nothing changes |
| LiveUpdates.ConnectKeepsInv | frontend/src/services/liveUpdates.js:22-69 | connect keeps the single-timer invariant; with a source in place it first disconnects, which zeroes the attempts; on success the new source is not yet open |
| LiveUpdates.StepKeepsInv | frontend/src/services/liveUpdates.js:22-116 | every call and callback, the timer callback as written included, keeps the invariant that the timer slot names the only live timer |
| LiveUpdates.FireKeepsInv | frontend/src/services/liveUpdates.js:89-92 | the timer callback as written keeps the single-timer invariant |
| LiveUpdates.AtMostOnePending | frontend/src/services/liveUpdates.js:75-93 | after any run of calls and callbacks, with the timer callback as written, the invariant holds and at most one reconnect is pending |
| LiveUpdates.OnePendingFromInv | frontend/src/services/liveUpdates.js:77-79 | under the invariant at most one timer is live |
| LiveUpdates.ClearLeavesNone | frontend/src/services/liveUpdates.js:101-104 | clearing the slot's timer leaves no timer live |
| LiveUpdates.FireWithoutSourceCounts | frontend/src/services/liveUpdates.js:89-92 | a timer firing with no source counts the attempt, and a failed construction then schedules the doubled delay |
| LiveUpdates.FireWithSourceResets | frontend/src/services/liveUpdates.js:27-29 | as written, a timer firing while the errored source still exists ends with zero attempts |
| LiveUpdates.RepeatedErrorsDoNotBackOff | frontend/src/services/liveUpdates.js:56-64 | as written, connect, error, reconnect, error schedules 1000 ms both times |
| LiveUpdates.FireIntended | frontend/src/services/liveUpdates.js:89-92 | the corrected timer callback: the attempt is counted and kept, the callbacks stay, and a new source exists exactly when construction succeeded |
| LiveUpdates.IntendedBackoffDoubles | frontend/src/services/liveUpdates.js:81-92 | with the corrected reconnect every fired timer counts, and the next error schedules the next backoff step |
| LiveUpdates.IntendedRepeatedErrorsBackOff | frontend/src/services/liveUpdates.js:81 | with the corrected reconnect the same scenario schedules 1000 ms, then 2000 ms |
| LiveUpdates.StepIntendedKeepsInv | frontend/src/services/liveUpdates.js:22-116 | with the corrected timer callback every call and callback keeps the single-timer invariant |
| LiveUpdates.AtMostOnePendingIntended | frontend/src/services/liveUpdates.js:75-93 | with the corrected timer callback, after any run the invariant holds and at most one reconnect is pending |
| LiveUpdates.LiveUpdatesService.constructor | frontend/src/services/liveUpdates.js:6-14 | the fields start as the idle state |
| LiveUpdates.LiveUpdatesService.ReportChange | frontend/src/services/liveUpdates.js:58-60 | the value is reported only when the callback is set |
| LiveUpdates.LiveUpdatesService.ScheduleReconnect | frontend/src/services/liveUpdates.js:75-93 | the new fields are those `Schedule` describes |
| LiveUpdates.LiveUpdatesService.Disconnect | frontend/src/services/liveUpdates.js:98-116 | the new fields are those `AfterDisconnect` describes |
| LiveUpdates.LiveUpdatesService.Connect | frontend/src/services/liveUpdates.js:22-69 | the new fields are those `AfterConnect` describes, for both outcomes of the construction |
| LiveUpdates.LiveUpdatesService.OnOpen | frontend/src/services/liveUpdates.js:36-42 | the new fields are those `Open` describes |
| LiveUpdates.LiveUpdatesService.OnMessage | frontend/src/services/liveUpdates.js:44-54 | the new fields are those `Message` describes: a parsed, non-null payload is delivered when the callback is set, and anything else is dropped |
| LiveUpdates.LiveUpdatesService.OnError | frontend/src/services/liveUpdates.js:56-64 | the new fields are those `Error` describes |
| LiveUpdates.LiveUpdatesService.TimerFires | frontend/src/services/liveUpdates.js:89-92 | the new fields are those `Fire` describes: the attempt is counted, then `connect` runs with the stored url and callbacks, as written |
| LiveUpdates.LiveUpdatesService.IsConnected | frontend/src/services/liveUpdates.js:122-124 | connected exactly when a source exists and is open |
| LocalDb.WithoutEntry | frontend/src/services/db.js:132-135 | deleting a queue key keeps exactly the entries with other keys |
| LocalDb.WithoutAbsentEntry | frontend/src/services/db.js:132-135 | deleting a key no entry has leaves the queue unchanged |
| LocalDb.WithoutHead | frontend/src/services/db.js:132-135 | in a queue in key order, deleting the head's key removes exactly the head |
| LocalDb.WithoutKeepsOrder | frontend/src/services/db.js:132-135 | deletion keeps the queue in increasing key order |
| LocalDb.AddedEntryComesLast | frontend/src/services/db.js:112-118 | a newly added entry gets a key above all queued ones and so is listed last |
| LocalDb.SavedCategoriesReadBack | frontend/src/services/db.js:37-45 | saving a list with distinct ids stores exactly the listed categories |
| LocalDb.LocalDatabase.constructor | frontend/src/services/db.js:10-28 | empty stores, queue key generator at 1 |
| LocalDb.LocalDatabase.GetCategories | frontend/src/services/db.js:31-35 | every stored category exactly once, ascending by sort order |
| LocalDb.LocalDatabase.GetItems | frontend/src/services/db.js:48-51 | every stored item exactly once, in key order |
| LocalDb.LocalDatabase.GetRecipes | frontend/src/services/db.js:86-89 | every stored recipe exactly once, in key order |
| LocalDb.LocalDatabase.SaveCategories | frontend/src/services/db.js:37-45 | the store is replaced by the given categories, a later one winning on a shared id |
| LocalDb.LocalDatabase.SaveItems | frontend/src/services/db.js:53-61 | the store is replaced by the given items, a later one winning on a shared id |
| LocalDb.LocalDatabase.SaveItem | frontend/src/services/db.js:63-66 | one item put under its id |
| LocalDb.LocalDatabase.DeleteItemLocal | frontend/src/services/db.js:68-71 | one key deleted |
| LocalDb.LocalDatabase.DeleteCheckedItemsLocal | frontend/src/services/db.js:73-83 | exactly the items whose `checked` is truthy are gone; the others are unchanged |
| LocalDb.LocalDatabase.SaveRecipes | frontend/src/services/db.js:91-99 | the store is replaced by the given recipes, a later one winning on a shared id |
| LocalDb.LocalDatabase.SaveRecipe | frontend/src/services/db.js:101-104 | one recipe put under its id |
| LocalDb.LocalDatabase.DeleteRecipeLocal | frontend/src/services/db.js:106-109 | one key deleted |
| LocalDb.LocalDatabase.AddToSyncQueue | frontend/src/services/db.js:112-118 | the entry is appended under the next key, stamped with the time, and the queue stays in key order |
| LocalDb.LocalDatabase.GetSyncQueue | frontend/src/services/db.js:120-123 | the queued entries, oldest first |
| LocalDb.LocalDatabase.ClearSyncQueue | frontend/src/services/db.js:125-130 | the queue is emptied; the key generator keeps counting |
| LocalDb.LocalDatabase.RemoveSyncEntry | frontend/src/services/db.js:132-135 | the entry with that key goes, and the rest stay in order |
| Store.ReplaceById | frontend/src/store/useStore.js:31 | same length; the matching elements are replaced and the others kept in place |
| Store.RemoveById | frontend/src/store/useStore.js:38 | exactly the elements with other ids are kept, in order |
| Store.RemoveAbsentId | frontend/src/store/useStore.js:38 | removing an id no element carries changes nothing |
| Store.SetChecked | frontend/src/store/useStore.js:74 | only the matching items get the new flag; the others are untouched |
| Store.ToggleRollbackRestoresIff | frontend/src/store/useStore.js:71-84 | after a failed toggle the item is back as it was exactly when it already held the opposite of the requested state |
| Store.ToggleRollbackKeepsOthers | frontend/src/store/useStore.js:71-84 | a failed toggle leaves every other item as it was |
| Store.RecheckFailureUnchecks | frontend/src/store/useStore.js:80-82 | re-checking a checked item while the call fails leaves it unchecked |
| Store.ReorderPayload | frontend/src/store/useStore.js:43 | one entry per category, in order, with dense sort orders 1, 2, ... |
| Store.AppStore.constructor | frontend/src/store/useStore.js:5-10 | empty lists, no error |
| Store.AppStore.FetchCategories | frontend/src/store/useStore.js:13-20 | success replaces the list; failure records the message and keeps it |
| Store.AppStore.CreateCategory | frontend/src/store/useStore.js:22-26 | success appends the created category; failure propagates and changes nothing |
| Store.AppStore.UpdateCategory | frontend/src/store/useStore.js:28-33 | success replaces the category with that id |
| Store.AppStore.DeleteCategory | frontend/src/store/useStore.js:35-40 | success removes the category with that id |
| Store.AppStore.ReorderCategories | frontend/src/store/useStore.js:42-46 | sends dense sort orders in the given order, then takes the server's list |
| Store.AppStore.FetchItems | frontend/src/store/useStore.js:49-56 | success replaces the list; failure records the message |
| Store.AppStore.CreateItem | frontend/src/store/useStore.js:58-62 | success appends the new item |
| Store.AppStore.UpdateItem | frontend/src/store/useStore.js:64-69 | success replaces the item with that id |
| Store.AppStore.ToggleItemCheck | frontend/src/store/useStore.js:71-84 | the flag is written before the call; on failure the opposite flag is written and the error is swallowed |
| Store.AppStore.DeleteItem | frontend/src/store/useStore.js:86-89 | success removes the item with that id |
| Store.AppStore.DeleteCheckedItems | frontend/src/store/useStore.js:91-94 | success keeps exactly the unchecked items, in order |
| Store.AppStore.FetchRecipes | frontend/src/store/useStore.js:97-104 | success replaces the list; failure records the message |
| Store.AppStore.CreateRecipe | frontend/src/store/useStore.js:106-110 | success appends the new recipe |
| Store.AppStore.UpdateRecipe | frontend/src/store/useStore.js:112-117 | success replaces the recipe with that id |
| Store.AppStore.DeleteRecipe | frontend/src/store/useStore.js:119-122 | success removes the recipe with that id |
| Store.AppStore.AddRecipeToList | frontend/src/store/useStore.js:124-128 | success appends the created items after the existing ones, in the server's order |
| Store.AppStore.ClearError | frontend/src/store/useStore.js:130 | the error is cleared |
| Domain.OrNull | backend/src/routes/items.js:73 | the stored category is never 0: a truthy value is kept unchanged, and the result is truthy exactly when the input is |
| Domain.TrimOrNull | backend/src/routes/items.js:71-72 | null exactly for a missing or blank text; otherwise the trimmed text, which is non-empty, has no white space at either end and is its own trim |
| Domain.EmptyToNull | backend/src/routes/recipes.js:304-305 | null exactly for a missing or empty text, otherwise the text unchanged, so an empty text is never stored |
| Text.NormalizeIgnoresCaseAndOuterSpace | backend/src/services/categorization.js:10 | names differing only in case or outer white space have one key, and a key is its own key |
| Categorization.SpellingsShareKey | backend/src/services/categorization.js:10 | spellings differing only in case or outer white space share one mapping |
| Categorization.LearnThenSuggest | backend/src/services/categorization.js:24-47 | after learning, the name suggests the learned category |
| Categorization.LearnLeavesOthers | backend/src/services/categorization.js:24-47 | learning one key leaves every other key's suggestion as it was |
| Categorization.LearnCounts | backend/src/services/categorization.js:33-46 | an existing row gets the new category and one more use; a new row starts at one use; other rows are untouched |
| Categorization.UsageUpdateOnlyCounts | backend/src/services/categorization.js:53-62 | usage updates never add a row or change a category; they count one use of an existing row |
| Categorization.LearnKeepsKeysNormalised | backend/src/services/categorization.js:26 | every key stays a normalised name, so there is one row per name |
| Categorization.GetSuggestedCategory | backend/src/services/categorization.js:8-17 | the suggestion for the normalised name |
| Categorization.LearnCategoryMapping | backend/src/services/categorization.js:24-47 | the table after learning the normalised name |
| Categorization.UpdateMappingUsage | backend/src/services/categorization.js:53-62 | the table after counting a use of the normalised name |
| Categorization.Day | backend/src/services/categorization.js:75-76 | the day a time falls on: the time lies within that day's seconds |
| Categorization.StaleAsWrittenWidensStale | backend/src/services/categorization.js:75-76 | the text comparison deletes every row the time comparison would, and the only extra rows were used once, at or after the cutoff, on the cutoff's day |
| Categorization.KeptAsWritten | backend/src/services/categorization.js:74-76 | as written, a row is kept unchanged exactly when it was used more than once or on a day after the cutoff's day |
| Categorization.WithoutStale | backend/src/services/categorization.js:64-67 | as intended, a row is kept unchanged exactly when it was used more than once or at or after the cutoff |
| Categorization.CleanupAsWrittenWithinIntended | backend/src/services/categorization.js:74-76 | the cleanup as written keeps a subset of what the intended one keeps, and loses besides only single-use rows of the cutoff's day used at or after it |
| Categorization.CleanupRemovesRowUsedAfterCutoff | backend/src/services/categorization.js:75-76 | a row used once at 02:00 is deleted by a cleanup with a 01:00 cutoff the same day, though the intended cleanup keeps it |
| Categorization.CleanupOldMappings | backend/src/services/categorization.js:68-80 | the table after the delete as written, and the number of rows deleted |
| Tables.WithConsecutiveRows | backend/src/routes/recipes.js:99-108 | rows inserted under consecutive fresh keys keep the old rows, sit under their own keys, and advance the counter |
| Tables.NextAfterMax | backend/src/routes/items.js:61-64 | the next position is above every value in the column and one above the largest, or 1 for an empty table |
| Tables.Database.InsertCategory | backend/src/routes/categories.js:44-46 | a row with a new name is inserted under the next key, and the tables stay keyed with unique names |
| Tables.EventLog.EmitChange | backend/src/services/events.js:54-64 | one event with the type, data, change id and time is appended |
| CategoryRoutes.ListCategories | backend/src/routes/categories.js:10-22 | every category exactly once, by sort order |
| CategoryRoutes.CreateCategory | backend/src/routes/categories.js:28-61 | 400 exactly for a missing or blank name; 409 exactly when the trimmed name exists; otherwise 201 with the trimmed name, sorted after every existing category |
| CategoryRoutes.ReorderAbortsIffMalformed | backend/src/routes/categories.js:82-85 | the transaction aborts exactly when some entry lacks a truthy id or a sort order |
| CategoryRoutes.ReorderKeepsRows | backend/src/routes/categories.js:80-90 | reordering keeps every row, id and name, and rows not named in the body are unchanged |
| CategoryRoutes.ReorderLastEntryWins | backend/src/routes/categories.js:82-87 | a row named in the body ends with the sort order of its last entry |
| CategoryRoutes.ReorderKeepsValid | backend/src/routes/categories.js:80-90 | reordering keeps the table keyed and its names unique |
| CategoryRoutes.ReorderCategories | backend/src/routes/categories.js:69-102 | 400 exactly for a non-array body; a malformed entry gives 500 with no change; otherwise the reordered table, listed by sort order |
| CategoryRoutes.UpdateCategory | backend/src/routes/categories.js:108-139 | 400 missing name, 404 unknown id, 409 a name taken by another row; otherwise only that row's name changes, to the trimmed name |
| CategoryRoutes.ItemCountPositiveIffInUse | backend/src/routes/categories.js:151-158 | the item count is positive exactly when some item uses the category |
| CategoryRoutes.DeleteCategory | backend/src/routes/categories.js:145-175 | 409 exactly when an item uses the category, then 404 for an unknown id; otherwise 204 and only that row goes |
| ItemRoutes.ListItems | backend/src/routes/items.js:15-37 | every item exactly once, in the listing order |
| ItemRoutes.ListedUncheckedFirst | backend/src/routes/items.js:26 | no checked item is listed before an unchecked one |
| ItemRoutes.ListedByCategory | backend/src/routes/items.js:27 | among equally checked items, those without a category come first, then by category sort order |
| ItemRoutes.ListedByPosition | backend/src/routes/items.js:28 | within a category and check state, items follow their list position |
| ItemRoutes.FinalCategory | backend/src/routes/items.js:54-58 | the requested category when truthy, else the one learned for the name |
| ItemRoutes.CreateItem | backend/src/routes/items.js:43-98 | 400 exactly for a blank name; otherwise 201 with trimmed texts, unchecked, at the end of the list, in the final category, learned when truthy |
| ItemRoutes.UpdateItem | backend/src/routes/items.js:104-151 | 400 blank name, 404 unknown id; otherwise texts and category replaced, flag, position and creation time kept, category learned when truthy |
| ItemRoutes.CheckItem | backend/src/routes/items.js:157-193 | 400 unless `checked` is a boolean, 404 unknown id; otherwise only the flag (1 or 0) and edit time of that item change |
| ItemRoutes.CheckedKeysSplit | backend/src/routes/items.js:204-206 | the checked and the other items partition the table |
| ItemRoutes.DeleteCheckedItems | backend/src/routes/items.js:200-216 | exactly the rows with `checked = 1` go, and their number is returned |
| ItemRoutes.DeleteItem | backend/src/routes/items.js:222-240 | 404 for an unknown id; otherwise 204 and only that row goes |
| RecipeRoutes.NameKey | backend/src/routes/recipes.js:16 | the name ordering key compares character codes |
| RecipeRoutes.RecipeOrderByName | backend/src/routes/recipes.js:16 | recipes sort by the first character where their names differ |
| RecipeRoutes.RecipeOrderPrefix | backend/src/routes/recipes.js:16 | keys that agree up to a position sort by the entry at that position |
| RecipeRoutes.RecipeOrderPrefixFirst | backend/src/routes/recipes.js:16 | a name that is a proper prefix of another comes first |
| RecipeRoutes.ListRecipes | backend/src/routes/recipes.js:12-24 | every recipe exactly once, by name |
| RecipeRoutes.Detail | backend/src/routes/recipes.js:43-51 | the recipe with exactly its ingredient rows, by position |
| RecipeRoutes.GetRecipe | backend/src/routes/recipes.js:30-61 | 404 exactly for an unknown id; otherwise the recipe with its ingredients |
| RecipeRoutes.IngredientRowFields | backend/src/routes/recipes.js:95-108 | the stored ingredient has trimmed texts, the requested or learned category, and the position or 0 |
| RecipeRoutes.RowsAbortIffUnnamed | backend/src/routes/recipes.js:95-97 | the ingredient loop aborts exactly when some ingredient has a blank name |
| RecipeRoutes.RowsAreIngredients | backend/src/routes/recipes.js:94-109 | row i is ingredient i of the request, under id first + i |
| RecipeRoutes.RowsOfNamed | backend/src/routes/recipes.js:94-109 | when every ingredient is named, the loop inserts exactly their rows |
| RecipeRoutes.InsertIngredients | backend/src/routes/recipes.js:94-109 | the loop computes the rows `Rows` describes, and the table with them inserted |
| RecipeRoutes.BuildRow | backend/src/routes/recipes.js:99-108 | one ingredient row, with the suggestion read from the mappings |
| RecipeRoutes.NewRowsAreRecipeIngredients | backend/src/routes/recipes.js:117-125 | a recipe's ingredients afterwards are exactly the rows just inserted |
| RecipeRoutes.InsertedRowsKeepValid | backend/src/routes/recipes.js:99-108 | inserted rows keep the ingredient table keyed and owned by existing recipes |
| RecipeRoutes.StoreIngredients | backend/src/routes/recipes.js:94-109 | committing the loop keeps the table keyed and owned, and the recipe's ingredients become exactly the new rows |
| RecipeRoutes.CreateRecipe | backend/src/routes/recipes.js:68-145 | 400 blank name; an unnamed ingredient gives 500 with no change; otherwise 201 with exactly the new ingredients, announced as `recipe-created` |
| RecipeRoutes.UpdateRecipe | backend/src/routes/recipes.js:152-237 | 400 blank name, then 404 unknown id, then 500 for an unnamed ingredient with no change; otherwise the ingredients are replaced wholesale and `recipe-updated` is announced |
| RecipeRoutes.DeleteRecipe | backend/src/routes/recipes.js:243-265 | 404 unknown id; otherwise 204, the recipe and its ingredients go, and `recipe-deleted` is announced |
| RecipeRoutes.ItemFor | backend/src/routes/recipes.js:302-308 | the list item copies the ingredient's name, its non-empty texts and truthy category, unchecked, at its position |
| RecipeRoutes.LearnAllSuggestsLast | backend/src/routes/recipes.js:311-313 | an ingredient's truthy category is suggested afterwards unless a later ingredient with the same key overrides it |
| RecipeRoutes.CreatedEvents | backend/src/routes/recipes.js:335-337 | one `item-created` event per added item, in order |
| RecipeRoutes.AddRecipeToList | backend/src/routes/recipes.js:271-348 | 404 with no change when the recipe has no ingredients; otherwise one item per ingredient at consecutive positions after the list's end, categories learned, one event per item, 201 |
| RecipeRoutes.RecipeIngredientRows | backend/src/routes/recipes.js:278-280 | exactly the recipe's ingredient rows, each once, in row-id order |
| RecipeRoutes.AddItems | backend/src/routes/recipes.js:286-337 | items go after the end of the list at consecutive positions and ids, categories are learned, and one event per item is announced in order |
| RecipeRoutes.InsertItems | backend/src/routes/recipes.js:293-319 | the insert loop adds exactly one item per ingredient under consecutive ids and learns their categories |
| RecipeRoutes.InsertItem | backend/src/routes/recipes.js:301-313 | one new unchecked item under the next id with the ingredient's texts, and its category learned exactly when truthy |
| RecipeRoutes.EmitCreated | backend/src/routes/recipes.js:335-337 | the events appended are `CreatedEvents` of the added items |
| Seed.DefaultsWellFormed | backend/src/db/seed.js:3-14 | ten defaults, with sort orders 1 to 10 and distinct names |
| Seed.InsertDefaults | backend/src/db/seed.js:28-36 | distinct names go into an empty table in list order, under consecutive ids, with their sort orders |
| Seed.SeedCategories | backend/src/db/seed.js:19-43 | a non-empty table is left alone; an empty one receives exactly the ten defaults, in order, under consecutive ids |
| GroceryList.Render | frontend/src/components/GroceryList/GroceryListView.jsx:33-63 | the clear button appears exactly when items are checked and shows their count; the empty message appears exactly for an empty list |
| GroceryList.CheckedSplit | frontend/src/components/GroceryList/GroceryListView.jsx:16-17 | unchecked and checked items split the list: same multiset, order kept in both |
| GroceryList.CheckedSplitCounts | frontend/src/components/GroceryList/GroceryListView.jsx:16-17 | the two filters together hold every item exactly as often as the list does |
| GroceryList.GroupCategories | frontend/src/components/GroceryList/GroceryListView.jsx:19-24 | one category per section, the i-th being the i-th section's category |
| GroceryList.GroupsWellFormed | frontend/src/components/GroceryList/GroceryListView.jsx:19-24 | sections follow the category order; each is non-empty and holds only that category's unchecked items, in list order |
| GroceryList.GroupedFindsItem | frontend/src/components/GroceryList/GroceryListView.jsx:19-24 | an unchecked item is in some section exactly when its category is listed |
| GroceryList.Shown | frontend/src/components/GroceryList/GroceryListView.jsx:16-56 | an unchecked item is shown exactly when its category is unset or listed; an item is in the checked section exactly when checked |
| RecipeEditor.Edited | frontend/src/components/Recipes/RecipeEditorView.jsx:43-49 | editing keeps the number of rows |
| RecipeEditor.EditChangesOneField | frontend/src/components/Recipes/RecipeEditorView.jsx:43-49 | only the edited field of the edited row changes; an index out of range changes nothing |
| RecipeEditor.RemovedAt | frontend/src/components/Recipes/RecipeEditorView.jsx:51-53 | removing an index in range drops one row; any other index changes nothing |
| RecipeEditor.RemoveKeepsOthers | frontend/src/components/Recipes/RecipeEditorView.jsx:51-53 | every other row is kept, in order |
| RecipeEditor.LoadDrafts | frontend/src/components/Recipes/RecipeEditorView.jsx:25-31 | one draft per stored ingredient, in order |
| RecipeEditor.Payload | frontend/src/components/Recipes/RecipeEditorView.jsx:61-68 | one payload element per named row |
| RecipeEditor.PayloadShape | frontend/src/components/Recipes/RecipeEditorView.jsx:61-68 | named rows in form order, positions 0, 1, and so on, trimmed texts, empty amount or category sent as null |
| RecipeEditor.PayloadNamesNotBlank | frontend/src/components/Recipes/RecipeEditorView.jsx:62-64 | the server accepts every ingredient the editor sends: no name is blank |
| RecipeEditor.LoadThenSaveEntry | frontend/src/components/Recipes/RecipeEditorView.jsx:25-31 | a stored ingredient loaded and saved unedited yields its own name, amount and category |
| RecipeEditor.LoadThenSave | frontend/src/components/Recipes/RecipeEditorView.jsx:21-69 | loading a stored recipe and saving it unedited sends back its ingredients, renumbered in stored order |
| RecipeEditor.Editor.constructor | frontend/src/components/Recipes/RecipeEditorView.jsx:10-15 | empty form, not saving, loading exactly when editing an existing recipe |
| RecipeEditor.Editor.Loaded | frontend/src/components/Recipes/RecipeEditorView.jsx:23-32 | the stored name and drafts are shown and loading ends |
| RecipeEditor.Editor.SetName | frontend/src/components/Recipes/RecipeEditorView.jsx:12 | the name field is set |
| RecipeEditor.Editor.AddIngredient | frontend/src/components/Recipes/RecipeEditorView.jsx:39-41 | one empty row appended |
| RecipeEditor.Editor.UpdateIngredient | frontend/src/components/Recipes/RecipeEditorView.jsx:43-49 | the rows after `Edited` |
| RecipeEditor.Editor.RemoveIngredient | frontend/src/components/Recipes/RecipeEditorView.jsx:51-53 | the rows after `RemovedAt` |
| RecipeEditor.Editor.HandleSave | frontend/src/components/Recipes/RecipeEditorView.jsx:55-83 | a blank name does nothing; otherwise a create for a new recipe or an update of its id is sent with the trimmed name and payload, and saving is false afterwards |
| EndToEnd.Renumbered | frontend/src/store/useStore.js:43 | each category renumbered to its 1-based place |
| EndToEnd.PayloadAccepted | backend/src/routes/categories.js:82-85 | the reorder body the client builds from a full arrangement passes the server's check |
| EndToEnd.ReorderPlacesArrangement | backend/src/routes/categories.js:80-88 | after the reorder every arranged category keeps its row and has its 1-based place as sort order |
| EndToEnd.RenumberedOrdered | frontend/src/store/useStore.js:43 | the renumbered arrangement is listed in sort order |
| EndToEnd.ReorderListsArrangement | backend/src/routes/categories.js:93-97 | after the server applies the client's reorder, its listing is exactly the user's arrangement, renumbered 1, 2, and so on |

## Left out

- Network requests and the API client (`frontend/src/services/api.js`) are left out. Every reply is an input to the model.
- The IndexedDB connection, its opening and schema upgrade are left out. The stores are fields of `LocalDb.LocalDatabase`.
- The Express wiring, the server start-up, the events endpoint and the sockets of the event broadcaster are left out. Broadcasting is the append to `Tables.EventLog`.
- `backend/src/db/database.js` (the schema) is not part of this model. The only foreign key enforced is the one from an ingredient to its recipe, with the cascade on recipe delete taken from the route's comment. Item and ingredient category references are not checked.
- SQL failures are left out, and with them the 500 replies other than the two modelled ones: a malformed reorder entry and an unnamed ingredient.
- The 409 reply of a category delete carries an item count in its body; the model returns the status only.
- The listing joins of `category_name` and `category_sort_order` are not part of the rows returned.
- The add-to-list reply's `message` and `itemsAdded` fields are left out; the items are returned.
- ORDER BY ties are broken by row id in the model. SQL leaves the order of ties unspecified.
- Add-to-list reads a recipe's ingredients in row-id order. The fetched items are taken to be in insertion order.
- Recipe names are ordered by character code, in place of the database's collation.
- Trimming and lower-casing cover ASCII white space and ASCII letters only.
- JSON values of the wrong type in text fields of request bodies are not modelled. Texts are `Option<string>`.
- Wall-clock time is an integer parameter `now`.
- `CleanupOldMappings` takes the six-months-ago cutoff as a parameter, so the calendar arithmetic is not modelled.
- Times are whole seconds since the epoch, in UTC, and years have four digits, so the stored and ISO texts order their dates as the days they name. The cutoff's milliseconds are dropped.
- IndexedDB request failures are left out: every cache read, write and delete succeeds. In the source a rejected `removeSyncEntry` after a successful call (frontend/src/services/sync.js:36) falls into the catch and is handled like a failed call.
- JavaScript concurrency (awaits interleaving with other handlers) is modelled only through the `syncing` guard of the drain. Each action runs to completion.
- Console logging is left out throughout.
- The editor's `navigate` calls, the fetch of categories on mount, and the failure path of the recipe load are left out.
- `RecipeEditor.Editor.HandleSave` issues the request and clears `saving`; the store call it awaits is `Store.AppStore.CreateRecipe` or `UpdateRecipe`.
- The editor never sends a `description`, so the payload's description is always null.
- `Sync.Handler`: lookups that JavaScript would resolve on the prototype chain of the action table (for example `"toString"`) are not modelled. Only the thirteen own names find a handler.
- Seeding runs its inserts in a transaction. Those inserts cannot fail in the model, so the all-or-nothing case does not arise.
- Each `startSyncListener` call is modelled as (un)registering the single handler, not as a stack of listeners.
- The JSX markup, styling and components other than the two screens are left out.

## Findings

| source | as written | input that shows it | evidently intended | confidence | as-written member | corrected member |
|---|---|---|---|---|---|---|
| frontend/src/services/liveUpdates.js:27-29 | The reconnect timer increments `reconnectAttempts` and then calls `connect`. `connect` calls `disconnect` because the errored source still exists, and `disconnect` sets the counter back to 0 (line 115). | Connect, transport error (1000 ms scheduled), timer fires, reconnect, transport error again: 1000 ms is scheduled again, and every later delay is 1000 ms as well. | The exponential backoff the comment at line 81 describes: 1 s, 2 s, 4 s and so on, up to 30 s. | not executed | LiveUpdates.RepeatedErrorsDoNotBackOff | LiveUpdates.FireIntended |
| backend/src/services/categorization.js:75-76 | `last_used < ?` compares texts: the stored `YYYY-MM-DD HH:MM:SS` against the ISO `YYYY-MM-DDTHH:MM:SS.sssZ`. On the cutoff's own day the space sorts below `T`, so the row counts as older whatever its time. | A row used once at 02:00, cleaned up with a cutoff of 01:00 the same day: it is deleted. | Delete only rows used once and last used before the cutoff time, as the comment at lines 64-67 says. | not executed | Categorization.CleanupRemovesRowUsedAfterCutoff | Categorization.WithoutStale |

`LiveUpdates.Fire` models the timer callback as written, and `LiveUpdates.FireWithSourceResets` gives the reset in general. The service class and `LiveUpdates.Step` follow the code as written, and `LiveUpdates.AtMostOnePending` holds for them. `LiveUpdates.StepIntended` and `LiveUpdates.RunIntended` are the same machine with `LiveUpdates.FireIntended` in place of `Fire`. It closes the old source and reconnects without resetting the counter. `LiveUpdates.AtMostOnePendingIntended` keeps the single-timer invariant for it. `LiveUpdates.IntendedBackoffDoubles` and `LiveUpdates.IntendedRepeatedErrorsBackOff` prove that the backoff then grows as the comment says.

`Categorization.CleanupOldMappings` models the delete as written, through `Categorization.KeptAsWritten`. `Categorization.WithoutStale` is the intended cleanup, and `Categorization.CleanupAsWrittenWithinIntended` bounds how far the two differ.
