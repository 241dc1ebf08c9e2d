# Stock ledger of the catalog management system, in Dafny

The catalog management system keeps products, suppliers and per-location stock records. Its
back end (Django REST framework with Celery tasks) applies stock movements and raises
threshold notifications. Its two front ends (a React/Redux client and a Svelte client) keep
client-side copies of the same lists. The same stock rules are written several times across
these layers:

- a record is LOW when `quantity <= minimum_threshold` and HIGH when `quantity >= maximum_threshold`, and LOW takes precedence;
- a movement is IN, OUT or ADJUST;
- the client lists must stay consistent after every fetch, create, update and delete.

This project models each of those places and proves what each one promises. It also proves
where the implementations disagree with one another.

Layout (one module per source file; the shared modules come first):

- `wrappers.dfy`: `Option` and `Result`.
- `text.dfy`: ASCII lower-casing, `includes`, JavaScript `||` on strings, and decimal rendering and parsing of integers.
- `lists.dfy`: order-preserving filter, `Array.prototype.slice`, pagination, and replace/remove by key.
- `json.dfy`: untyped values and the truthiness rules of Python and JavaScript.
- `entities.dfy`: the records the clients hold.
- `ledger.dfy`: the threshold classifier and the client-side movement rule shared by both stores.
- `transport.dfy`: how a request can fail, and the error-text fallback chains.
- `db.dfy`: the back-end tables, as a class with one sequence field per table.
- `tasks.dfy`, `product_views.dfy` and `serializers.dfy`: the back end.
- `stock_slice.dfy`, `notification_slice.dfy`, `product_slice.dfy` and `supplier_slice.dfy`: the Redux slices. Each is a class; each reducer case is a method.
- `stock_store.dfy`, `supplier_store.dfy`, `product_store.dfy`, `import_store.dfy`, `notification_store.dfy` and `navigation_store.dfy`: the Svelte stores. Each has a state datatype, pure transitions, and a class whose methods apply the transitions in the order the store does.
- `stock_list.dfy`, `stock_movements.dfy`, `product_list.dfy` and `dashboard.dfy`: the React pages. Each has pure list logic and a class for the page's `useState` fields.
- `api.dfy`: the React endpoint table and its request interceptor. `config.dfy` and `path_types.dfy`: the Svelte endpoint table and path guard.

HTTP requests, database queries and file parsing are outside the model. Every operation takes
as parameters the outcome of its request, the rows it reads, or the clock value it uses.

Divergences the model makes explicit:

- **ADJUST means three different things.**
  - Both clients leave the stock unchanged (`Ledger.AdjustIsNoOpOnClient`).
  - The adjustment task makes the movement's quantity the new absolute stock (`Tasks.AdjustDivergesFromClient`).
  - Bulk `update_stock` records the delta as the ADJUST quantity (`ProductViews.BulkDeltaIsNotAnAbsoluteAdjust`).
- **An OUT larger than the stock is treated differently.**
  - The task refuses it (`Tasks.UnderflowIsRefused`).
  - Both clients let the quantity go negative (`Ledger.OutCanGoNegativeOnClient`).
- **The alert lists are not recomputed.** After a movement, the clients' `lowStockItems` and `highStockItems` go stale (`Ledger.MovementMakesLowListStale`).
- **Crossed thresholds** (`maximum <= quantity <= minimum`):
  - the stock appears in both client lists;
  - the periodic scan alerts it twice;
  - the adjustment task raises only the LOW alert.
- **A missing performer rolls back the adjustment.** `Notification.user` is required, but `StockMovement.performed_by` is nullable. So a threshold alert for a movement nobody performed cannot be stored, and the whole adjustment is rolled back (`Tasks.AlertWithoutPerformerRollsBack`).

Where the repository's prose description and its code differ, the model follows the code:

- The client reducers enforce no lower bound on quantities.
- The client reducers treat ADJUST as "no change".
- The client reducers do not refresh the alert lists after a movement.
- The Svelte endpoint for stocks is `/stock/`, while the REST router and the React client use `/stocks/` (`Config.StockEndpointIsSingular`).

A movement's id is its position in the movement table plus one, and a stock record that `update_or_create` adds during an upload gets the table's new length as its id. The database would hand out a fresh id instead; the two agree only while no stock record has been deleted, because after a deletion the table's length can be an id already in use. A product's `current_stock`
is read from the first stock record of that product.

## Model

| member | source | states |
|---|---|---|
| Entities.MovementCode | backend/stock_app/models.py:87-91 | every movement type is stored as one of `IN`, `OUT`, `ADJUST` |
| Entities.MovementCodeInjective | backend/stock_app/models.py:87-91 | no two movement types share a code |
| Ledger.IsLow | frontend/src/store/slices/stockSlice.ts:108 | definition, no contract: the quantity is at or below the minimum threshold |
| Ledger.IsHigh | frontend/src/store/slices/stockSlice.ts:111 | definition, no contract: the quantity is at or above the maximum threshold |
| Ledger.LowItems | frontend/src/store/slices/stockSlice.ts:107-109 | the low list holds exactly the records with `quantity <= minimum_threshold`, with their multiplicities, in input order |
| Ledger.HighItems | frontend/src/store/slices/stockSlice.ts:110-112 | the high list holds exactly the records with `quantity >= maximum_threshold`, with their multiplicities, in input order |
| Ledger.Classify | backend/stock_app/tasks.py:164-175 | LOW iff at or below the minimum; HIGH iff above the minimum and at or above the maximum; NORMAL iff strictly between |
| Ledger.LevelOf | backend/stock_app/tasks.py:164-175 | definition, no contract: `Classify` of the record's quantity and thresholds; `LevelsPartition` proves that each record falls in exactly one level, and `CrossedThresholdsInBothLists` compares it with the low and high filters |
| Ledger.CrossedThresholdsInBothLists | frontend/src/store/slices/stockSlice.ts:107-112 | a record with `max <= q <= min` is in both the low and the high list, although it classifies LOW |
| Ledger.WellFormedListsDisjoint | frontend/src/store/slices/stockSlice.ts:107-112 | with `min < max` for every record, the two lists share no record |
| Ledger.LevelsPartition | backend/stock_app/tasks.py:164-175 | LOW, HIGH-only and NORMAL records together count every record exactly once |
| Ledger.ClientDelta | frontend/src/store/slices/stockSlice.ts:142-146 | IN gives `+q`, OUT gives `-q`, ADJUST gives 0 |
| Ledger.ApplyMovement | frontend/src/store/slices/stockSlice.ts:140-148 | the length is kept; records of the movement's product gain the delta; every other record is unchanged |
| Ledger.AdjustIsNoOpOnClient | frontend-svelte/src/lib/stores/stockStore.ts:136-140 | an ADJUST movement leaves every client-side stock as it was |
| Ledger.OutCanGoNegativeOnClient | frontend/src/store/slices/stockSlice.ts:144 | any OUT larger than a matching stock leaves it at the difference, below zero: no lower bound |
| Ledger.ApplyTwiceCountsTwice | frontend/src/store/slices/stockSlice.ts:140-148 | applying the same movement twice moves the stock by twice the delta: not idempotent |
| Ledger.MovementMakesLowListStale | frontend/src/store/slices/stockSlice.ts:136-149 | an IN that lifts a low record above its minimum leaves it out of the low level while the stored low list still holds it |
| Transport.RejectValue | frontend/src/store/slices/stockSlice.ts:35 | the thunk rejects with the body's `message` when it is truthy, otherwise with the fallback |
| Transport.AxiosErrorText | frontend-svelte/src/lib/stores/stockStore.ts:102 | the stored error is `detail`, then the error's `message`, then the fallback, each taken only when truthy |
| Transport.AxiosErrorTextNonEmpty | frontend-svelte/src/lib/stores/stockStore.ts:102 | with a non-empty fallback the stored error text is never empty |
| Transport.CaughtMessage | frontend-svelte/src/lib/stores/supplierStore.ts:61 | an `Error` yields its message; any other thrown value yields 'An unknown error occurred' |
| Transport.FailureText | frontend-svelte/src/lib/stores/supplierStore.ts:80-93 | a refused request yields `detail \|\| fallback` or the bare fallback, as the store reads the body or not; a thrown value yields its caught message |
| Transport.RefusalTextNonEmpty | frontend-svelte/src/lib/stores/supplierStore.ts:80-93 | a refused request never stores an empty error text when the fallback is non-empty |
| Transport.RethrownValue | frontend-svelte/src/lib/stores/supplierStore.ts:95 | the value the store rethrows carries exactly the error text it stored |
| Json.TruthinessDiffersOnlyOnEmptyCollections | backend/stock_app/serializers.py:155 | Python and JavaScript truthiness disagree exactly on the empty array and the empty object |
| Text.OrElse | frontend/src/store/slices/stockSlice.ts:116 | JavaScript `a \|\| b` on an optional string: `a` when it is non-empty, otherwise `b` |
| Text.EmptyTermMatches | frontend/src/pages/stock/StockList.tsx:68-71 | the empty search term matches every text |
| Text.ParseIntToString | backend/stock_app/views/product_views.py:217-225 | the decimal text of an integer parses back to that integer |
| Text.IntToStringInjective | frontend/src/services/api.ts:46-47 | different integers render to different decimal texts |
| Lists.Take | frontend/src/pages/dashboard/Dashboard.tsx:113 | `slice(0, n)`: the first `n` elements, or all of them when there are fewer |
| Lists.Filter | frontend/src/pages/stock/StockList.tsx:68-71 | `filter`: never longer than the input, and an element is kept iff it is in the input and passes |
| Lists.FilterMultiplicity | frontend/src/pages/stock/StockList.tsx:68-71 | a passing element keeps all its occurrences, a failing one keeps none |
| Lists.Slice | frontend/src/pages/stock/StockList.tsx:73-76 | `slice(start, end)` with both bounds clamped: `min(end, len) - start` elements when positive, else none, the k-th being element `start + k` |
| Lists.PageOf | frontend/src/pages/stock/StockList.tsx:73-76 | at most `rowsPerPage` rows, the k-th being row `page*rowsPerPage + k` of the list |
| Lists.FirstIndex | frontend/src/store/slices/productSlice.ts:141 | `findIndex`: the index of an element with the key and no earlier one; none iff no element has the key |
| Lists.PageContents | frontend/src/pages/stock/StockList.tsx:73-76 | a page holds exactly `PageLength` rows (full pages, then the remainder, then none), and its k-th row is row `page*rowsPerPage + k` of the list |
| Lists.PagesAreContiguous | frontend/src/pages/stock/StockList.tsx:73-76 | consecutive pages continue where the previous one ended |
| Lists.FilterIsSubsequence | frontend/src/pages/stock/StockList.tsx:68-71 | a filter keeps the kept elements in their original order |
| Lists.ReplaceFirst | frontend/src/store/slices/productSlice.ts:141-144 | `findIndex` then assign: only the first element with the key is replaced, and the length is kept |
| Lists.ReplaceAll | frontend-svelte/src/lib/stores/supplierStore.ts:121 | `map`: every element with the key is replaced, and the length is kept |
| Lists.RemoveKey | frontend/src/store/slices/productSlice.ts:151 | the elements with the key are removed; the others stay, as a subsequence (order kept) |
| Lists.RemoveKeyMultiplicity | frontend/src/store/slices/productSlice.ts:151 | an element without the key keeps every occurrence, one with the key keeps none |
| StockSlice.ThunkRejectionWins | frontend/src/store/slices/stockSlice.ts:114-117 | the thunk's non-empty rejection value always wins over the reducer's 'An error occurred' |
| StockSlice.StockState.constructor | frontend/src/store/slices/stockSlice.ts:16-25 | empty lists, null summaries, not loading, no error |
| StockSlice.StockState.ResetState | frontend/src/store/slices/stockSlice.ts:95 | the state becomes `initialState` |
| StockSlice.StockState.ClearError | frontend/src/store/slices/stockSlice.ts:92-94 | only `error` changes, to null |
| StockSlice.StockState.Pending | frontend/src/store/slices/stockSlice.ts:100-103 | loading is set and the error cleared; nothing else changes |
| StockSlice.StockState.Rejected | frontend/src/store/slices/stockSlice.ts:114-117 | loading stops and the error is the payload or 'An error occurred' |
| StockSlice.StockState.FetchStocksFulfilled | frontend/src/store/slices/stockSlice.ts:104-113 | the stocks are the payload, and the alert lists are the payload's low and high records |
| StockSlice.StockState.FetchMovementsFulfilled | frontend/src/store/slices/stockSlice.ts:123-126 | the movements are the payload |
| StockSlice.StockState.CreateMovementFulfilled | frontend/src/store/slices/stockSlice.ts:136-149 | the payload is appended to the movements, and the stocks move by the client rule |
| StockSlice.StockState.DailySummaryFulfilled | frontend/src/store/slices/stockSlice.ts:159-162 | the daily summary is the payload |
| StockSlice.StockState.WeeklySummaryFulfilled | frontend/src/store/slices/stockSlice.ts:172-175 | the weekly summary is the payload |
| StockSlice.StockState.FetchStocks | frontend/src/store/slices/stockSlice.ts:28-38 | a whole dispatch: success stores the stocks and the derived lists; failure keeps all three lists and stores the rejection text; the other fields are unchanged |
| StockSlice.StockState.FetchStockMovements | frontend/src/store/slices/stockSlice.ts:40-50 | success replaces the movements; failure keeps them; stocks, lists and summaries are unchanged |
| StockSlice.StockState.CreateStockMovement | frontend/src/store/slices/stockSlice.ts:52-62 | success grows the movements by exactly the payload and keeps the stock count; failure changes neither; the alert lists are never touched |
| StockSlice.StockState.FetchDailySummary | frontend/src/store/slices/stockSlice.ts:64-74 | success replaces the daily summary; failure keeps it; every list is unchanged |
| StockSlice.StockState.FetchWeeklySummary | frontend/src/store/slices/stockSlice.ts:76-86 | success replaces the weekly summary; failure keeps it; every list is unchanged |
| StockStore.Begin | frontend-svelte/src/lib/stores/stockStore.ts:86 | loading is set and the error cleared; every other field is kept |
| StockStore.Fail | frontend-svelte/src/lib/stores/stockStore.ts:97-103 | loading stops and the error is the fallback-chain text; every list is kept |
| StockStore.StocksLoaded | frontend-svelte/src/lib/stores/stockStore.ts:88-96 | the stocks are the response; the low and high lists are its order-preserving `<=`/`>=` filters; the other lists are kept |
| StockStore.MovementCreated | frontend-svelte/src/lib/stores/stockStore.ts:131-150 | the movement goes last; matching stocks move by the delta and the others do not; the length is kept; the alert lists are kept |
| StockStore.MovementCreatedUsesClientRule | frontend-svelte/src/lib/stores/stockStore.ts:132-143 | the Svelte store applies the same movement rule as the Redux slice |
| StockStore.AdjustLeavesStocks | frontend-svelte/src/lib/stores/stockStore.ts:136-140 | an ADJUST movement leaves the stocks unchanged in the store |
| StockStore.FailureKeepsLists | frontend-svelte/src/lib/stores/stockStore.ts:151-158 | a failed operation leaves every list as it was before it began, not loading and with an error |
| StockStore.StockStore.constructor | frontend-svelte/src/lib/stores/stockStore.ts:49-62 | the store starts at `initialState` |
| StockStore.StockStore.FetchProducts | frontend-svelte/src/lib/stores/stockStore.ts:66-83 | begin, then the products or the failure |
| StockStore.StockStore.FetchStocks | frontend-svelte/src/lib/stores/stockStore.ts:85-105 | begin, then `StocksLoaded` or `Fail` with 'Failed to fetch stocks' |
| StockStore.StockStore.FetchStockMovements | frontend-svelte/src/lib/stores/stockStore.ts:107-124 | begin, then the movements or the failure |
| StockStore.StockStore.CreateStockMovement | frontend-svelte/src/lib/stores/stockStore.ts:126-159 | begin, then `MovementCreated` or `Fail` |
| StockStore.StockStore.FetchDailySummary | frontend-svelte/src/lib/stores/stockStore.ts:161-178 | begin, then the daily summary or the failure |
| StockStore.StockStore.FetchWeeklySummary | frontend-svelte/src/lib/stores/stockStore.ts:180-197 | begin, then the weekly summary or the failure |
| StockStore.StockStore.Reset | frontend-svelte/src/lib/stores/stockStore.ts:199 | the state is `initialState` again |
| Db.Database.constructor | backend/stock_app/models.py:75-81 | the tables start with the given products, stocks and movements, and no notifications, price history or uploads |
| Db.StockFor | backend/stock_app/tasks.py:148 | `get`: found iff exactly one stock has the product; none iff no stock has it; several iff two do |
| Db.FirstStock | backend/stock_app/serializers.py:51 | `first()`: the lowest index with the product, none iff no stock has it |
| Db.GetAgreesWithFirst | backend/stock_app/tasks.py:148 | when `get` succeeds it returns the same record as `first()` |
| Tasks.NewQuantity | backend/stock_app/tasks.py:151-159 | refused iff OUT exceeds the stock; an accepted OUT subtracts and stays non-negative; IN adds; ADJUST sets the quantity absolutely |
| Tasks.TaskAgreesWithClientOnInOut | backend/stock_app/tasks.py:151-155 | for accepted IN and OUT, the task and the clients compute the same new quantity |
| Tasks.AdjustDivergesFromClient | backend/stock_app/tasks.py:158-159 | ADJUST sets the stock to the movement's quantity in the task but leaves it on the clients; they differ unless equal |
| Tasks.AlertFor | backend/stock_app/tasks.py:164-175 | a LOW alert iff LOW, a HIGH alert iff HIGH, and none iff NORMAL: at most one, and LOW wins |
| Tasks.AlertMessage | backend/stock_app/tasks.py:167 | the text is `Low` or `High`, ` stock alert for `, the product's name, `. Current quantity: `, then the quantity's decimal text, as those pieces at those positions |
| Tasks.AlertMessageReadsBack | backend/stock_app/tasks.py:167-173 | equal alert texts for the same product name have the same kind and the same quantity |
| Tasks.Adjustment | backend/stock_app/tasks.py:143-179 | 'does not exist' iff the movement id is unknown; for a known movement, no stock record of its product gives `StockDoesNotExist` and several give `MultipleStocksReturned`; with exactly one, a refused `NewQuantity` gives its error, otherwise the task succeeds iff no alert is due or the movement has a performer (else `IntegrityError`); on success the quantity is `NewQuantity` of the movement, and an alert is raised iff the new level is not NORMAL, addressed to the performer, with the kind `AlertFor` gives and the message `AlertMessage` of that kind, the product's name and the new quantity |
| Tasks.UnderflowIsRefused | backend/stock_app/tasks.py:154-157 | an OUT larger than the stock ends in 'Insufficient stock quantity' |
| Tasks.AlertWithoutPerformerRollsBack | backend/stock_app/tasks.py:164-175 | an alert for a movement with no performer cannot be stored, so the adjustment is refused as a whole |
| Tasks.LowAlertWins | backend/stock_app/tasks.py:164-170 | a stock at or below its minimum raises the LOW alert, even when it is also at its maximum |
| Tasks.HighAlertAboveMaximum | backend/stock_app/tasks.py:170-175 | a stock left above its minimum and at or above its maximum raises a STOCK_HIGH alert reading `High stock alert for <name>. Current quantity: <q>` |
| Tasks.ProcessStockAdjustment | backend/stock_app/tasks.py:143-179 | on failure neither the stocks nor the notifications change (the atomic block); on success only the one stock changes and at most one notification is added |
| Tasks.UploadStep | backend/stock_app/tasks.py:35-59 | each row counts once; a failed row writes nothing; a processed row had a product with the SKU and a quantity, records exactly one ADJUST movement for it, and sets the product's one stock to the row's quantity and location, or appends a new stock with the default thresholds when it had none |
| Tasks.UploadRowLeavesOneStock | backend/stock_app/tasks.py:39-45 | after a processed row the product has exactly one stock, holding the row's quantity and location, and no other product's stock changes |
| Tasks.UploadReference | backend/stock_app/tasks.py:52 | definition, no contract: `FILE-UPLOAD-` followed by the upload id; `UploadReferenceNamesUpload` proves it one-to-one |
| Tasks.UploadMovement | backend/stock_app/tasks.py:48-54 | an ADJUST of the row's quantity for the row's product, by nobody, with the upload's `FILE-UPLOAD-<id>` reference |
| Tasks.UploadReferenceNamesUpload | backend/stock_app/tasks.py:52 | two uploads never share a movement reference |
| Tasks.UploadFold | backend/stock_app/tasks.py:34-59 | the loop only adds to the counters, the stocks and the movements |
| Tasks.UploadCountsAddUp | backend/stock_app/tasks.py:31-62 | `records_processed + records_failed` is the number of rows iterated |
| Tasks.UploadMovementsTagged | backend/stock_app/tasks.py:48-54 | one movement per processed row, each an ADJUST with reference `FILE-UPLOAD-<id>` and no performer; the earlier movements stay |
| Tasks.ProcessStockFileUpload | backend/stock_app/tasks.py:19-64 | an unknown upload fails and changes nothing; otherwise the tables are the fold of the rows and the record is COMPLETED with the two counters, which add up to the row count |
| Tasks.ApplyUploadRows | backend/stock_app/tasks.py:30-59 | the loop leaves the tables and counters the fold of the rows describes, and the counters add up to the row count |
| Tasks.AlertRow | backend/stock_app/tasks.py:82-94 | definition, no contract: a notification of the kind, with `AlertMessage` of the product's name and the quantity, for the recipient |
| Tasks.ScanAlerts | backend/stock_app/tasks.py:81-94 | one alert per selected stock, in order, of the given kind, with the stock's name and quantity |
| Tasks.ScanAlertsSnoc | backend/stock_app/tasks.py:81-86 | scanning one more stock appends exactly its alert |
| Tasks.CheckStockLevelsAsWritten | backend/stock_app/tasks.py:77 | the scan as written always ends in a `NameError` |
| Tasks.SupplierUser | backend/stock_app/tasks.py:85 | definition, no contract: always none, because `Supplier` has no `user` field |
| Tasks.CheckStockLevelsNullRecipient | backend/stock_app/tasks.py:81-94 | with `models` imported, the scan as written fails with an `IntegrityError` iff some stock is low or high (its alert has no user) |
| Tasks.CheckStockLevels | backend/stock_app/tasks.py:75-94 | the scan adds a LOW alert for each low stock, then a HIGH alert for each high stock, in table order |
| Tasks.CreateAlerts | backend/stock_app/tasks.py:81-86 | one of the two loops appends the alerts of its selection, in order |
| Tasks.CrossedStockAlertedTwice | backend/stock_app/tasks.py:77-94 | a stock with crossed thresholds gets both a LOW and a HIGH alert from the scan, while the adjustment task would raise only LOW |
| Serializers.CurrentStock | backend/stock_app/serializers.py:50-52 | 0 when the product has no stock record, otherwise the quantity of its first record |
| Serializers.CurrentStockReadsFirstStock | backend/stock_app/serializers.py:50-52 | after the first record of a product is set to q, its `current_stock` is q |
| Serializers.FirstMissing | backend/stock_app/serializers.py:153-156 | none iff every required field is mapped; otherwise the first unmapped field in order |
| Serializers.ValidateColumnMapping | backend/stock_app/serializers.py:152-157 | accepted iff `name` and `sku` are both present and truthy; an accepted mapping is returned unchanged; `name` is reported before `sku` |
| Serializers.ValidateImport | backend/stock_app/serializers.py:146-162 | accepted iff the mapping is valid and `data_start_row > header_row` after defaults; the mapping error comes first |
| Serializers.DefaultsSatisfyRowRule | backend/stock_app/serializers.py:148-149 | with both rows defaulted (0 and 1), a valid mapping is accepted |
| Serializers.DefaultStartRowNeedsLowHeader | backend/stock_app/serializers.py:159-162 | with the start row defaulted, the request is accepted iff the header row is below 1 |
| Serializers.AcceptedOffsetIsNatural | backend/stock_app/serializers.py:159-162 | an accepted request gives a non-negative `iloc` offset |
| Serializers.SerializeConfiguration | backend/stock_app/serializers.py:77-83 | twelve keys, none of them `password` |
| Serializers.ConfigurationValues | backend/stock_app/serializers.py:77-83 | `id`, `name`, `import_type`, `host`, `port` (null when unset), `username`, `remote_path`, `is_active`, `schedule`, `last_run` (null when unset), `created_at` and `updated_at`, each with the record's value |
| Serializers.ConfigurationKeysDistinct | backend/stock_app/serializers.py:77-83 | no key appears twice |
| Serializers.PasswordNeverRead | backend/stock_app/serializers.py:81-83 | the output does not depend on the password |
| Serializers.WriteConfiguration | backend/stock_app/serializers.py:77-83 | an update is accepted iff every given writable field is read by its serializer field (`import_type` one of the three choices) and, for a full update, `name` and `import_type` are given; an accepted one keeps the id and `created_at` and sets `updated_at` to the save time |
| Serializers.WriteStoresGivenFields | backend/stock_app/serializers.py:77-83 | each given field, password included, is stored as its serializer field reads it |
| Serializers.WriteKeepsOtherFields | backend/stock_app/serializers.py:77-83 | every field the update does not give keeps its value |
| Serializers.WriteKeepsLimits | backend/stock_app/models.py:111-119 | with field readers that enforce `max_length` and a non-blank name, an accepted update keeps the record within those limits |
| Serializers.WrittenPasswordStaysHidden | backend/stock_app/serializers.py:81-83 | an accepted update without its password is accepted too and reads back the same |
| ProductViews.ExactMatch | backend/stock_app/views/product_views.py:67 | definition, no contract: the header equals the field's name after lower-casing both; `ExactMatchPreferred` states its use |
| ProductViews.PartialMatch | backend/stock_app/views/product_views.py:72 | definition, no contract: the lower-cased field's name occurs in the lower-cased header; `PartialMatchFallback` and `NoSuggestionIffNoPartialMatch` state its use |
| ProductViews.SuggestedHeader | backend/stock_app/views/product_views.py:65-74 | the suggestion, when there is one, is one of the headers |
| ProductViews.NoSuggestionIffNoPartialMatch | backend/stock_app/views/product_views.py:65-74 | there is no suggestion iff no header contains the field's name, ignoring case |
| ProductViews.HeaderTexts | backend/stock_app/views/product_views.py:58 | the header strings exist iff every header cell is a string, and then they are those cells' strings in order |
| ProductViews.SuggestMapping | backend/stock_app/views/product_views.py:62-74 | an error iff some header cell is not a string, and the error is the first such cell; otherwise the keys are exactly the model fields with a suggestion, each value is that field's suggestion and is one of the header cells |
| ProductViews.ImportColumns | backend/stock_app/views/product_views.py:108-111 | definition, no contract: line `header_row` of the file, the one `skiprows=header_row` leaves as column names, or nothing past the end; `PreviewHeadersAsWritten` and `PreviewImport` are stated against it |
| ProductViews.PreviewHeadersAsWritten | backend/stock_app/views/product_views.py:53-58 | the preview reads line `header_row + 1` of the file, the line after the one the import takes as column names |
| ProductViews.PreviewAsWrittenReadsDataLine | backend/stock_app/views/product_views.py:53-58 | for a file with header `name` and one product `Pen`, the preview's header is `Pen` and the field `name` gets no suggestion, while the import's column `name` would match it |
| ProductViews.PreviewImport | backend/stock_app/views/product_views.py:46-86 | with the header taken from the import's column-name line: out of range iff that line is missing, a non-string error names one of its cells, and every suggestion is a model field mapped to one of its columns |
| ProductViews.SuggestFields | backend/stock_app/views/product_views.py:65-74 | for string headers, the loop over any list of fields maps exactly the fields with a suggestion |
| ProductViews.ExactMatchPreferred | backend/stock_app/views/product_views.py:67-70 | the first header equal to the field's name, ignoring case, is the suggestion |
| ProductViews.PartialMatchFallback | backend/stock_app/views/product_views.py:71-74 | with no exact match, the first header containing the field's name is the suggestion |
| ProductViews.SuggestFor | backend/stock_app/views/product_views.py:67-74 | for string headers, the first exact match, else the first partial match, else nothing |
| ProductViews.CellValue | backend/stock_app/views/product_views.py:122-124 | definition, no contract: `NaN` becomes null, any other value is kept; `ProductData` states it for each mapped field |
| ProductViews.ProductData | backend/stock_app/views/product_views.py:118-125 | exactly the mapped fields whose column exists, each with its row value; NaN becomes null |
| ProductViews.ErrorLine | backend/stock_app/views/product_views.py:133 | definition, no contract; `ErrorLineShape` states its layout |
| ProductViews.ErrorLineShape | backend/stock_app/views/product_views.py:133 | an error line is `Row `, the index's decimal text (which parses back to the index), `: `, the errors, then a newline |
| ProductViews.ImportFold | backend/stock_app/views/product_views.py:117-133 | definition, no contract: the row loop as a left fold; `ImportTallyConsistent`, `ImportSavesOnlyValid` and `ImportSkusDistinct` state its properties, and `ImportRows` and `ImportProducts` are proved equal to it |
| ProductViews.ImportTallyConsistent | backend/stock_app/views/product_views.py:117-133 | each row counts once; one saved product per processed row; the error text is empty iff no row failed |
| ProductViews.ImportSavesOnlyValid | backend/stock_app/views/product_views.py:117-133 | each saved product passed the validator against the products saved before it |
| ProductViews.ImportSkusDistinct | backend/stock_app/models.py:44 | with a validator that enforces the unique SKU, the products one import saves have distinct SKUs |
| ProductViews.ImportProducts | backend/stock_app/views/product_views.py:88-143 | the rows from `data_start_row - header_row - 1` on are tried; the record ends COMPLETED; `processed + failed` is the number of rows tried; `errors` is null iff none failed |
| ProductViews.ImportRows | backend/stock_app/views/product_views.py:117-133 | the loop leaves the counters, error text and saved products the fold of the rows describes |
| ProductViews.ColumnMapping | backend/stock_app/views/product_views.py:119 | exactly the fields mapped to a string column name |
| ProductViews.Repriced | backend/stock_app/views/product_views.py:167-176 | selected products get the new price; the others are unchanged |
| ProductViews.PriceChanges | backend/stock_app/views/product_views.py:167-174 | definition, no contract; `PriceChangesRecordOldPrice` and `PriceChangesCount` state its properties |
| ProductViews.PriceChangesRecordOldPrice | backend/stock_app/views/product_views.py:168-174 | every price change is a SALE change to the new price by the user, for a selected product, and records that product's previous price |
| ProductViews.PriceChangesCount | backend/stock_app/views/product_views.py:167-174 | one price change per selected product |
| ProductViews.BulkReference | backend/stock_app/views/product_views.py:188 | definition, no contract: `BULK-ADJ-` followed by the product id |
| ProductViews.BulkStockStep | backend/stock_app/views/product_views.py:181-192 | a product without stock is skipped; otherwise its first stock becomes the target and one ADJUST movement `BULK-ADJ-<id>` by the user records a delta with `old + delta == new` |
| ProductViews.BulkStockFold | backend/stock_app/views/product_views.py:178-192 | definition, no contract: `BulkStockStep` over the selected products in order; `BulkStockFoldTouchesOnlyTargets` states what it changes, and `UpdateStocks` is proved equal to it |
| ProductViews.BulkStepSetsCurrentStock | backend/stock_app/views/product_views.py:191 | after the step the product's `current_stock` is the target |
| ProductViews.BulkDeltaIsNotAnAbsoluteAdjust | backend/stock_app/views/product_views.py:187 | the ADJUST quantity recorded is not the new stock (unless the old stock was 0), so the task would read it differently |
| ProductViews.BulkStockFoldTouchesOnlyTargets | backend/stock_app/views/product_views.py:178-192 | the stock table keeps its length; a stock either stays or is a selected product's stock set to the target; the movements only grow, keeping the earlier ones |
| ProductViews.WithActive | backend/stock_app/views/product_views.py:194-196 | selected products are active iff the action is `activate`; nothing else changes |
| ProductViews.BulkUpdate | backend/stock_app/views/product_views.py:154-198 | each action changes only its own tables, as the fold or function above says; a missing price or quantity changes nothing |
| ProductViews.UpdatePrices | backend/stock_app/views/product_views.py:164-176 | the loop reprices the selected products and appends their price changes |
| ProductViews.UpdateStocks | backend/stock_app/views/product_views.py:178-192 | the loop applies the bulk stock step to each selected product in table order |
| ProductViews.DecimalText | backend/stock_app/views/product_views.py:222 | an optional '-', digits, '.', two digits, and `ReadDecimal` of the text is the value in hundredths |
| ProductViews.Listed | backend/stock_app/views/product_views.py:217-223 | the id, name, SKU, barcode and status as stored, a price text that reads back as the price, and the first stock's quantity (0 with no stock) |
| ProductViews.ExportRow | backend/stock_app/views/product_views.py:217-225 | seven cells in header order; the status cell is 'Active' iff the product is active and 'Inactive' iff not |
| ProductViews.ExportNumbersReadBack | backend/stock_app/views/product_views.py:218-223 | the id and current-stock cells parse back to the numbers written |
| ProductViews.ExportTable | backend/stock_app/views/product_views.py:212-225 | the header row, then one row per product in order |
| NotificationSlice.CountUnread | frontend/src/store/slices/notificationSlice.ts:65-67 | at most the list length, and 0 iff every notification is read |
| NotificationSlice.CountUnreadConcat | frontend/src/store/slices/notificationSlice.ts:64-67 | the unread count of a concatenation is the sum of the counts |
| NotificationSlice.CountUnreadAfterMark | frontend/src/store/slices/notificationSlice.ts:89-92 | marking an unread notification read lowers the count by exactly one |
| NotificationSlice.MarkFirstRead | frontend/src/store/slices/notificationSlice.ts:88-92 | only the first notification with the id becomes read; an absent id changes nothing; ids and texts are kept |
| NotificationSlice.MarkFirstReadIdempotent | frontend/src/store/slices/notificationSlice.ts:89 | marking the same id twice is marking it once |
| NotificationSlice.MarkAllRead | frontend/src/store/slices/notificationSlice.ts:96-98 | every notification is read and the unread count is 0 |
| NotificationSlice.CountAllUnread | frontend/src/store/slices/notificationSlice.ts:77-81 | the count equals the length iff no notification is read |
| NotificationSlice.NotificationState.constructor | frontend/src/store/slices/notificationSlice.ts:12-17 | empty, counter 0, consistent |
| NotificationSlice.NotificationState.ClearError | frontend/src/store/slices/notificationSlice.ts:60-62 | only the error changes |
| NotificationSlice.NotificationState.AddNotification | frontend/src/store/slices/notificationSlice.ts:63-68 | the payload goes first; the counter grows iff it is unread; a consistent counter stays consistent |
| NotificationSlice.NotificationState.FetchUnreadPending | frontend/src/store/slices/notificationSlice.ts:73-76 | loading, no error |
| NotificationSlice.NotificationState.FetchUnreadFulfilled | frontend/src/store/slices/notificationSlice.ts:77-81 | the list is the payload and the counter its length, which is consistent iff every fetched notification is unread |
| NotificationSlice.NotificationState.FetchUnreadRejected | frontend/src/store/slices/notificationSlice.ts:82-85 | the list is kept and the payload is the error |
| NotificationSlice.NotificationState.MarkAsReadFulfilled | frontend/src/store/slices/notificationSlice.ts:87-93 | an unread first match becomes read and the counter drops by one but not below 0; otherwise nothing changes; consistency is kept |
| NotificationSlice.NotificationState.MarkAllAsReadFulfilled | frontend/src/store/slices/notificationSlice.ts:95-100 | everything is read and the counter is 0 and consistent |
| ProductSlice.SetFirstStock | frontend/src/store/slices/productSlice.ts:107-110 | only the first product with the id gets the quantity; an absent id changes nothing |
| ProductSlice.SetFirstStockKeepsIds | frontend/src/store/slices/productSlice.ts:107-110 | the ids and their order are kept |
| ProductSlice.WithFetchedStock | frontend/src/store/slices/productSlice.ts:158-160 | any selected product gets the fetched quantity, whatever its id; nothing else changes |
| ProductSlice.ProductState.constructor | frontend/src/store/slices/productSlice.ts:12-17 | empty list, no selection, not loading, no error |
| ProductSlice.ProductState.ClearError | frontend/src/store/slices/productSlice.ts:96-98 | only the error changes |
| ProductSlice.ProductState.SetSelectedProduct | frontend/src/store/slices/productSlice.ts:99-101 | the selection is the payload |
| ProductSlice.ProductState.ClearSelectedProduct | frontend/src/store/slices/productSlice.ts:102-104 | the selection is cleared, nothing else |
| ProductSlice.ProductState.UpdateProductStock | frontend/src/store/slices/productSlice.ts:105-114 | the first matching product gets the quantity, and so does the selection iff it has the id |
| ProductSlice.ProductState.FetchProductsPending | frontend/src/store/slices/productSlice.ts:119-122 | loading, no error |
| ProductSlice.ProductState.FetchProductsFulfilled | frontend/src/store/slices/productSlice.ts:123-126 | the list is the payload |
| ProductSlice.ProductState.FetchProductsRejected | frontend/src/store/slices/productSlice.ts:127-130 | the list is kept and the error is set |
| ProductSlice.ProductState.FetchProductDetailsFulfilled | frontend/src/store/slices/productSlice.ts:132-134 | the selection is the payload |
| ProductSlice.ProductState.CreateProductFulfilled | frontend/src/store/slices/productSlice.ts:136-138 | the payload is appended at the end |
| ProductSlice.ProductState.UpdateProductFulfilled | frontend/src/store/slices/productSlice.ts:140-148 | only the first matching product is replaced; the length is kept; the selection is replaced iff its id matches |
| ProductSlice.ProductState.DeleteProductFulfilled | frontend/src/store/slices/productSlice.ts:150-155 | every product with the id is removed and the others keep their order; the selection is cleared iff it matches |
| ProductSlice.ProductState.FetchProductStockFulfilled | frontend/src/store/slices/productSlice.ts:157-165 | the selection and the first product with the stock's product id get the quantity |
| ProductSlice.UpdateThenDelete | frontend/src/store/slices/productSlice.ts:140-155 | an update followed by a delete of the same id leaves what the delete alone leaves |
| SupplierSlice.SupplierState.constructor | frontend/src/store/slices/supplierSlice.ts:12-17 | empty list, no selection, not loading, no error |
| SupplierSlice.SupplierState.ClearError | frontend/src/store/slices/supplierSlice.ts:84-86 | only the error changes |
| SupplierSlice.SupplierState.SetSelectedSupplier | frontend/src/store/slices/supplierSlice.ts:87-89 | the selection is the payload |
| SupplierSlice.SupplierState.ClearSelectedSupplier | frontend/src/store/slices/supplierSlice.ts:90-92 | the selection is null and nothing else changes |
| SupplierSlice.SupplierState.FetchSuppliersPending | frontend/src/store/slices/supplierSlice.ts:97-100 | loading, no error |
| SupplierSlice.SupplierState.FetchSuppliersFulfilled | frontend/src/store/slices/supplierSlice.ts:101-104 | the list is replaced wholesale by the payload |
| SupplierSlice.SupplierState.FetchSuppliersRejected | frontend/src/store/slices/supplierSlice.ts:105-108 | the previous list is kept and the error set |
| SupplierSlice.SupplierState.FetchSupplierDetailsFulfilled | frontend/src/store/slices/supplierSlice.ts:110-112 | the selection is the payload |
| SupplierSlice.SupplierState.CreateSupplierFulfilled | frontend/src/store/slices/supplierSlice.ts:114-116 | the payload is appended at the end |
| SupplierSlice.SupplierState.UpdateSupplierFulfilled | frontend/src/store/slices/supplierSlice.ts:118-126 | only the first matching entry is replaced, and the selection too iff it has the id |
| SupplierSlice.SupplierState.DeleteSupplierFulfilled | frontend/src/store/slices/supplierSlice.ts:128-133 | every entry with the id is removed; the selection is cleared iff it matches |
| SupplierSlice.UpdateReplacesOnlyFirstDuplicate | frontend/src/store/slices/supplierSlice.ts:119-122 | when an id occurs twice, the slice keeps every later copy as it was, where the Svelte store's `map` replaces it |
| SupplierStore.Normalise | frontend-svelte/src/lib/stores/supplierStore.ts:57 | a bare array is kept; an envelope gives its `results` or `[]`; a null body throws |
| SupplierStore.NormaliseShapesAgree | frontend-svelte/src/lib/stores/supplierStore.ts:57 | the two response shapes give the same list |
| SupplierStore.SearchParams | frontend-svelte/src/lib/stores/supplierStore.ts:41-44 | the `search` parameter is present iff the query is truthy, and carries it |
| SupplierStore.FetchUrl | frontend-svelte/src/lib/stores/supplierStore.ts:46 | the endpoint, `?`, then `search=<query>` iff the query is truthy |
| SupplierStore.SupplierUrl | frontend-svelte/src/lib/stores/supplierStore.ts:104 | the endpoint, the id's decimal text, and `/` |
| SupplierStore.SupplierUrlInjective | frontend-svelte/src/lib/stores/supplierStore.ts:104 | different ids give different URLs |
| SupplierStore.Begin | frontend-svelte/src/lib/stores/supplierStore.ts:38 | loading, no error, same list |
| SupplierStore.Fail | frontend-svelte/src/lib/stores/supplierStore.ts:60-63 | not loading, the error set, same list |
| SupplierStore.FetchResult | frontend-svelte/src/lib/stores/supplierStore.ts:46-63 | a non-null body gives a list; a refusal gives 'Failed to fetch suppliers' without reading `detail`; a thrown value gives its message |
| SupplierStore.Created | frontend-svelte/src/lib/stores/supplierStore.ts:88 | the server's supplier goes last and the others are kept |
| SupplierStore.Updated | frontend-svelte/src/lib/stores/supplierStore.ts:121 | every entry with the requested id is replaced, whatever id the reply carries; the length is kept |
| SupplierStore.Deleted | frontend-svelte/src/lib/stores/supplierStore.ts:151 | exactly the entries with the id are gone; the others keep order and multiplicity |
| SupplierStore.DeleteProperties | frontend-svelte/src/lib/stores/supplierStore.ts:118-153 | deleting twice is deleting once; update then delete of one id is the delete alone |
| SupplierStore.SupplierStore.constructor | frontend-svelte/src/lib/stores/supplierStore.ts:25-31 | the initial state |
| SupplierStore.SupplierStore.FetchSuppliers | frontend-svelte/src/lib/stores/supplierStore.ts:37-64 | begin, then the normalised list or the failure text with the list kept |
| SupplierStore.SupplierStore.CreateSupplier | frontend-svelte/src/lib/stores/supplierStore.ts:67-97 | begin, then the list with the supplier appended and the supplier returned; or the failure stored and rethrown |
| SupplierStore.SupplierStore.UpdateSupplier | frontend-svelte/src/lib/stores/supplierStore.ts:100-130 | begin, then every matching entry replaced; or the failure stored and rethrown |
| SupplierStore.SupplierStore.DeleteSupplier | frontend-svelte/src/lib/stores/supplierStore.ts:133-159 | begin, then the matching entries removed; or the failure stored and rethrown |
| SupplierStore.SupplierStore.Reset | frontend-svelte/src/lib/stores/supplierStore.ts:162-164 | the initial state again |
| ProductStore.Begin | frontend-svelte/src/lib/stores/productStore.ts:59 | loading, no error, the lists kept |
| ProductStore.Fail | frontend-svelte/src/lib/stores/productStore.ts:76-77 | not loading, the error set, the lists kept |
| ProductStore.Created | frontend-svelte/src/lib/stores/productStore.ts:103 | the new product goes last |
| ProductStore.Updated | frontend-svelte/src/lib/stores/productStore.ts:136 | every product with the requested id is replaced; the length is kept |
| ProductStore.Deleted | frontend-svelte/src/lib/stores/productStore.ts:165 | exactly the products with the id are gone, in order |
| ProductStore.AbsentIdIsNoOp | frontend-svelte/src/lib/stores/productStore.ts:136-165 | updating or deleting an absent id changes nothing |
| ProductStore.ProductStore.constructor | frontend-svelte/src/lib/stores/productStore.ts:44-52 | the initial state |
| ProductStore.ProductStore.FetchProducts | frontend-svelte/src/lib/stores/productStore.ts:58-79 | begin, then the products or the failure |
| ProductStore.ProductStore.CreateProduct | frontend-svelte/src/lib/stores/productStore.ts:82-112 | begin, then appended and returned, or the failure stored and rethrown |
| ProductStore.ProductStore.UpdateProduct | frontend-svelte/src/lib/stores/productStore.ts:115-145 | begin, then replaced and returned, or the failure stored and rethrown |
| ProductStore.ProductStore.DeleteProduct | frontend-svelte/src/lib/stores/productStore.ts:148-172 | begin, then removed, or the failure stored and not rethrown |
| ProductStore.ProductStore.FetchCategories | frontend-svelte/src/lib/stores/productStore.ts:175-193 | `loading` is never touched; success sets the categories without clearing an earlier error |
| ProductStore.ProductStore.FetchBrands | frontend-svelte/src/lib/stores/productStore.ts:196-214 | as for categories, for the brands |
| ProductStore.ProductStore.Reset | frontend-svelte/src/lib/stores/productStore.ts:217-219 | the initial state again |
| ImportStore.NewEntry | frontend-svelte/src/lib/stores/importStore.ts:120-128 | a FILE entry with the reply's id, status and counters, the file name and the client's clock |
| ImportStore.Prepend | frontend-svelte/src/lib/stores/importStore.ts:130-134 | the new entry goes first and the previous history follows unchanged |
| ImportStore.SortNewestFirst | frontend-svelte/src/lib/stores/importStore.ts:264-266 | afterwards the history is newest first and is a permutation of the fetched entries |
| ImportStore.InsertNewestFirst | frontend-svelte/src/lib/stores/importStore.ts:264-266 | one insertion step extends the sorted prefix by one and keeps the entries |
| ImportStore.SwapAdjacent | frontend-svelte/src/lib/stores/importStore.ts:264-266 | exchanging two neighbours keeps the entries |
| ImportStore.Begin | frontend-svelte/src/lib/stores/importStore.ts:98 | loading, no error, the lists kept |
| ImportStore.Fail | frontend-svelte/src/lib/stores/importStore.ts:139-140 | not loading, the error set, the lists kept |
| ImportStore.ImportStore.constructor | frontend-svelte/src/lib/stores/importStore.ts:47-55 | the initial state |
| ImportStore.ImportStore.DownloadFile | frontend-svelte/src/lib/stores/importStore.ts:61-94 | success changes nothing; failure sets only the error, leaves `loading` alone, and rethrows |
| ImportStore.ImportStore.UploadFile | frontend-svelte/src/lib/stores/importStore.ts:97-143 | begin, then the new entry prepended and the reply returned, or the failure stored and rethrown |
| ImportStore.ImportStore.ImportProducts | frontend-svelte/src/lib/stores/importStore.ts:146-193 | as for the upload, for an import |
| ImportStore.ImportStore.FetchImportConfigs | frontend-svelte/src/lib/stores/importStore.ts:196-218 | begin, then the configurations or the failure |
| ImportStore.ImportStore.FetchScraperConfigs | frontend-svelte/src/lib/stores/importStore.ts:221-243 | begin, then the scraper configurations or the failure |
| ImportStore.ImportStore.FetchImportHistory | frontend-svelte/src/lib/stores/importStore.ts:246-274 | begin, then the fetched entries newest first (a permutation of the reply), or the failure |
| ImportStore.ImportStore.Reset | frontend-svelte/src/lib/stores/importStore.ts:277-279 | the initial state again |
| NotificationStore.Added | frontend-svelte/src/lib/stores/notificationStore.ts:16-19 | the toast goes last and the others are kept |
| NotificationStore.Removed | frontend-svelte/src/lib/stores/notificationStore.ts:28-32 | exactly the toasts with the id are gone; the others keep order and multiplicity |
| NotificationStore.RemoveAbsentIsNoOp | frontend-svelte/src/lib/stores/notificationStore.ts:28-32 | removing an absent id changes nothing |
| NotificationStore.RemoveIdempotent | frontend-svelte/src/lib/stores/notificationStore.ts:22-31 | the timer's removal after a manual one changes nothing more |
| NotificationStore.RemoveUndoesAdd | frontend-svelte/src/lib/stores/notificationStore.ts:14-26 | removing a fresh id right after adding it restores the list |
| NotificationStore.SameMillisecondToastsLeaveTogether | frontend-svelte/src/lib/stores/notificationStore.ts:15 | two toasts added in the same millisecond share an id, so removing one removes both |
| NotificationStore.ToastStore.constructor | frontend-svelte/src/lib/stores/notificationStore.ts:10 | no toasts |
| NotificationStore.ToastStore.Add | frontend-svelte/src/lib/stores/notificationStore.ts:14-20 | the list is `Added` with the clock value as id |
| NotificationStore.ToastStore.Remove | frontend-svelte/src/lib/stores/notificationStore.ts:28-32 | the list is `Removed` for the id |
| NavigationStore.PathText | frontend-svelte/src/lib/stores/navigationStore.ts:3-9 | every navigation path is one of the valid paths |
| NavigationStore.PathTextValidAndInjective | frontend-svelte/src/lib/stores/navigationStore.ts:3-9 | each path passes the guard, and different paths have different texts |
| NavigationStore.Navigation.constructor | frontend-svelte/src/lib/stores/navigationStore.ts:19-25 | the dashboard, with no components |
| NavigationStore.Navigation.Navigate | frontend-svelte/src/lib/stores/navigationStore.ts:29-30 | only the current path changes, to the given one |
| NavigationStore.Navigation.NavigateTwice | frontend-svelte/src/lib/stores/navigationStore.ts:29-30 | navigating twice to a path leaves the state one navigation leaves |
| NavigationStore.Navigation.RegisterComponents | frontend-svelte/src/lib/stores/navigationStore.ts:31-34 | only the registry changes, to the given one |
| PathTypes.IsValidPath | frontend-svelte/src/lib/types.ts:16-18 | definition, no contract: a string among the six routes; `ListedPathsAreValid`, `NonStringsAreInvalid` and `VariantsAreInvalid` state its behaviour |
| PathTypes.ListedPathsAreValid | frontend-svelte/src/lib/types.ts:1-17 | every listed path passes the guard |
| PathTypes.NonStringsAreInvalid | frontend-svelte/src/lib/types.ts:16-17 | a value that is not a string never passes |
| PathTypes.VariantsAreInvalid | frontend-svelte/src/lib/types.ts:16-17 | every accepted path starts with `/`, does not end with `/` and has no upper-case letter |
| PathTypes.TrailingSlashIsInvalid | frontend-svelte/src/lib/types.ts:16-17 | no string with a trailing slash is accepted |
| PathTypes.ValidPathsDistinct | frontend-svelte/src/lib/types.ts:1-8 | six distinct paths |
| Config.ApiUrl | frontend-svelte/src/lib/config.ts:1 | the environment value when truthy, otherwise `/api` |
| Config.Suffix | frontend-svelte/src/lib/config.ts:7-33 | every fixed path starts and ends with `/` |
| Config.Endpoint | frontend-svelte/src/lib/config.ts:3-35 | the base, then a path that starts and ends with `/` |
| Config.RefreshExtendsLogin | frontend-svelte/src/lib/config.ts:7-8 | the refresh endpoint extends the login endpoint |
| Config.SummariesExtendMovements | frontend-svelte/src/lib/config.ts:15-17 | both summary endpoints extend the movements endpoint |
| Config.SuffixRoundTrip | frontend-svelte/src/lib/config.ts:7-33 | each path names its endpoint back |
| Config.EndpointsDistinct | frontend-svelte/src/lib/config.ts:5-34 | different names never give the same endpoint |
| Config.StockEndpointIsSingular | frontend-svelte/src/lib/config.ts:14 | the stock endpoint is `/stock/`, not `/stocks/` |
| Api.ApiUrl | frontend/src/services/api.ts:3 | the environment value when truthy, otherwise `http://localhost:8000/api` |
| Api.RequestConfig.constructor | frontend/src/services/api.ts:5-10 | the JSON content type only |
| Api.RequestConfig.Intercept | frontend/src/services/api.ts:13-24 | `Authorization: Bearer <token>` is set iff the stored token is truthy; otherwise the headers are unchanged |
| Api.ItemPath | frontend/src/services/api.ts:46-75 | the collection, the id's decimal text, `/`, then the tail; a slash-framed collection and a slash-terminated tail give a slash-framed path |
| Api.StaticEndpointsAreSlashed | frontend/src/services/api.ts:41-76 | each of the sixteen fixed endpoints starts and ends with '/' |
| Api.NamesRecordDeterminesId | frontend/src/services/api.ts:46-75 | a path names at most one id of a collection |
| Api.SupplierDetail | frontend/src/services/api.ts:46 | a '/'-terminated path under `/suppliers/` whose id segment is the id |
| Api.SupplierProducts | frontend/src/services/api.ts:47 | a path under `/suppliers/` with the id segment, ending `products/` |
| Api.ProductDetail | frontend/src/services/api.ts:51 | a '/'-terminated path under `/products/` whose id segment is the id |
| Api.ProductStock | frontend/src/services/api.ts:52 | a path under `/products/` with the id segment, ending `current_stock/` |
| Api.ProductHistory | frontend/src/services/api.ts:53 | a path under `/products/` with the id segment, ending `stock_history/` |
| Api.StockDetail | frontend/src/services/api.ts:57 | a '/'-terminated path under `/stocks/` whose id segment is the id |
| Api.MovementDetail | frontend/src/services/api.ts:63 | a '/'-terminated path under `/stock-movements/` whose id segment is the id |
| Api.MarkNotificationRead | frontend/src/services/api.ts:75 | a path under `/notifications/` with the id segment, ending `mark_as_read/` |
| Api.ItemPathInjective | frontend/src/services/api.ts:46-75 | within a collection and tail, different ids give different paths |
| Api.NestedEndpointsExtendDetail | frontend/src/services/api.ts:46-75 | the supplier-products, product-stock, product-history and mark-as-read paths extend the detail path of the same id |
| Api.DetailEndpointsInjective | frontend/src/services/api.ts:46-75 | different ids give different supplier, product, stock, movement and mark-as-read paths |
| Api.DetailNeverHitsAnAction | frontend/src/services/api.ts:56-76 | no detail path of a stock, movement, upload or notification is one of the fixed action paths beside it |
| StockListPage.StockStatus | frontend/src/pages/stock/StockList.tsx:58-66 | 'Low Stock' iff LOW, 'Overstocked' iff HIGH, 'Normal' iff NORMAL, as the ledger classifies |
| StockListPage.WarningIffLowChip | frontend/src/pages/stock/StockList.tsx:130-133 | the warning icon shows iff the chip says 'Low Stock', crossed thresholds included |
| StockListPage.SearchMatch | frontend/src/pages/stock/StockList.tsx:68-71 | definition, no contract: the term occurs in the product name or the location, ignoring case |
| StockListPage.FilteredStocks | frontend/src/pages/stock/StockList.tsx:68-71 | exactly the stocks whose name or location contains the term ignoring case, in order, each matching stock as often as in the input |
| StockListPage.EmptySearchKeepsAll | frontend/src/pages/stock/StockList.tsx:38 | the initial empty term keeps every stock |
| StockListPage.PaginatedStocks | frontend/src/pages/stock/StockList.tsx:73-76 | exactly `PageLength` rows of the filtered list (a full page, the remainder, or none), its k-th row being row `page*rowsPerPage + k` |
| StockListPage.FirstPageIsTake | frontend/src/pages/stock/StockList.tsx:73-76 | page 0 is the first `rowsPerPage` matches |
| StockListPage.StockListView.constructor | frontend/src/pages/stock/StockList.tsx:36-38 | page 0, ten rows, empty term |
| StockListPage.StockListView.Visible | frontend/src/pages/stock/StockList.tsx:73-76 | definition, no contract: `PaginatedStocks` of the view's term, page and page size; `SearchShowsFirstMatches` states it after a search |
| StockListPage.StockListView.ChangePage | frontend/src/pages/stock/StockList.tsx:44-46 | only the page changes |
| StockListPage.StockListView.ChangeRowsPerPage | frontend/src/pages/stock/StockList.tsx:48-51 | the new size, back to page 0 |
| StockListPage.StockListView.Search | frontend/src/pages/stock/StockList.tsx:53-56 | the new term, back to page 0, the size kept |
| StockListPage.SearchShowsFirstMatches | frontend/src/pages/stock/StockList.tsx:53-76 | after a search the rows shown are the first matches of the new term |
| StockMovementsPage.MovementTypeLabel | frontend/src/pages/stock/StockMovements.tsx:65-72 | every type has one of the three labels |
| StockMovementsPage.MovementTypeLabelInjective | frontend/src/pages/stock/StockMovements.tsx:66-70 | no two types share a label |
| StockMovementsPage.MovementTypeColor | frontend/src/pages/stock/StockMovements.tsx:27-31 | `success` iff IN, `error` iff OUT, `warning` iff ADJUST |
| StockMovementsPage.QuantityText | frontend/src/pages/stock/StockMovements.tsx:156 | a '-' before the quantity of an OUT, nothing before the others |
| StockMovementsPage.MinusSignIffOut | frontend/src/pages/stock/StockMovements.tsx:156 | for a non-negative quantity, the cell starts with '-' iff the movement is an OUT |
| StockMovementsPage.MovementMatch | frontend/src/pages/stock/StockMovements.tsx:75-84 | definition, no contract: the term occurs in the product name or the reference, ignoring case, and the type filter is `ALL` or the movement's code |
| StockMovementsPage.FilteredMovements | frontend/src/pages/stock/StockMovements.tsx:74-84 | exactly the movements matching the search and the type filter, in order, each as often as in the input |
| StockMovementsPage.TypeFilterMeaning | frontend/src/pages/stock/StockMovements.tsx:80-81 | 'ALL' keeps every search match; a type code keeps exactly the search matches of that type |
| StockMovementsPage.PaginatedMovements | frontend/src/pages/stock/StockMovements.tsx:86-89 | exactly `PageLength` rows of the filtered movements, from row `page*rowsPerPage` on |
| StockMovementsPage.StockMovementsView.constructor | frontend/src/pages/stock/StockMovements.tsx:37-40 | page 0, ten rows, empty term, 'ALL' |
| StockMovementsPage.StockMovementsView.Visible | frontend/src/pages/stock/StockMovements.tsx:86-89 | definition, no contract: `PaginatedMovements` of the view's term, type filter, page and page size |
| StockMovementsPage.StockMovementsView.ChangePage | frontend/src/pages/stock/StockMovements.tsx:46-48 | only the page changes |
| StockMovementsPage.StockMovementsView.ChangeRowsPerPage | frontend/src/pages/stock/StockMovements.tsx:50-53 | the new size, back to page 0 |
| StockMovementsPage.StockMovementsView.Search | frontend/src/pages/stock/StockMovements.tsx:55-58 | the new term, back to page 0 |
| StockMovementsPage.StockMovementsView.FilterByType | frontend/src/pages/stock/StockMovements.tsx:60-63 | the new type filter, back to page 0 |
| ProductListPage.ProductStatus | frontend/src/pages/products/ProductList.tsx:78-86 | 'Out of Stock' iff at most 0, 'Low Stock' iff 1 to 10, 'In Stock' iff above 10 |
| ProductListPage.SearchMatch | frontend/src/pages/products/ProductList.tsx:88-92 | definition, no contract: the term occurs in the name, the SKU or the supplier's name, ignoring case |
| ProductListPage.FilteredProducts | frontend/src/pages/products/ProductList.tsx:88-92 | exactly the products whose name, SKU or supplier name contains the term ignoring case, in order, each as often as in the input |
| ProductListPage.SkuFindsProduct | frontend/src/pages/products/ProductList.tsx:88-92 | searching for a product's own SKU finds it |
| ProductListPage.PaginatedProducts | frontend/src/pages/products/ProductList.tsx:94-97 | exactly `PageLength` rows of the filtered products, from row `page*rowsPerPage` on |
| ProductListPage.ProductListView.constructor | frontend/src/pages/products/ProductList.tsx:41-45 | page 0, ten rows, empty term, dialog closed, no target |
| ProductListPage.ProductListView.Visible | frontend/src/pages/products/ProductList.tsx:94-97 | definition, no contract: `PaginatedProducts` of the view's term, page and page size |
| ProductListPage.ProductListView.ChangePage | frontend/src/pages/products/ProductList.tsx:51-53 | only the page changes |
| ProductListPage.ProductListView.ChangeRowsPerPage | frontend/src/pages/products/ProductList.tsx:55-58 | the new size, back to page 0 |
| ProductListPage.ProductListView.Search | frontend/src/pages/products/ProductList.tsx:60-63 | the new term, back to page 0 |
| ProductListPage.ProductListView.DeleteClick | frontend/src/pages/products/ProductList.tsx:65-68 | the product is remembered and the dialog opens |
| ProductListPage.ProductListView.CancelDelete | frontend/src/pages/products/ProductList.tsx:196-203 | the dialog closes and the remembered product stays |
| ProductListPage.ProductListView.DeleteConfirm | frontend/src/pages/products/ProductList.tsx:70-76 | with a target, its id is dispatched, the dialog closes and the target is forgotten; without one nothing is dispatched and the dialog is untouched |
| ProductListPage.CancelThenDeleteOther | frontend/src/pages/products/ProductList.tsx:65-76 | click one product, cancel, click another and confirm: the second product is deleted and the dialog is closed with no target |
| DashboardPage.LowStockCount | frontend/src/pages/dashboard/Dashboard.tsx:37-39 | the number of stock indices that are low |
| DashboardPage.HighStockCount | frontend/src/pages/dashboard/Dashboard.tsx:41-43 | the number of stock indices that are high |
| DashboardPage.CountsBoundedWhenWellFormed | frontend/src/pages/dashboard/Dashboard.tsx:37-43 | with `min < max` everywhere, the two counts together never exceed the number of stocks |
| DashboardPage.SameFilter | frontend/src/pages/dashboard/Dashboard.tsx:41-43 | with `min < max` everywhere, the high records are exactly the HIGH-classified ones |
| DashboardPage.SummaryCards | frontend/src/pages/dashboard/Dashboard.tsx:45-66 | four cards in order: products, suppliers, low count, high count |
| DashboardPage.LowStockAlerts | frontend/src/pages/dashboard/Dashboard.tsx:111-113 | the first `min(5, n)` of the n low stocks, in order |
| DashboardPage.HighStockAlerts | frontend/src/pages/dashboard/Dashboard.tsx:139-141 | the first `min(5, n)` of the n high stocks, in order |
| DashboardPage.FewAlertsAllShown | frontend/src/pages/dashboard/Dashboard.tsx:37-113 | with at most five low stocks the panel shows them all, as many as the card counts |

## Left out

- HTTP, `localStorage`, `fetch`, axios and the database are not modelled. Each operation takes its outcome, rows or token as a parameter.
- The clock (`Date.now()`, `new Date()`) is a parameter. The toast timer and the upload timestamps are not modelled; an import configuration's `last_run`, `created_at` and `updated_at` are integer clock values.
- The response interceptor's 401 redirect (`frontend/src/services/api.ts:27-36`) is browser navigation and is not modelled.
- The auth store and the login flow are outside the core.
- Floating-point and `Decimal` prices are integers in hundredths.
- JavaScript `Date` parsing is reduced to an integer timestamp, so invalid dates are not modelled.
- `parseInt` of the rows-per-page select is not modelled: the page sizes are naturals.
- Lower-casing is ASCII only. Unicode case mapping is not modelled.
- `URLSearchParams` percent-encoding is not modelled. `queryParams.toString()` is the plain `key=value` text.
- CSV quoting in the export is not modelled.
- pandas file reading is replaced by the rows it yields. The FAILED branch of the upload and import views (a file that cannot be read) is not modelled.
- `ProductViews.ImportProducts`: a `ProductSerializer` row check is a pair of parameters (`isValid`, `errorsOf`), because DRF's field validation is not part of the model. Both see the products saved earlier in the same import; the catalog as it stood before the import is part of the parameter. The error text uses that parameter in place of the serializer's error dict.
- `ProductViews.ImportProducts`: the view has no atomic block, and two failures end in its FAILED branch. A `column_mapping` entry whose value is a list or a dict makes `file_column in df.columns` raise `TypeError` on the first row, before any save (with no data rows the import instead completes with nothing processed). A `save()` that raises after validation ends it with the earlier rows' products kept. None of these is modelled; the model's mapping keeps only string-valued entries.
- `ProductViews.BulkUpdate`: `value` is taken as already read into an optional price and an optional integer quantity. A `value` that is not an object, or a string quantity (`quantity - stock.quantity` raises a `TypeError` after earlier products were written, with no atomic block), is not modelled.
- `Tasks.ProcessStockFileUpload`: `int()` of a fractional spreadsheet quantity is abstracted as "a quantity or none". Database errors inside the atomic block other than a missing product or a duplicate stock are not modelled.
- `Tasks.CheckStockLevels`: the recipient is a parameter. The supplier's user that the source tries to read has no counterpart in the schema (see Findings; `Tasks.CheckStockLevelsNullRecipient` is the scan as written).
- `ImportStore.SortNewestFirst`: the contract states sortedness and permutation, not the stability of `Array.prototype.sort`.
- `Serializers.ValidateImport`: a `column_mapping` that is not a JSON object is not modelled. The mapping is a map from field names to values.
- `Serializers.SerializeConfiguration`: the three timestamps are serialized as their integer clock values; the ISO 8601 text the framework writes is not modelled.
- `Serializers.WriteConfiguration`: how the framework's fields read a value (an integer from `"21"`, a boolean from `"true"`, a string from a number, trimming, `blank` and `max_length`) is the `FieldReaders` parameter, not a fixed rule; only the `import_type` choice is fixed. Creation (`POST`) is not modelled.
- `ProductViews.PreviewImport`: a negative `header_row` (Python's indexing from the end) and a negative `preview_rows` are not modelled, and neither are the preview rows of the response. A non-string header's 400 carries the Python error text (`'float' object has no attribute 'lower'`); the model returns the cell itself.
- `StockListPage.StockStatus`: MUI's chip rendering is reduced to its label and colour.
- Interleaving of concurrent async thunks and store updates is not modelled: each reducer and store method runs to completion on the state it is given.
- Row locking (`select_for_update`) in the adjustment task is not modelled; the model has a single writer.
- Logging (`logger.error`, `console.error`) is not modelled; it changes no state the model keeps.
- The dashboard's back-end metrics view, the report page and the remaining views of the REST API are outside the core.

## Findings

| source | as written | input that shows it | evidently intended | confidence | as-written member | corrected member |
|---|---|---|---|---|---|---|
| backend/stock_app/tasks.py:77-78 | the scan calls `models.F(...)`, but the module imports no `models`, so every run raises `NameError` before any alert | any run of `check_stock_levels`, even with an empty stock table | for each stock at or below its minimum a LOW alert, then for each stock at or above its maximum a HIGH alert | high (not executed) | Tasks.CheckStockLevelsAsWritten | Tasks.CheckStockLevels |
| backend/stock_app/tasks.py:85-93 | each alert goes to the product's supplier's user when the supplier has one, else to nobody; `Supplier` has no `user` field (backend/stock_app/models.py:27-36) and `Notification.user` is required (backend/stock_app/models.py:180), so the first alert's insert raises `IntegrityError` | with `models` imported, any stock at or below its minimum threshold | each alert addressed to a real user | high (not executed) | Tasks.CheckStockLevelsNullRecipient | Tasks.CheckStockLevels |
| backend/stock_app/views/product_views.py:53-58 | `preview_import` reads the file with pandas' default header (line 0 becomes the column names) and then takes `df.iloc[header_row]` as the headers, which is line `header_row + 1`; `import_products` reads with `skiprows=header_row`, so its column names are line `header_row` | a file whose first line is `name` and whose second is `Pen`, with the default `header_row` of 0: the preview shows `Pen` as the header and suggests no column for `name` | the preview's headers are the column names the import will read, line `header_row` of the file | high (not executed) | ProductViews.PreviewHeadersAsWritten | ProductViews.PreviewImport |
