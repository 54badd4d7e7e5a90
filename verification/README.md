# SmartReceipt data layer, modelled in Dafny

SmartReceipt is a receipt tracker: photographed receipts are turned into structured records by an
extraction service, kept in the browser's local storage, and summarised into category totals, budget
states and spending insights. This project models its local data layer:

- **the persistent store** (`lib/storage.js`): four local-storage slots (receipts, budgets, settings,
  the insight snapshot). Every operation reads a whole slot, changes it and writes it back whole.
  `Storage.Store` is a class with one field per slot; `None` stands for an absent key.
- **the normaliser** (the data-cleaning parts of `lib/gemini.js`). It cleans the service's text reply,
  rejects incomplete receipts, coerces numbers, and applies defaults to the items and to an insight
  document. The `Gemini` module models it.
- **the aggregation and validation helpers** (`lib/utils.ts`, and its JavaScript twin `lib/utils.js`,
  which one model serves):
  - per-category totals and groups;
  - spending within a calendar period;
  - search, and sorting by date;
  - budget status and progress;
  - receipt validation, truncation and percentage change.

  The `Utils` module models them.
- **the domain tables** (`lib/constants.js`): categories, default budgets, alert thresholds and storage
  keys. The `Constants` module holds them.

Supporting modules:

| module | what it provides |
|---|---|
| `Basics` | `Option` and `Result` |
| `Text` | `trim`, ASCII `toLowerCase`, `includes` |
| `Json` | parsed JSON values, with JavaScript truthiness, `Number()`, `x \|\| d` and `new Date(v)` |
| `Dates` | calendar dates and their day numbers |
| `Sequences` | `filter`, order-preserving sub-lists and sums |

How values are represented:

- Amounts are exact `real`s.
- Timestamps are integer milliseconds.
- A timestamp string written by `toISOString` is the value `Stamp(ms)`.
- Serialising a slot and parsing it back is the identity, except that NaN comes back as `null`. The
  model also keeps a property whose value is `undefined`, which `JSON.stringify` would drop (see "## Left out").

These come in as parameters:

- the clock (`now`);
- the generated receipt id;
- the outcome of each storage write (`accepted`). A failing `setItem`, such as one over the quota, leaves its slot as it was.

`lib/utils.js` is the same code as `lib/utils.ts` at these lines:

| function | lib/utils.js lines |
|---|---|
| progress | 73-77 |
| status | 82-91 |
| groups | 141-155 |
| totals | 160-171 |
| period spending | 176-210 |
| validation | 230-253 |
| truncate | 265-269 |
| percentage change | 274-277 |
| sort | 328-334 |
| search | 339-360 |

## Model

| member | source | states |
|---|---|---|
| Constants.CategoriesAreEightDistinct | lib/constants.js:2-11 | exactly eight categories, with pairwise distinct tags, one of them `other` |
| Constants.DefaultBudgetsCoverCategories | lib/constants.js:36-45 | the default budget keys are exactly the category tags; every default amount is positive |
| Constants.ThresholdsIncrease | lib/constants.js:64-68 | 0 < warning < danger < critical |
| Constants.StorageKeysDistinct | lib/constants.js:76-81 | four storage keys, pairwise distinct, so no slot overwrites another |
| Text.Trim | lib/gemini.js:105 | the result has no white space at either end; it is a contiguous slice of the input, and everything cut off is white space |
| Text.TrimIdempotent | lib/utils.ts:336 | trimming twice is trimming once |
| Text.LowerProperties | lib/utils.ts:338 | the lower-cased query has no capital letter left, differs from the input only at its capitals, and lower-casing it again changes nothing |
| Json.NumberOrNullIdempotent | lib/gemini.js:132-133 | coercing a subtotal or tax a second time changes nothing |
| Gemini.CleanModelText | lib/gemini.js:105-108 | the cleaned reply contains no three-backquote fence and has no white space at either end |
| Gemini.NoFenceAfterRemoval | lib/gemini.js:106-107 | removing every fence together with its trailing white space leaves no fence, even across a removal |
| Gemini.RemoveMarkerIdentity | lib/gemini.js:106-107 | text without backquotes passes the fence removal unchanged |
| Gemini.FencedReplyKeepsContent | lib/gemini.js:105-108 | a reply holding JSON text between an opening json fence line and a closing fence line comes out as exactly that JSON text: the fences and their line breaks go, the content is kept |
| Gemini.CleanPlainText | lib/gemini.js:105-108 | a reply without fences is only trimmed |
| Gemini.CleanItem | lib/gemini.js:135-140 | a cleaned item has exactly name, quantity, price and category. Name defaults to `Unknown Item`, quantity to 1 when non-numeric or zero, price to 0. Category defaults to `other` only when falsy. A null item fails |
| Gemini.CleanItems | lib/gemini.js:135-140 | the mapping fails iff some item fails; otherwise it has the same length and order, each entry being the cleaned item |
| Gemini.NormalizeReceipt | lib/gemini.js:120-142 | it succeeds exactly on an object with truthy merchant, date and total whose item list holds no null or undefined entry; a complete receipt with such an entry fails with the property-of-null error. Other properties pass through. Total is `Number(total) \|\| 0`; subtotal and tax are `Number(..) \|\| null`. Items are the cleaned list, or empty when not an array |
| Gemini.AnalyzeReceiptData | lib/gemini.js:120-142 | the field-by-field mutation of the parsed object yields exactly `NormalizeReceipt` |
| Gemini.RejectsIncomplete | lib/gemini.js:121-123 | the incomplete-data error is returned iff merchant, date or total is falsy |
| Gemini.RejectsFalsyRequired | lib/gemini.js:121-123 | a missing, empty, null, false or zero required field is rejected |
| Gemini.RejectsNullItem | lib/gemini.js:135-140 | a null entry in the item list makes the extraction fail |
| Gemini.CleanItemIdempotent | lib/gemini.js:135-140 | cleaning a cleaned item changes nothing |
| Gemini.CleanItemsIdempotent | lib/gemini.js:135-140 | cleaning a cleaned item list changes nothing |
| Gemini.NormalizeIdempotent | lib/gemini.js:120-142 | normalising a normalised receipt with a non-zero total returns it unchanged |
| Gemini.RequireReceipts | lib/gemini.js:161-163 | insight generation proceeds iff the receipt list is present and non-empty |
| Gemini.NormalizeInsights | lib/gemini.js:291-303 | null input fails. A numeric field keeps its number when that is neither NaN nor zero; otherwise it defaults to 0, and the health score to 50. A list field keeps its array and defaults to `[]` otherwise. `topCategory`, `topMerchant` and `spendingTrend` keep a truthy value and otherwise default to `other`, `Unknown` and `stable` |
| Gemini.NormalizeInsightsIdempotent | lib/gemini.js:291-303 | applying the defaults to a defaulted insight document changes nothing |
| Utils.AddItemsSpec | lib/utils.ts:164-167 | the inner loop creates a key per item category and adds each price to its own category |
| Utils.CategoryTotalsSpec | lib/utils.ts:160-171 | the keys are the categories present, missing category counted as `other`. Each value is the sum of that category's prices, missing price counted as 0 |
| Utils.CalculateCategoryTotals | lib/utils.ts:160-171 | the nested loops compute exactly those totals |
| Utils.CategoryTotalsAdditive | lib/utils.ts:160-171 | the totals of two concatenated receipt lists are the key-wise sums of their totals |
| Utils.CategoryTotalsGrandTotal | lib/utils.ts:160-171 | the values over all categories add up to the sum of all item prices |
| Utils.AddGroupItemsSpec | lib/utils.ts:145-151 | the inner loop appends each item, tagged with its receipt's id and date, to the group of its category |
| Utils.GroupsSpec | lib/utils.ts:141-155 | the keys are the categories present. Each group is the list of all tagged items of that category, in visiting order |
| Utils.GroupReceiptsByCategory | lib/utils.ts:141-155 | the nested loops compute exactly those groups |
| Utils.GroupsCountItems | lib/utils.ts:141-155 | every item lands in exactly one group: the group sizes add up to the number of items |
| Dates.NextDayIsOneLater | lib/utils.ts:179 | the calendar's day count is consecutive (the next day is one later) |
| Dates.Quarter | lib/utils.ts:191-192 | the quarter is 0 to 3 and covers its three months |
| Utils.PeriodAllIsEverything | lib/utils.ts:199-205 | over `all`, the spending is the sum of every total, missing totals as 0 |
| Utils.PeriodsNest | lib/utils.ts:181-205 | with non-negative totals, month ≤ quarter ≤ year ≤ all spending, and week ≤ all |
| Utils.SearchReceipts | lib/utils.ts:335-349 | a missing or blank query returns the list itself. Otherwise the result is an order-preserving sub-list that holds every occurrence of each receipt whose merchant, item name or item category contains the lower-cased query, and no other receipt |
| Utils.Insert | lib/utils.ts:325-329 | insertion adds exactly the one element |
| Utils.InsertSorted | lib/utils.ts:325-329 | inserting into a sorted list keeps it sorted |
| Utils.SortReceiptsByDate | lib/utils.ts:324-330 | a permutation of the input, non-increasing by date for `desc` and non-decreasing for `asc` |
| Utils.SortStable | lib/utils.ts:324-330 | receipts with equal dates keep their input order |
| Utils.GetBudgetStatus | lib/utils.ts:82-91 | `unknown` exactly for a missing or zero budget |
| Utils.BudgetStatusBands | lib/utils.ts:85-90 | for a positive budget: `safe` below 0.8 of it, `warning` below 1.0, `danger` below 1.2 and `critical` from 1.2 up, each iff, with the alert thresholds |
| Utils.BudgetStatusMonotone | lib/utils.ts:82-91 | for a fixed positive budget, spending more never gives a milder status |
| Utils.BudgetProgress | lib/utils.ts:73-77 | the progress lies in [0, 150] and is 0 for a missing or zero budget |
| Utils.BudgetProgressExact | lib/utils.ts:75-76 | within the display range the progress is exactly the spent share in percent |
| Utils.ProgressMatchesStatus | lib/utils.ts:73-91 | each status covers the matching stretch of the progress bar (below 80, 80-100, 100-120, from 120) |
| Utils.ValidateReceiptData | lib/utils.ts:226-249 | null data, or a truthy non-string merchant, throws. Otherwise `isValid` iff no errors. The errors are a sub-list of the four messages in their fixed order, and each message is present iff its check fails (a zero or negative total and an empty item list fail) |
| Utils.FailedMessagesSpec | lib/utils.ts:227-246 | one message per failing check and no other, in order; none exactly when all checks pass |
| Utils.Truncate | lib/utils.ts:261-265 | empty or missing text gives `""`; text within the limit is returned unchanged. Longer text gives its first `length` characters followed by `...` |
| Utils.PercentageChange | lib/utils.ts:270-273 | 0 for a missing or zero previous value; otherwise the change that, applied to `previous`, gives `current` |
| Storage.DefaultBudgetRecordCoversCategories | lib/storage.js:121 | the default table `getBudgets` falls back on has exactly one entry per category, and every amount in it is positive |
| Storage.FindIndex | lib/storage.js:54 | -1 iff no receipt has the id; otherwise the first index that has it |
| Storage.Stamped | lib/storage.js:31-36 | a caller-supplied truthy id and `createdAt` are kept, otherwise generated or set to now. `updatedAt` is now, and every other property passes through |
| Storage.Merged | lib/storage.js:61-65 | the merge has the keys of both plus `updatedAt`; `updates` win, untouched fields are kept, and `updatedAt` is now |
| Storage.Store.GetReceipts | lib/storage.js:13-23 | the stored list, or the empty list when the key is absent |
| Storage.Store.GetReceiptById | lib/storage.js:93-96 | null iff no stored receipt has the id; otherwise the first one that has it |
| Storage.Store.SaveReceipt | lib/storage.js:28-46 | the stored list becomes the stamped receipt followed by the old list, in order. The returned record is the new head and can be found by its id. A failed write returns null and changes nothing |
| Storage.Store.UpdateReceipt | lib/storage.js:51-73 | an unknown id returns null and changes nothing. Otherwise only the first matching index is replaced by the merge, and length, order and every other entry are kept |
| Storage.Store.DeleteReceipt | lib/storage.js:78-88 | it keeps exactly the receipts with another id, in order, and returns true even when none matched (the list is then unchanged) |
| Storage.Store.ClearReceipts | lib/storage.js:101-109 | the slot is removed and the list reads as empty |
| Storage.Store.GetBudgets | lib/storage.js:116-126 | the stored table, or the default table when none is stored |
| Storage.Store.SaveBudgets | lib/storage.js:131-139 | the whole table is replaced |
| Storage.Store.UpdateCategoryBudget | lib/storage.js:144-154 | the category is set to `Number(amount)` (NaN stored as null) and every other category is unchanged |
| Storage.Store.ResetBudgets | lib/storage.js:159-167 | afterwards the budgets read as the default table |
| Storage.Store.GetSettings | lib/storage.js:174-198 | the stored settings, or USD / dark / notifications on |
| Storage.Store.SaveSettings | lib/storage.js:203-213 | the changes are merged over the current settings; other keys are unchanged |
| Storage.Store.UpdateSetting | lib/storage.js:218-228 | one key is set; other keys are unchanged |
| Storage.Store.GetInsights | lib/storage.js:235-260 | the snapshot is returned while at most 24 hours old, or when its `createdAt` is not a date. A stale snapshot is removed and null returned. Null is returned only when the slot is then empty |
| Storage.Store.SaveInsights | lib/storage.js:265-277 | the snapshot is stored with `createdAt` overwritten by now; other fields are kept |
| Storage.Store.ClearInsights | lib/storage.js:282-290 | the insight slot is removed; the other slots are untouched |
| Storage.Store.RemoveItem | lib/storage.js:299-301 | removing a key empties exactly its own slot |
| Storage.Store.ClearAll | lib/storage.js:297-307 | after the loop over the storage keys every slot is empty, and the getters return their defaults |
| Storage.Store.ExportData | lib/storage.js:312-325 | the export holds what each getter reads, stale insights excepted, stamped now; a stale snapshot is also evicted from the store, whose insight slot afterwards equals the exported one |
| Storage.Store.ImportData | lib/storage.js:330-349 | null data fails with no write. Present slots are written in the order receipts, budgets, settings, insights. The first failed write ends the import with false, keeping the earlier writes |
| Storage.ExportImportRoundTrip | lib/storage.js:312-349 | importing an export into another store reproduces the receipts, budgets and settings as read |
| Storage.InsightsLiveForADay | lib/storage.js:249-271 | saved insights are returned for exactly 24 hours and are gone a millisecond later, and stay gone at any later time |
| Storage.ResetRestoresDefault | lib/storage.js:144-167 | with value semantics, an edit followed by a reset leaves the default amount (food 500) in place |
| Storage.BudgetTable.constructor | lib/constants.js:36-45 | the shared default table starts as the default amounts |
| Storage.SharedDefaultsBudgets.UpdateCategoryBudget | lib/storage.js:144-154 | with nothing stored, the edit is written into the shared default table itself, even when the storage write fails |
| Storage.SharedDefaultsBudgets.ResetBudgets | lib/storage.js:159-167 | stores whatever the shared default table holds now |
| Storage.SharedDefaultsResetKeepsEdit | lib/storage.js:116-167 | on a fresh store, setting food to 650 and resetting still reads 650 |

## Left out

- The network: `fetch`, the prompts, API keys and the connection test. The JSON parsing of the service's reply is left out too; the normaliser takes the parsed value.
- `generateBudgetRecommendations`, and the `currentSpending` accumulation inside `generateInsights`. They only feed the prompt.
- The React pages, components and hooks, and the HTTP route handlers.
- Locale formatting (`formatCurrency`, `formatDate`, `groupReceiptsByDate`), `formatFileSize`, `convertToBase64`, `debounce`, `getGreeting`, `cn` and `generateId`. They depend on the runtime, timers, files or randomness.
- `getStorageSize`: it measures serialised string lengths, and serialisation is not modelled.
- The server-side branch (`typeof window === 'undefined'`) of the getters. Only the browser is modelled.
- Storage content that does not parse, or that parses to the wrong shape (a receipts slot that is not an array, say). Slots are typed, so such content cannot be stored. The `catch` branches around `JSON.parse` are therefore not modelled.
- A failing `removeItem`: removal always succeeds here, so `clearReceipts`, `clearInsights` and `clearAll` always return true.
- Storage.Store.SaveReceipt: it uses one clock reading for `createdAt` and `updatedAt`, where the source reads the clock twice.
- Storage.Store.SaveReceipt: it takes the generated id whole. The `receipt_<time>_<random>` format and its randomness are not modelled.
- Storage.Store.ImportData: it takes slots that are missing or falsy as `None`. An imported slot of another JSON shape is not modelled.
- Storage.Store.GetInsights: `new Date(createdAt)` is modelled for timestamps written by `toISOString`, numbers and `null` only. Any other string is taken as an invalid date, which never goes stale.
- Json.ToNumber: it parses decimal strings only. Exponents, `Infinity`, hexadecimal, binary and octal forms read as NaN.
- IEEE floating-point rounding: amounts are exact reals.
- JavaScript date-string parsing and time zones: receipt dates are taken as already-parsed calendar dates at midnight UTC.
- Utils.SortReceiptsByDate: it requires every receipt to have a date. The NaN comparisons of invalid dates give an unspecified order in the source.
- Text.Lower: lower-cases ASCII letters only; Unicode case mapping is not modelled.
- Utils.Truncate: lengths and the cut count Unicode characters, where `text.length` and `substr` count UTF-16 code units. For text with characters outside the Basic Multilingual Plane (emoji, say) the source cuts earlier, and can split a surrogate pair.
- Utils.SearchReceipts: merchant, item name and category are strings or absent. In the source a truthy non-string value there (a number such as 42) passes `?.`, and `toLowerCase` then throws a TypeError that aborts the whole search; the model has no such failure.
- Utils: the helpers take typed receipts (`Receipt`, `LineItem`), while the normaliser passes any truthy merchant, item name or category through and the store accepts any record. Stored records whose fields have other JSON types are not represented, nor is what the helpers do with them.
- Utils.CalculateCategoryTotals: categories are plain map keys. In the source a category named after an `Object.prototype` member (`constructor`, `toString`) finds the inherited member, so `totals[category] || 0` starts from a function and the total becomes a string.
- Utils.GroupReceiptsByCategory: categories are plain map keys. In the source a category named after an `Object.prototype` member finds the inherited member, and `groups[category].push` throws a TypeError.
- Storage.Stamped: a property whose value is `undefined` is kept in the stored record, where `JSON.stringify` drops it (and turns an `undefined` array element into `null`). The stored key set can therefore hold keys the source does not store.
- Storage.Merged: an `undefined` value in `updates` is kept as a key mapped to `undefined`; the source's stored record loses that key, and with it the old value.
- Storage.Store.SaveSettings: an `undefined` value in `changes` stays in the stored settings, where the source's serialisation drops the key.
- Storage.Store.UpdateSetting: `updateSetting(key, undefined)` leaves `key` mapped to `undefined`, where the source's stored settings no longer have `key`.
- The category icons, currencies, payment methods, chart colours, time-period labels and API settings in `lib/constants.js`. Nothing in the modelled code reads them.
- Storage: concurrent changes to local storage from another tab.

## Findings

| source | as written | input that shows it | evidently intended | confidence | as-written member | corrected member |
|---|---|---|---|---|---|---|
| lib/storage.js:116-167 | With nothing stored, `getBudgets` returns the module's `DEFAULT_BUDGETS` object itself, and `updateCategoryBudget` assigns into it. `resetBudgets` then stores that altered object | On a fresh store, `updateCategoryBudget('food', 650)` then `resetBudgets()` leaves `getBudgets().food` at 650 | a reset restores the default amounts (food 500) | high, not executed | Storage.SharedDefaultsResetKeepsEdit | Storage.ResetRestoresDefault |
