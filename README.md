# FineStor storage core in Dafny

FineStor is a Django inventory application. Goods (assets) come into the store on import records and leave on export records. Each asset keeps:

- a stock count;
- a history of the prices it was bought at.

This project models the parts of the application whose behaviour can be stated and proved. Each part is proved against a specification.

- **Price statistics of an asset** (`Pricing`, `StorageModels.Asset`).
  - `update_stock` and `add_price` change an asset row in place.
  - The average and the median price are quarter-rounded with Python's `round`. That function rounds half to even.
  - Prices are exact rationals (`real`).
- **Commit loops** of `import_create` and `export_create` (`Ledger`, `Transactions.Storage`).
  - The loops are specified as functions over the asset rows (`ImportRun`, `ExportRun`).
  - They are implemented as methods on a `Storage` class, which holds the asset objects and the record and item tables.
  - The source never checks that an export's stock suffices, nor the sign of a drafted quantity, and no commit is atomic.
  - The `stock` column and the items' `quantity` columns are `PositiveIntegerField`s. PostgreSQL refuses a save that makes the stock negative and an item row with a negative quantity, and the loop stops there. Whatever was saved before that point stays saved.
- **Session drafts** (`Transactions.Session`).
  - The import draft is a dict keyed by asset id. The export draft is keyed by `max(keys)+1`.
  - Python dicts iterate in insertion order, so each draft is a list of its keys in that order plus a map.
- **Return numbers** of `return_create` (`Returns`, `Transactions.Storage.MarkReturned`).
  - A new number is allocated across both item tables.
  - The annotation loop then gives every item of one submission that number.
- **The inventory report** `report_inventory` (`Reconciliation`, `Sorting`).
  - A stable sort of the timeline by date, then a running total.
  - The net quantity, and the rows sorted by (category name, id).
- **Record totals** of `fetch_import_record_data` and `import_details` (`Details`).
- **Form rules** (`StorageForms`, `CoreForms`).
  - The recipient list of each export type, the entity check and `save`.
  - Category-name uniqueness and the report-year bounds.
  - The exportable assets.
  - `set_first_choice`, and `validator`'s name and phone rules, with a model of Python's `re.match` for the two patterns.

The database reads are inputs:

- the assets as a map of objects;
- the items as sequences in table order;
- the current date and year as parameters.

## Model

| member | source | states |
|---|---|---|
| Pricing.RoundHalfEven | storage/models.py:93 | `round` of a Decimal: the result is within 1/2 of the input, and an exact tie goes to the even integer |
| Pricing.RoundHalfEvenUnique | storage/models.py:93 | any integer within 1/2 of `x`, and even on an exact tie, is `round(x)`: the rounding is determined |
| Pricing.RoundToNearestQuarter | storage/models.py:88-93 | None exactly for None; otherwise an exact multiple of 1/4 within 1/8 of the value |
| Pricing.QuarterTiesToEven | storage/models.py:93 | a value exactly between two quarters is rounded to the one that is an even number of quarters (10.125 to 10.00, 10.375 to 10.50) |
| Pricing.QuarterHasTwoDecimals | storage/models.py:93 | a quarter-rounded value has at most two decimal places, like the `decimal_places=2` price column |
| Pricing.SumRemove | storage/models.py:99 | the sum of the history is any one price plus the sum of the others |
| Pricing.SumPermutation | storage/models.py:99 | the sum does not depend on the order of the history |
| Pricing.SumBounds | storage/models.py:99 | prices between lo and hi sum to between n·lo and n·hi |
| Pricing.AveragePrice | storage/models.py:95-100 | None exactly for an empty history; otherwise a multiple of 1/4 within 1/8 of the exact mean |
| Pricing.AveragePriceBounds | storage/models.py:95-100 | the average lies within 1/8 of the range of the history's prices |
| Pricing.AveragePricePermutation | storage/models.py:99 | reordering the price history does not change the average |
| Pricing.PriceLeTotalPreorder | storage/models.py:105 | the order `sorted` uses on prices is total and transitive |
| Pricing.SortedPricesSorted | storage/models.py:105 | `sorted(history)` is ascending, has the same length and holds the same prices |
| Pricing.SortedSameHead | storage/models.py:105 | two ascending sequences holding the same prices start with the same price |
| Pricing.SortedUnique | storage/models.py:105 | two ascending sequences holding the same prices are equal, so the sorted history depends only on its multiset |
| Pricing.MedianPrice | storage/models.py:102-112 | None exactly for an empty history; otherwise a multiple of 1/4 within 1/8 of the middle value (mean of the two middle ones for even length) |
| Pricing.MedianValueMiddle | storage/models.py:106-110 | both parities are the mean of the sorted prices at (n-1)/2 and n/2 |
| Pricing.MedianPricePermutation | storage/models.py:105 | reordering the price history does not change the median |
| Pricing.MedianPriceBounds | storage/models.py:102-112 | the median lies within 1/8 of the range of the history's prices |
| StorageModels.Asset.constructor | storage/models.py:67-68 | a new asset has stock 0 and an empty price history |
| StorageModels.Asset.UpdateStock | storage/models.py:75-81 | the stock becomes old stock plus the signed change, and the save succeeds, exactly when that is not negative; otherwise nothing changes; the history is untouched |
| StorageModels.Asset.AddPrice | storage/models.py:83-86 | the history grows by exactly the new price at the end; the stock is untouched |
| Sorting.InsertBy | storage/views.py:1000 | inserting adds exactly one element: length plus one, multiset plus the element |
| Sorting.SortBy | storage/views.py:1000 | sorting keeps the length and the multiset of the input |
| Sorting.KeepAppend | storage/views.py:1000 | the elements with one key of a concatenation are those of each part, in order |
| Sorting.InsertBySorted | storage/views.py:1000 | inserting into a sorted sequence keeps it sorted |
| Sorting.SortBySorted | storage/views.py:1000 | the sort's result is sorted under a total preorder |
| Sorting.KeepInsertBy | storage/views.py:1000 | an insertion puts the element after those with an equal key |
| Sorting.SortByStable | storage/views.py:1000 | stability: the elements with any one key keep their input order |
| Ledger.ImportRun | storage/views.py:190-201 | the import loop keeps the set of assets, creates at most one item per draft line, and one per line when it finished |
| Ledger.ExportRun | storage/views.py:493-502 | the export loop keeps the set of assets, creates at most one item per draft line, and one per line when it finished |
| Ledger.ImportRunSucceeds | storage/views.py:190-201 | the import loop finishes if and only if every drafted asset exists and no drafted quantity is negative |
| Ledger.ImportRunDrafted | storage/views.py:190-201 | for distinct drafted assets that exist, with quantities of zero or more, the loop finishes and each asset's stock grows by its quantity and its history by its price |
| Ledger.ImportRunUntouched | storage/views.py:190-201 | an asset no draft line names keeps its stock and history |
| Ledger.ImportRunCreated | storage/views.py:196-201 | the created items carry the record, the asset, the quantity and the price of the lines, numbered in draft order; each such line's quantity is zero or more |
| Ledger.ImportRunStops | storage/views.py:190-201 | a stopped import stopped at its first failing line: every earlier line names an existing asset with a quantity of zero or more, the run over them succeeds, and the outcome is that run followed by the failing line alone |
| Ledger.ImportApplyFails | storage/views.py:192-201 | a failing import line creates no item; it fails on a missing asset exactly when the asset is gone (nothing saved), on the stock check exactly when the stock plus a negative quantity is below zero (the price is saved), on the item insert exactly when a negative quantity leaves the stock non-negative (price and stock saved) |
| Ledger.ExportRunSucceeds | storage/views.py:493-502 | the export loop finishes if and only if every drafted asset exists, no drafted quantity is negative and no asset is drafted for more than its stock |
| Ledger.ExportRunSettles | storage/views.py:493-502 | after a finished export, each asset's stock is its old stock minus its total drafted quantity; histories are untouched |
| Ledger.ExportRunCreated | storage/views.py:498-502 | the created export items carry the record, asset and quantity of the lines, numbered in draft order; each such line's quantity is zero or more |
| Ledger.ExportRunStops | storage/views.py:493-502 | a stopped export stopped at its first failing line: the run over the earlier lines succeeds, and the outcome is that run followed by the failing line alone |
| Ledger.ExportApplyFails | storage/views.py:495-502 | a failing export line creates no item; it fails on a missing asset exactly when the asset is gone, on the stock check exactly when the stock is short (nothing saved), on the item insert exactly when the quantity is negative (the raised stock is saved) |
| Ledger.ImportRunSticky | storage/views.py:190-201 | once the import loop raised, later lines change nothing |
| Ledger.ExportRunSticky | storage/views.py:493-502 | once the export loop raised, later lines change nothing |
| Ledger.ImportPrefixRun | storage/views.py:190-201 | the loop state after `n` passes is the run over the first `n` lines |
| Ledger.ExportPrefixRun | storage/views.py:493-502 | the loop state after `n` passes is the run over the first `n` lines |
| Ledger.ImportPrefixComplete | storage/views.py:190-201 | the loop over all lines is the whole run |
| Ledger.ImportPrefixStopped | storage/views.py:190-201 | a loop that raised after `n` passes has the whole run's outcome |
| Ledger.ExportPrefixComplete | storage/views.py:493-502 | the loop over all lines is the whole run |
| Ledger.ExportPrefixStopped | storage/views.py:493-502 | a loop that raised after `n` passes has the whole run's outcome |
| Details.RecordItems | storage/views.py:296 | the items of a record are drawn from the table, at most as many as it has, and all belong to that record |
| Details.FetchImportRecordData | storage/views.py:280-310 | not found exactly when no import record has the number (`get_object_or_404`); otherwise lists exactly the record's items in table order, each with `price * quantity` as its total |
| Details.ImportDetails | storage/views.py:313-316 | not found exactly when no import record has the number; otherwise the grand total is the sum of the record's line totals |
| Details.RecordItemsAppend | storage/views.py:296 | filtering by record distributes over appending rows |
| Details.RecordItemsAll | storage/views.py:296 | rows all of the record are all listed |
| Details.RecordItemsNone | storage/views.py:296 | rows of other records are not listed |
| Details.GrandTotalOfDraft | storage/views.py:219-229 | items carrying the drafted quantities and prices total the draft screen's total |
| Details.RecordTotalOfLines | storage/views.py:196-201 | items appended for a new record are exactly what the record lists, and their total is that of the lines they came from |
| Details.CommittedRecordTotal | storage/views.py:190-201 | after an import commit the new record lists exactly the created items, and its grand total is the draft total of the saved lines: all of the draft when the commit finished |
| Transactions.MaxKey | storage/views.py:567 | `max(keys, default=0)`: 0 for no keys, otherwise a key no smaller than any key |
| Transactions.Without | storage/views.py:590 | deleting a key keeps every other key, and changes nothing when the key is absent |
| Transactions.WithoutDistinct | storage/views.py:268-271 | deleting a draft key keeps the keys distinct |
| Transactions.WithoutIncreasing | storage/views.py:586-591 | deleting an export draft key keeps the keys increasing |
| Transactions.ImportLinesDistinct | storage/views.py:190 | the import draft, keyed by asset id, names each asset once |
| Transactions.Session.ClearImports | storage/views.py:203-204 | deleting `import_items` empties the import draft and leaves the export draft |
| Transactions.Session.ClearExports | storage/views.py:505-506 | deleting `export_items` empties the export draft and leaves the import draft |
| Transactions.Session.ImportItemAdd | storage/views.py:246-252 | with asset, quantity and price all given, the asset's entry is set with the quantity as given, of any sign, and a re-added asset keeps its place; otherwise nothing changes |
| Transactions.Session.ImportItemDelete | storage/views.py:268-271 | removes only that asset's entry, if present |
| Transactions.Session.ExportItemAdd | storage/views.py:548-577 | adds an entry only for an existing asset with an average price and a given quantity, of any sign; its key is `max+1`, a fresh key after every other; it records the average price |
| Transactions.Session.ExportItemDelete | storage/views.py:586-591 | removes only the entry with that key, if present |
| Transactions.Storage.Receive | storage/views.py:192-195 | the asset's history gains the price; its stock gains the signed quantity and is saved exactly when the result is not negative; no other asset changes |
| Transactions.Storage.ImportStep | storage/views.py:191-201 | one pass of the import loop does what `ImportApply` specifies to the assets and the item table, and reports its error |
| Transactions.Storage.ImportLoop | storage/views.py:190-201 | the assets and item table end as `ImportRun` specifies, with its error |
| Transactions.Storage.ImportCommit | storage/views.py:180-205 | refused with an empty draft or invalid form; otherwise one record is saved and the loop runs as `ImportRun`, stopping at a missing asset, a stock below zero or a negative item quantity; the draft is cleared only when the loop finished |
| Transactions.Storage.Dispatch | storage/views.py:495-497 | the stock changes by minus the signed quantity and is saved exactly when it stays non-negative; otherwise nothing changes |
| Transactions.Storage.ExportStep | storage/views.py:495-502 | one pass of the export loop does what `ExportApply` specifies to the assets and the item table, and reports its error |
| Transactions.Storage.ExportLoop | storage/views.py:493-502 | the assets and item table end as `ExportRun` specifies, with its error |
| Transactions.Storage.SaveExportForm | storage/forms.py:245-255 | the instance takes the selected entity's kind and id, and a record is stored only when `commit` is set |
| Transactions.Storage.ExportCommit | storage/views.py:468-507 | refused for an unknown type, an empty draft, invalid fields or no entity; otherwise one record with the URL's type is saved and the loop runs as `ExportRun`, stopping at a missing asset, a short stock or a negative item quantity; the draft is cleared only when the loop finished |
| Transactions.Storage.MarkReturned | storage/views.py:747-788 | the return number is `NewReturnId` of both tables, and the chosen table's items end as `ReturnRun` marks them, each request's mark dated by the clock reading of its own pass; the other table is unchanged |
| Transactions.Storage.MarkExportItems | storage/views.py:780-788 | the export items end with the marks `ReturnRun` gives them |
| Transactions.Storage.MarkImportItems | storage/views.py:780-788 | the import items end with the marks `ReturnRun` gives them |
| Transactions.WithExportMarks | storage/views.py:784-788 | only the return fields of the items change |
| Transactions.WithImportMarks | storage/views.py:784-788 | only the return fields of the items change |
| Returns.HighestReturnId | storage/views.py:747-748 | the highest return number of a table: none is above it, it is one of them, and 0 when none was returned |
| Returns.ExportMarks | storage/models.py:192-200 | the return fields of each export item, in table order |
| Returns.ImportMarks | storage/models.py:148-154 | the return fields of each import item, in table order |
| Returns.ExportIds | storage/views.py:783 | the id of each export item, in table order |
| Returns.ImportIds | storage/views.py:783 | the id of each import item, in table order |
| Returns.NewReturnId | storage/views.py:747-755 | above every return number in either table, 1 when none exists, and the number below it is one already given, so none is skipped |
| Returns.ReturnApply | storage/views.py:783-788 | one request marks only the item with its id |
| Returns.MarkFor | storage/views.py:784-787 | a mark carries the shared number, its pass's date and the purpose; a condition exactly for export items, and then the request's |
| Returns.ReturnRun | storage/views.py:780-788 | the loop keeps the number of items |
| Returns.ReturnRunMissing | storage/views.py:780-788 | the loop stops exactly when a request names an item that does not exist, and reports that id |
| Returns.ReturnRunMarks | storage/views.py:780-788 | after a finished loop each named item carries the mark of the last request naming it, dated by that request's pass; others keep theirs |
| Returns.LastRequestFor | storage/views.py:780-788 | the position of the last request naming an item: it names the item and no later one does; none exactly when no request names it |
| Returns.ReturnRunSharesId | storage/views.py:787 | every item of one submission gets the same return number, and the date of the pass of a request naming it |
| Returns.ReturnRunSticky | storage/views.py:780-788 | once a request has stopped the loop, later requests change nothing |
| Reconciliation.Selected | storage/views.py:981-982 | exactly the items of the asset dated on or before the cutoff, in query order |
| Reconciliation.CollectTimeline | storage/views.py:985-998 | the timeline is the imports' entries followed by the exports' |
| Reconciliation.ReplayTimeline | storage/views.py:1003-1015 | the running-total loop produces `Replay` of the timeline |
| Reconciliation.Replay | storage/views.py:1003-1015 | one difference per timeline entry |
| Reconciliation.ReplayEntries | storage/views.py:1004-1015 | each difference records its own entry's date, type and quantity, in timeline order |
| Reconciliation.ReconcileAsset | storage/views.py:966-1023 | the row of one asset is its `AssetReport` |
| Reconciliation.AssetReport | storage/views.py:966-1023 | a row carries the asset's id, stock, unit and average price, and one difference for each of its items dated on or before the cutoff |
| Reconciliation.EntryLeTotalPreorder | storage/views.py:1000 | comparing dates is a total preorder |
| Reconciliation.TimelineMembers | storage/views.py:981-998 | the timeline holds exactly the selected imports and exports, each once |
| Reconciliation.TimelineSorted | storage/views.py:1000 | the timeline is in date order |
| Reconciliation.TimelineSameDay | storage/views.py:987-1000 | on any one day, the imports come first in query order, then the exports in query order |
| Reconciliation.RunningTotalStep | storage/views.py:1003-1015 | each running total is the previous one (0 at first) plus an import's quantity or minus an export's |
| Reconciliation.NetAppend | storage/views.py:1003-1008 | the net movement of two runs of entries adds up |
| Reconciliation.NetInsertBy | storage/views.py:1000 | inserting an entry adds its signed quantity to the net movement |
| Reconciliation.NetSortBy | storage/views.py:1000 | sorting does not change the net movement |
| Reconciliation.NetEntries | storage/views.py:1018-1019 | the net movement of the imports is their quantity sum, that of the exports its negation |
| Reconciliation.TimelineNet | storage/views.py:1018-1020 | the timeline's net movement is total imports minus total exports |
| Reconciliation.ReplayLast | storage/views.py:1003-1015 | the last running total is the net movement of the timeline |
| Reconciliation.ReplayFinal | storage/views.py:1003-1020 | the last running total, or 0 with no entries, is the net movement |
| Reconciliation.NetQuantityIsFinalTotal | storage/views.py:1018-1020 | `net_quantity` equals the last running total, and 0 for an empty timeline |
| Reconciliation.StrLeTotal | storage/views.py:1025 | any two category names compare one way or the other |
| Reconciliation.StrLeTransitive | storage/views.py:1025 | string comparison chains |
| Reconciliation.StrLeAntisymmetric | storage/views.py:1025 | names comparing both ways are equal |
| Reconciliation.RowLeTotalPreorder | storage/views.py:1025 | the (category name, id) order is a total preorder |
| Reconciliation.ReportInventory | storage/views.py:959-1027 | one row per asset (the rows of all assets, each once), sorted by (category name, id) |
| StorageForms.ExportTypeNames | storage/models.py:161-166 | the stored names and the export types correspond one to one |
| StorageForms.RecipientKindFor | storage/forms.py:219-232 | Personal lists employees, Loan sub-affiliates, Consume and Department departments, and nothing else maps to those |
| StorageForms.PlaceholderFor | storage/forms.py:219-232 | every recipient list has a non-empty placeholder |
| StorageForms.PlaceholderNamesKind | storage/forms.py:219-232 | different kinds of recipient have different placeholders |
| StorageForms.IdText | storage/forms.py:180-184 | a choice value is a non-empty string of decimal digits |
| StorageForms.IdTextValue | storage/forms.py:180-184 | reading a choice value back gives the key, so distinct rows have distinct values |
| StorageForms.OfKind | storage/forms.py:222 | exactly the rows of one recipient model |
| StorageForms.ModelChoices | storage/forms.py:180-184 | a model choice list is an empty choice followed by one choice per row |
| StorageForms.ExportRecordForm.constructor | storage/forms.py:190-199 | with an export type, the recipient list is set for it and `export_type` is initialised to it and hidden; without one, both fields are left as declared |
| StorageForms.ExportRecordForm.SetEntityQueryset | storage/forms.py:219-232 | Consume and Department list departments, Personal employees, Loan sub-affiliates, each behind its placeholder; any other string changes nothing |
| StorageForms.RecipientChoices | storage/forms.py:219-232 | after the placeholder, the list shows exactly the rows of the type's model |
| StorageForms.CleanEntity | storage/forms.py:236-243 | valid exactly when an entity is selected, and then it is kept |
| StorageForms.SaveInstance | storage/forms.py:245-255 | the saved instance keeps the date and type, and records the selected entity's model and id |
| StorageForms.SavedEntityResolves | storage/forms.py:245-255 | the stored (type, id) pair designates the selected recipient again |
| StorageForms.CleanCategoryName | storage/forms.py:56-60 | accepted, unchanged, exactly when no category already has the name |
| StorageForms.CategoryNamesStayDistinct | storage/forms.py:56-60 | categories created through the form never share a name |
| StorageForms.CleanYear | storage/forms.py:308-311 | accepted, unchanged, exactly when given and within 2011 to the current year |
| StorageForms.InitialYearAccepted | storage/forms.py:308-311 | the initial (previous) year is accepted exactly when the current year is 2012 or later |
| StorageForms.ExportableAssets | storage/forms.py:271 | exactly the assets with stock above zero |
| StorageForms.ImportedAssetsExportable | storage/forms.py:271 | an asset a finished import brings a positive quantity of becomes exportable |
| CoreForms.ChoiceField.SetFirstChoice | core/forms.py:13-17 | element 0 becomes `('', placeholder)` and every other choice and the length are kept; an empty list raises and is left as it was |
| CoreForms.Matches | core/forms.py:42-54 | a string the pattern matches is at least as long as the pieces' minimum counts together |
| CoreForms.NamePieceChars | core/forms.py:42 | the character class of the name pattern is Arabic letters U+0621..U+064A and whitespace |
| CoreForms.NamePatternComplete | core/forms.py:42 | every non-empty string of those characters matches |
| CoreForms.NamePatternSound | core/forms.py:42 | only such strings match |
| CoreForms.NamePatternMeaning | core/forms.py:42-44 | the name pattern matches exactly the non-empty strings of Arabic letters and whitespace |
| CoreForms.PhonePieceChars | core/forms.py:53 | the three pieces of the phone pattern take '0', '9' and decimal digits |
| CoreForms.FirstPieceMatch | core/forms.py:53 | a match consumes a prefix allowed by the first piece and matches the rest with the others |
| CoreForms.PhonePatternSound | core/forms.py:53 | only "09" plus eight decimal digits (and an optional final newline) matches |
| CoreForms.PhonePatternComplete | core/forms.py:53 | every such string matches |
| CoreForms.PhonePatternMeaning | core/forms.py:53-54 | the phone pattern matches exactly "09", eight Unicode decimal digits and an optional final newline |
| CoreForms.CleanName | core/forms.py:40-44 | a name is accepted, unchanged, exactly when non-empty and all Arabic letters or whitespace; otherwise the Arabic-letters error |
| CoreForms.CleanPhone | core/forms.py:51-56 | a phone is accepted, unchanged, exactly when it has the "09" shape; otherwise the phone error |
| CoreForms.ContainsMeaning | core/forms.py:59 | `sub in s` holds exactly when `sub` occurs at some position of `s` |
| CoreForms.TreatmentOf | core/forms.py:36-61 | only `name` gets the name rule, only `phone` the phone rule, other names containing "date" the date rule: at most one each |
| CoreForms.HooksForNext | core/forms.py:45-57 | the hooks of one more field are those before plus that field's |
| CoreForms.TreatAll | core/forms.py:33-61 | the loop keeps the set of widgets |
| CoreForms.TreatAllMeaning | core/forms.py:33-61 | after the loop each field has the treatment its name selects applied once to its original attributes; other widgets are unchanged |
| CoreForms.Form.TreatField | core/forms.py:34-61 | one pass sets the field's `pattern` or `id` attribute and installs its hook |
| CoreForms.Form.TreatFields | core/forms.py:33-61 | the loop leaves the widgets as `TreatAll` and installs the hooks of the fields |
| CoreForms.Form.Validate | core/forms.py:31-61 | every field gets exactly the treatment its name selects; `clean_name`/`clean_phone` are installed exactly when there is such a field |

## Left out

- HTTP handling, templates, redirects, messages, tables, admin and URL routing: they carry no behaviour beyond the calls modelled here.
- ORM query construction (`Q` filters, `icontains`, storage/filters.py): item collections are input sequences in table order.
- PDF generation (storage/genpdf.py) is not part of this model. Two defects in it are not modelled: the export PDF sums unit prices rather than line totals (storage/genpdf.py:193-194), and the row number is incremented outside the loop (storage/genpdf.py:204).
- Settings and the migrator management command: configuration and file I/O.
- Concurrency: there is no `transaction.atomic` and no row locking, so two requests can interleave their read-modify-write of `stock`. Each commit is modelled as one sequential method, and its partial effects after an error are kept, as in the code.
- Numeric representation: Decimal's 28-digit context in the mean, the Python float produced by `round(...) / 4` and by the draft screens' `float(price) * int(quantity)`, and the `numeric(10, 2)` column width. All are exact rationals here.
- Session storage: the session lives in the Redis cache (`SESSION_ENGINE` is the cache backend), which pickles the dict, so draft keys keep their Python types from one request to the next. Export draft keys are the integers `export_item_add` computes, as here; import draft keys are the raw asset-id strings, which the model takes as parsed integers (see the line below on the raw query strings).
- The `return_create` view as a whole: it names an undefined `ReturnItemForm` (storage/views.py:740) and its form has `model = None` (storage/forms.py:296). Only the return-number allocation and the annotation loop are modelled, with the chosen table as a parameter. `return_item_add` always looks items up in `ExportItem` (storage/views.py:838); that view is not modelled.
- Returns.HighestReturnId: a return mark always carries a number, so the model has no item with `return_at` set and `return_id` NULL. In that state `order_by('-return_id')` would put the NULL first and `max(None, ...)` would raise `TypeError`; no modelled view writes a return date without a number.
- Transactions.Storage.MarkImportItems: the condition written to an import item is dropped, because `ImportItem` has no `return_condition` column.
- `timezone.now()` and `datetime.now().year` are parameters: `nows`, one clock reading per pass of the return loop, and `currentYear`.
- Transactions.Session.ImportItemAdd, Transactions.Session.ExportItemAdd, Transactions.Storage.ImportCommit, Transactions.Storage.ExportCommit: the drafts keep the raw query strings. The model takes the asset id, the quantity and the price already parsed as numbers, of any sign. Not modelled: a quantity or price that is not a number (`int()` or the `Decimal` conversion raises, after `add_price` has saved the price on import); an asset id that is not a number (`Asset.objects.get` raises `ValueError`, which `except Asset.DoesNotExist` does not catch); and an id spelled differently from its canonical form (`"07"` and `"7"` make two import draft entries for one asset).
- Transactions.Storage.ExportCommit: `save(commit=False)` followed by setting the type and saving is modelled with `StorageForms.SaveInstance` directly. `Transactions.Storage.SaveExportForm` models `save` on its own.
- Transactions.Storage.ExportCommit: the record takes the export type from the URL, not the posted `export_type` field. The posted field is not modelled.
- The views write `asset.stock` directly rather than calling `update_stock`. Dispatch and Receive model what the views do. StorageModels.Asset.UpdateStock models the method itself, with the same non-negative-stock check at save.
- `set_field_attrs` (placeholder, direction and autocomplete attributes) and the crispy-forms layouts: presentation only.
- Form field cleaning done by Django itself (stripping of `CharField` values, integer parsing of the year, model choice lookup): inputs arrive already parsed, as an `Option` when they may be missing.
- Timeline dates are compared as (year, month, day). That is the order of the `%Y-%m-%d` strings the source sorts, for four-digit years.
- `\d` is Unicode category Nd as of Unicode 15.0. `\s` is `str.isspace()`.
- StorageModels.Asset.AveragePrice and StorageModels.Asset.MedianPrice only delegate to `Pricing`, where their contracts are stated.
- `core/views.py`: CRUD views over a lookup table, with nothing to state.
- The model follows the code where it departs from what the application is documented to do:
  - `round` is half-to-even, not half-up;
  - an export does not check that stock suffices;
  - a drafted quantity's sign is never checked, and a negative one fails only at the database;
  - commits and returns are not all-or-nothing.
