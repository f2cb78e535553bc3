# Stock transfer form — a Dafny model

This project models the logic of the `Transfer` React component
(`src/components/Transfer.js`). Warehouse staff use it to move a batch of an item
from one bin to another. The steps are:

- search a batch number;
- pick a source warehouse and bin from the lists the search yields;
- pick a destination warehouse and bin from the bin-location list;
- enter a quantity, a posting date and a remark;
- confirm.

The form then posts a stock-transfer request to the ERP back end.

The model has these modules:

- `Wrappers`: `Option` and `Result`.
- `Stock`: the records the form works on.
  - A batch-in-bin search row is a `BatchStockRecord`.
  - A bin-location entry is a `BinLocation`.
  - The user's draft is a `Draft` holding the seven input slots.
  - It also defines JavaScript's `findIndex`/`find` and `filter` as `FindIndex` and `Filter`.
- `DistinctLists`: the `[...new Set(codes)]` lists.
- `BinFilters`: the two cascading bin filters.
  - Source bins match the source warehouse by prefix.
  - Destination bins match the destination warehouse exactly.
- `StockQuantity`: `updateAvailableQuantity`.
- `Validation`: `validateFields`. The result is a field-to-message map and a verdict.
- `Payload`: the request body built by `postTransfer`.
- `Form`: the component's state.
  - The state is the class `TransferForm`, with one field per `useState` slot. The seven draft slots are held together in `draft`.
  - There is one method per handler.
  - There is one method per `useEffect`, and `Settle` runs them in dependency order.
  - Two BATCH001 walk-throughs complete the module.

The class invariant `Valid` has two parts:

- the warehouse and bin lists are always the distinct codes of the data they come from;
- the confirmation panel is only open over a summary.

Every method preserves `Valid`. Quantities are integers, and the empty quantity
input counts as 0, as JavaScript's comparison coerces it. Posting dates are day
numbers, and "today" is always a parameter.

## Model

| member | source | states |
|---|---|---|
| Stock.WhsCodes | src/components/Transfer.js:101 | One warehouse code per search record, in record order. |
| Stock.BinCodes | src/components/Transfer.js:104 | One bin code per search record, in record order. |
| Stock.LocationWarehouses | src/components/Transfer.js:59 | One warehouse code per bin location, in list order. |
| Stock.FindIndex | src/components/Transfer.js:129 | The result is the first index whose element satisfies the predicate, or `None` exactly when no element does. |
| Stock.Filter | src/components/Transfer.js:80-82 | The filtered sequence is never longer than the input. |
| Stock.FilterMembers | src/components/Transfer.js:80-82 | Every kept element comes from the input and satisfies the predicate. Every input element that satisfies the predicate is kept. |
| Stock.FilterAppend | src/components/Transfer.js:80-82 | Filtering a concatenation is the concatenation of the filtered parts, so kept elements keep their relative order. |
| Stock.FilterKeepsAll | src/components/Transfer.js:80-82 | When the predicate holds of every element, the filter returns the input unchanged. |
| DistinctLists.FirstIndex | src/components/Transfer.js:100-102 | The position of a code's first occurrence: nothing equal comes earlier. `DistinctProperties` states its order property through it; the component itself never computes it. |
| DistinctLists.Distinct | src/components/Transfer.js:100-105 | The `[...new Set(codes)]` list holds only codes of its input. `DistinctProperties` gives the rest of its meaning. |
| DistinctLists.DistinctProperties | src/components/Transfer.js:100-105 | The distinct list holds exactly the codes of its input, each once, in first-occurrence order (the order a `Set` inserts them). |
| DistinctLists.DistinctHead | src/components/Transfer.js:100-108 | `warehouses[0]` is the warehouse of the first search record. |
| BinFilters.StartsWith | src/components/Transfer.js:81 | A string that starts with a prefix is that prefix followed by the rest of the string. |
| BinFilters.StartsWithConcat | src/components/Transfer.js:81 | Conversely, every continuation of a prefix starts with it. |
| BinFilters.SourceBins | src/components/Transfer.js:80-82 | A bin is offered as a source exactly when it is in the source list and starts with the selected warehouse code. |
| BinFilters.SourceBinsAppend | src/components/Transfer.js:80-82 | The source-bin filter distributes over concatenation, so offered bins keep the list's order. |
| BinFilters.SourceBinsNoWarehouse | src/components/Transfer.js:80-82 | With no warehouse selected, the prefix `""` keeps every bin. |
| BinFilters.DestinationBins | src/components/Transfer.js:73-76 | A code is offered as a destination exactly when some location has that code and lies in exactly the selected warehouse. There are never more codes than locations. |
| BinFilters.DestinationBinsAppend | src/components/Transfer.js:73-76 | The destination filter distributes over concatenation, so offered codes keep the location list's order. |
| BinFilters.OfferedWarehouseHasBins | src/components/Transfer.js:58-76 | A warehouse is in the destination-warehouse list exactly when choosing it offers at least one destination bin. |
| StockQuantity.WarehouseTotal | src/components/Transfer.js:132-134 | The total is 0 when no record lies in the warehouse. It is never negative when no record's stock is. |
| StockQuantity.WarehouseTotalAppend | src/components/Transfer.js:132-134 | The warehouse sum over a concatenation is the sum of the two parts' sums. |
| StockQuantity.RecordWithinWarehouseTotal | src/components/Transfer.js:132-134 | With no negative stock, one record of a warehouse never exceeds the warehouse total. |
| StockQuantity.AvailableQuantity | src/components/Transfer.js:127-137 | With a bin, the result is the stock of the first record in that bin, whatever its warehouse, or 0 when no record is in that bin. Without a bin, it is the warehouse total. |
| StockQuantity.BinWithinWarehouse | src/components/Transfer.js:127-137 | With no negative stock, narrowing the selection from a warehouse to one of its bins never raises the available quantity. |
| StockQuantity.Batch001Quantities | src/components/Transfer.js:127-137 | For BATCH001, with WH1-A1 = 5 and WH1-A2 = 3, warehouse WH1 offers 8 and bin WH1-A1 offers 5. |
| Validation.ValidationMessages | src/components/Transfer.js:151-163 | Each field has a message exactly when its rule fails. Each location field fails when empty. The quantity fails when it is ≤ 0 or above the stock. The posting date fails when it is after today. |
| Validation.MessageTexts | src/components/Transfer.js:153-162 | A location gets the "required" message. A quantity above the stock gets the "exceed" message even when it is also ≤ 0, because that rule runs last. The "not positive" message remains only when the quantity is within the stock. A later date gets the "future" message. |
| Validation.ValidIffNoMessages | src/components/Transfer.js:151-166 | The message map is empty exactly when all four locations are chosen, 0 < quantity ≤ available, and the date is not after today. |
| Payload.AbsEntryOf | src/components/Transfer.js:276-281 | The result is the entry number of the first location with the code. It is `None` exactly when no location has it. |
| Payload.MovedRecords | src/components/Transfer.js:288-289 | The records the request moves are never more than the search records. `MovedRecordsMembers` says which they are. |
| Payload.MovedRecordsMembers | src/components/Transfer.js:288-289 | The moved records are exactly the records lying in the source bin or in the destination bin. |
| Payload.MakeLine | src/components/Transfer.js:290-316 | The line built for one record moves the quantity of that record's batch, from its warehouse to the destination warehouse. It allocates the quantity out of the source bin's entry and into the destination bin's entry. |
| Payload.TransferLines | src/components/Transfer.js:288-316 | There is one line per moved record, in record order. The `i`-th line has the `i`-th record's item, warehouse and batch, no serial numbers, and the quantity in the line, in the batch entry and in both allocations. Its allocations are exactly a from-allocation on the source entry and a to-allocation on the destination entry. |
| Payload.BuildRequest | src/components/Transfer.js:275-317 | The request fails exactly when the source or the destination bin is missing from the location list, and the error names the destination bin first. Otherwise the header carries the memo, the remark and both warehouses, and the lines are as `TransferLines` states, with the first-match entry numbers. |
| Payload.DestinationRecordAlsoDrawsFromSource | src/components/Transfer.js:288-316 | A record that already lies in the destination bin also gets a line. That line, too, allocates the quantity out of the source bin. |
| Form.TransferForm.constructor | src/components/Transfer.js:6-28 | The initial state is the blank draft dated today, with empty lists, no data, quantity 0 and no memo. |
| Form.TransferForm.BinLocationsLoaded | src/components/Transfer.js:51-70 | A delivered list replaces the locations, and the destination warehouses become its distinct warehouses. A failed request changes neither. |
| Form.TransferForm.JournalMemoLoaded | src/components/Transfer.js:168-182 | Only a delivered, non-empty memo replaces the stored one. |
| Form.TransferForm.RefilterDestinationBins | src/components/Transfer.js:72-77 | The offered destination bins are recomputed for the selected destination warehouse. |
| Form.TransferForm.RefilterSourceBins | src/components/Transfer.js:79-87 | The offered source bins are recomputed. A selected source bin no longer offered is cleared, and the rest of the draft is unchanged. Afterwards the source bin is offered or empty. |
| Form.TransferForm.RecomputeAvailable | src/components/Transfer.js:139-141 | The available quantity is recomputed for the current bin and warehouse. |
| Form.TransferForm.Settle | src/components/Transfer.js:72-141 | After all effects run, both filtered lists match their selections. No stale source bin remains, and the available quantity matches the selection. |
| Form.TransferForm.FromWarehouseSelected | src/components/Transfer.js:350-353 | Choosing a source warehouse stores it. The source bins are refiltered for it, and a source bin it no longer offers is cleared. The available quantity is recomputed for it, as the effects at lines 79-87 and 139-141 do. |
| Form.TransferForm.FromBinSelected | src/components/Transfer.js:354-357 | Choosing a source bin stores it whether or not it is offered, and only the available quantity is recomputed (the effect at lines 139-141). |
| Form.TransferForm.ToWarehouseSelected | src/components/Transfer.js:359-362 | Choosing a destination warehouse stores it and refilters the destination bins (the effect at lines 72-77). The chosen destination bin is kept. |
| Form.TransferForm.Search | src/components/Transfer.js:89-125 | A non-empty result stores the records, clears the notice and offers the first warehouse's total, with the lists kept derived. An empty result or a failed request clears the records, both source lists and the quantity, and shows the matching notice. |
| Form.TransferForm.Validate | src/components/Transfer.js:151-166 | The stored messages are the validation map. The result is true exactly when the map is empty, which is exactly when the draft is valid. |
| Form.TransferForm.TransferClick | src/components/Transfer.js:184-198 | When the draft is valid, the summary becomes the current draft and the panel opens. Otherwise the summary and the panel stay as they were. The messages are stored either way. |
| Form.TransferForm.ConfirmTransfer | src/components/Transfer.js:200-221 | Callable only with the panel open, as its button only shows then. The request sent is the one built from the memo, the draft before the reset, the records and the locations. Afterwards the draft is blank and the panel closed. |
| Form.TransferForm.AbortTransfer | src/components/Transfer.js:223-225 | Callable only with the panel open. The panel closes and nothing else changes. |
| Form.TransferForm.ClearAll | src/components/Transfer.js:227-229 | The draft returns to blank. Records, lists and quantity stay. |
| Form.TransferForm.ResetFields | src/components/Transfer.js:231-244 | The draft returns to blank: empty search term and inputs, date today, no notice, no summary, panel closed, no messages. Records, lists and the available quantity stay. |
| Form.TransferForm.QuantityChanged | src/components/Transfer.js:246-260 | A negative quantity draws the "negative" notice. One above the stock draws the "exceed" notice. Otherwise the notice is cleared. The quantity is taken either way. |
| Form.TransferForm.PostingDateChanged | src/components/Transfer.js:262-273 | A date after today draws the "future" notice, otherwise the notice is cleared. The date is taken either way. |
| Form.PlaceholderSourceBin | src/components/Transfer.js:354-357 | Choosing the "Source Bin" placeholder stores it as the source bin. With BATCH001 nothing is available in it, yet the required-bin rule does not flag it. |
| Form.Batch001Refusal | src/components/Transfer.js:184-198 | With BATCH001 searched and WH1 chosen (8 available), a quantity of 10 draws the "exceed" notice. The transfer click gives the quantity the same message and does not open the confirmation. |

## Left out

- Network calls (`axios.post` to the search, bin-location, journal-memo and stock-transfer endpoints). Their results are parameters:
  - a `SearchResponse`;
  - an optional location list;
  - an optional memo;
  - the `delivered` outcome of the transfer post.
- The response of the transfer post (`DocEntry`) is not modelled, because it is only shown in an `alert`.
- Asynchrony and React scheduling. Each `useEffect` is an explicit method that the caller runs, and `Settle` runs all of them in order. Overlapping searches are not modelled.
- Form.TransferForm.Search: the source calls `updateAvailableQuantity("", warehouses[0])` through a closure that still sees the previous `batchData` (line 108). The model computes it from the new records instead. In the component, the effect at lines 139-141 overwrites that value as soon as it runs, which `Settle` models.
- Form.TransferForm.ConfirmTransfer: the failure notice set at line 214 is erased by the reset at line 240. So the final state does not depend on `delivered` or on a missing bin; only the returned request shows them. The second `setShowConfirmation(false)` (line 220) is not modelled separately, because the reset already closes the panel.
- Dates: `Date` parsing, time zones and the ISO string form. A date is a day number compared with a supplied `today`.
- JavaScript coercion beyond "empty quantity is 0", and non-integer quantities.
- Payload.BuildRequest: the posting date is never part of the request, because the source does not send it.
- Plain input setters with no effect behind them are direct assignments to the fields: `setSearchTerm`, `setRemark`, and the "To Bin" dropdown's `setToBin`.
- Form.TransferForm.Settle: it runs every effect, so afterwards the source bin is offered or empty. The component runs the source-bin effect only when `fromWarehouse` or `fromBinList` changes, not when a bin is chosen. After `FromBinSelected`, `Settled` need not hold: the chosen bin, even the "Source Bin" placeholder, stays until the next warehouse change (see `PlaceholderSourceBin`). `Settle` describes the state after a search or a warehouse change, not after a bin selection.
- Rendering, `alert` and `console` output.
- The commented-out earlier `fetchToBinLocations` (lines 30-49).
- BinFilters.DestinationBins: the contract states which codes are offered. The order is stated separately, by `DestinationBinsAppend`.
- BinFilters.SourceBins: the contract states which codes are offered. The order is stated separately, by `SourceBinsAppend`.
- Form.Batch001Selection has no contract of its own. Its assertions check the BATCH001 walk-through, done with the dropdown handlers: 8 for warehouse WH1, then 5 for bin WH1-A1.
