/** The `Transfer` form's state and the handlers and effects that update it. */
module Form {
  import opened Wrappers
  import opened Stock
  import opened DistinctLists
  import opened BinFilters
  import opened StockQuantity
  import opened Validation
  import opened Payload

  /** The single error line shown above the form. */
  datatype Notice =
    | NoNotice
    | NoDataFound              // "No data found for the provided search term."
    | SearchFailed             // "An error occurred while fetching data."
    | NegativeQuantity         // "Quantity cannot be negative."
    | QuantityAboveStock(available: int)
    | PostingDateInFuture      // "Posting date cannot be in the future."
    | TransferFailed           // "An error occurred during the transfer."

  /** What the batch-in-bin search returned: its `value` list (empty when
      missing), or a failed request. */
  datatype SearchResponse = Records(value: seq<BatchStockRecord>) | RequestError

  class TransferForm {
    var searchTerm: string
    var batchData: seq<BatchStockRecord>
    var errorMessage: Notice
    /** The slots fromWarehouse, fromBin, toWarehouse, toBin, quantity,
        postingDate and remark, held together. */
    var draft: Draft
    var availableQuantity: int
    var fromWarehouseList: seq<string>
    var fromBinList: seq<string>
    var toWarehouseList: seq<string>
    var toBinList: seq<BinLocation>
    var filteredFromBinList: seq<string>
    var filteredToBinList: seq<string>
    var transferSummary: Option<Draft>
    var showConfirmation: bool
    var validationMessages: map<Field, Message>
    var nextJournalMemo: string

    /** The distinct-code lists always match the data they come from. */
    ghost predicate ListsDerived()
      reads this`batchData, this`fromWarehouseList, this`fromBinList, this`toWarehouseList, this`toBinList
    {
      && fromWarehouseList == Distinct(WhsCodes(batchData))
      && fromBinList == Distinct(BinCodes(batchData))
      && toWarehouseList == Distinct(LocationWarehouses(toBinList))
    }

    /** The form's invariant: the derived lists match their data, and the
        confirmation panel is only open over a summary. */
    ghost predicate Valid()
      reads this`batchData, this`fromWarehouseList, this`fromBinList, this`toWarehouseList,
            this`toBinList, this`showConfirmation, this`transferSummary
    {
      ListsDerived() && (showConfirmation ==> transferSummary.Some?)
    }

    /** The state once every effect has run: both bin lists filtered for the
        selected warehouses, no stale source bin, and the available quantity
        computed for the current selection. */
    ghost predicate Settled()
      reads this`filteredToBinList, this`toBinList, this`draft, this`filteredFromBinList,
            this`fromBinList, this`availableQuantity, this`batchData
    {
      && filteredToBinList == DestinationBins(toBinList, draft.toWarehouse)
      && filteredFromBinList == SourceBins(fromBinList, draft.fromWarehouse)
      && (draft.fromBin in filteredFromBinList || draft.fromBin == "")
      && availableQuantity == AvailableQuantity(batchData, draft.fromBin, draft.fromWarehouse)
    }

    /** The blank draft: every field empty and the posting date today. */
    ghost predicate DraftIsBlank(today: Day)
      reads this`searchTerm, this`draft, this`errorMessage,
            this`transferSummary, this`showConfirmation, this`validationMessages
    {
      && searchTerm == ""
      && draft == Draft("", "", "", "", 0, today, "")
      && errorMessage == NoNotice
      && transferSummary == None && !showConfirmation
      && validationMessages == map[]
    }

    constructor (today: Day)
      ensures Valid() && DraftIsBlank(today)
      ensures batchData == [] && availableQuantity == 0
      ensures fromWarehouseList == [] && fromBinList == []
      ensures toWarehouseList == [] && toBinList == []
      ensures filteredFromBinList == [] && filteredToBinList == []
      ensures nextJournalMemo == ""
    {
      searchTerm := "";
      batchData := [];
      errorMessage := NoNotice;
      draft := Draft("", "", "", "", 0, today, "");
      availableQuantity := 0;
      fromWarehouseList, fromBinList := [], [];
      toWarehouseList, toBinList := [], [];
      filteredFromBinList, filteredToBinList := [], [];
      transferSummary := None;
      showConfirmation := false;
      validationMessages := map[];
      nextJournalMemo := "";
    }

    /** `fetchToBinLocations` once the response is in: a list replaces the
        locations and their distinct warehouses; a failure leaves both. */
    method BinLocationsLoaded(response: Option<seq<BinLocation>>)
      requires Valid()
      modifies this`toWarehouseList, this`toBinList
      ensures Valid()
      ensures response.Some? ==> toBinList == response.value
      ensures response.None? ==> toBinList == old(toBinList) && toWarehouseList == old(toWarehouseList)
    {
      if response.Some? {
        toWarehouseList := Distinct(LocationWarehouses(response.value));
        toBinList := response.value;
      }
    }

    /** `fetchNextJournalMemo` once the response is in: only a non-empty memo is kept. */
    method JournalMemoLoaded(response: Option<string>)
      requires Valid()
      modifies this`nextJournalMemo
      ensures Valid()
      ensures nextJournalMemo == if response.Some? && response.value != "" then response.value else old(nextJournalMemo)
    {
      if response.Some? && response.value != "" {
        nextJournalMemo := response.value;
      }
    }

    /** The effect on `[toWarehouse, toBinList]`. */
    method RefilterDestinationBins()
      requires Valid()
      modifies this`filteredToBinList
      ensures Valid()
      ensures filteredToBinList == DestinationBins(toBinList, draft.toWarehouse)
    {
      filteredToBinList := DestinationBins(toBinList, draft.toWarehouse);
    }

    /** The effect on `[fromWarehouse, fromBinList]`: refilter the source
        bins and drop a selected bin that is no longer offered. */
    method RefilterSourceBins()
      requires Valid()
      modifies this`filteredFromBinList, this`draft
      ensures Valid()
      ensures filteredFromBinList == SourceBins(fromBinList, draft.fromWarehouse)
      ensures draft.fromBin in filteredFromBinList || draft.fromBin == ""
      ensures draft == if old(draft.fromBin) in filteredFromBinList then old(draft) else old(draft).(fromBin := "")
    {
      var filtered := SourceBins(fromBinList, draft.fromWarehouse);
      filteredFromBinList := filtered;
      if draft.fromBin !in filtered {
        draft := draft.(fromBin := "");
      }
    }

    /** The effect on `[fromBin, fromWarehouse, batchData]`. */
    method RecomputeAvailable()
      requires Valid()
      modifies this`availableQuantity
      ensures Valid()
      ensures availableQuantity == AvailableQuantity(batchData, draft.fromBin, draft.fromWarehouse)
    {
      availableQuantity := AvailableQuantity(batchData, draft.fromBin, draft.fromWarehouse);
    }

    /** Runs every effect, the source-bin one before the quantity one since
        clearing `fromBin` triggers the latter again. */
    method Settle()
      requires Valid()
      modifies this`filteredToBinList, this`filteredFromBinList, this`draft, this`availableQuantity
      ensures Valid() && Settled()
      ensures draft == if old(draft.fromBin) in filteredFromBinList then old(draft) else old(draft).(fromBin := "")
    {
      RefilterDestinationBins();
      RefilterSourceBins();
      RecomputeAvailable();
    }

    /** The "From Warehouse" dropdown: takes the choice (the placeholder
        "Source Warehouse" included), then the two effects that depend on it run. */
    method FromWarehouseSelected(warehouse: string)
      requires Valid()
      modifies this`filteredFromBinList, this`draft, this`availableQuantity
      ensures Valid()
      ensures filteredFromBinList == SourceBins(fromBinList, warehouse)
      ensures draft == if old(draft.fromBin) in filteredFromBinList
                       then old(draft).(fromWarehouse := warehouse)
                       else old(draft).(fromWarehouse := warehouse, fromBin := "")
      ensures availableQuantity == AvailableQuantity(batchData, draft.fromBin, warehouse)
    {
      draft := draft.(fromWarehouse := warehouse);
      RefilterSourceBins();
      RecomputeAvailable();
    }

    /** The "From Bin" dropdown: takes the choice, whether or not the current
        warehouse offers it (the placeholder "Source Bin" included); only the
        quantity effect depends on `fromBin`, so no bin check runs. */
    method FromBinSelected(bin: string)
      requires Valid()
      modifies this`draft, this`availableQuantity
      ensures Valid()
      ensures draft == old(draft).(fromBin := bin)
      ensures availableQuantity == AvailableQuantity(batchData, bin, draft.fromWarehouse)
    {
      draft := draft.(fromBin := bin);
      RecomputeAvailable();
    }

    /** The "To Warehouse" dropdown: takes the choice and refilters the
        destination bins; a selected destination bin is kept even if no
        longer offered. */
    method ToWarehouseSelected(warehouse: string)
      requires Valid()
      modifies this`draft, this`filteredToBinList
      ensures Valid()
      ensures draft == old(draft).(toWarehouse := warehouse)
      ensures filteredToBinList == DestinationBins(toBinList, warehouse)
    {
      draft := draft.(toWarehouse := warehouse);
      RefilterDestinationBins();
    }

    /** `handleSearch` once the response is in. */
    method Search(response: SearchResponse)
      requires Valid()
      modifies this`batchData, this`errorMessage, this`fromWarehouseList, this`fromBinList,
               this`availableQuantity
      ensures Valid()
      ensures response.Records? && response.value != [] ==>
        && batchData == response.value
        && errorMessage == NoNotice
        && availableQuantity == WarehouseTotal(response.value, response.value[0].whsCode)
      ensures response.Records? && response.value == [] ==>
        && batchData == [] && errorMessage == NoDataFound
        && fromWarehouseList == [] && fromBinList == [] && availableQuantity == 0
      ensures response.RequestError? ==>
        && batchData == [] && errorMessage == SearchFailed
        && fromWarehouseList == [] && fromBinList == [] && availableQuantity == 0
    {
      errorMessage := NoNotice;
      if response.Records? && response.value != [] {
        var records := response.value;
        batchData := records;
        var warehouses := Distinct(WhsCodes(records));
        DistinctHead(WhsCodes(records));
        fromWarehouseList := warehouses;
        fromBinList := Distinct(BinCodes(records));
        availableQuantity := AvailableQuantity(records, "", warehouses[0]);
      } else {
        batchData := [];
        errorMessage := if response.Records? then NoDataFound else SearchFailed;
        fromWarehouseList := [];
        fromBinList := [];
        availableQuantity := 0;
      }
    }

    /** `validateFields(today)`: stores the messages and reports whether there are none. */
    method Validate(today: Day) returns (ok: bool)
      requires Valid()
      modifies this`validationMessages
      ensures Valid()
      ensures validationMessages == ValidationMessages(draft, availableQuantity, today)
      ensures ok <==> validationMessages == map[]
      ensures ok <==> DraftIsValid(draft, availableQuantity, today)
    {
      validationMessages := ValidationMessages(draft, availableQuantity, today);
      ValidIffNoMessages(draft, availableQuantity, today);
      ok := validationMessages == map[];
    }

    /** `handleTransferClick`: a valid draft is copied into the summary and
        the confirmation panel opens; otherwise only the messages change. */
    method TransferClick(today: Day)
      requires Valid()
      modifies this`validationMessages, this`transferSummary, this`showConfirmation
      ensures Valid()
      ensures validationMessages == ValidationMessages(draft, availableQuantity, today)
      ensures DraftIsValid(draft, availableQuantity, today) ==>
        transferSummary == Some(draft) && showConfirmation
      ensures !DraftIsValid(draft, availableQuantity, today) ==>
        transferSummary == old(transferSummary) && showConfirmation == old(showConfirmation)
    {
      var ok := Validate(today);
      if ok {
        transferSummary := Some(draft);
        showConfirmation := true;
      }
    }

    /** `handleAbortTransfer`, whose button only shows with the panel open:
        closes the panel and keeps everything else. */
    method AbortTransfer()
      requires Valid() && showConfirmation
      modifies this`showConfirmation
      ensures Valid() && !showConfirmation
    {
      showConfirmation := false;
    }

    /** `resetFields`: the draft goes back to blank; the search results, the
        lists and the available quantity stay. */
    method ResetFields(today: Day)
      requires Valid()
      modifies this`searchTerm, this`draft, this`errorMessage,
               this`transferSummary, this`showConfirmation, this`validationMessages
      ensures Valid() && DraftIsBlank(today)
    {
      searchTerm := "";
      draft := Draft("", "", "", "", 0, today, "");
      errorMessage := NoNotice;
      transferSummary := None;
      showConfirmation := false;
      validationMessages := map[];
      assert ListsDerived();
    }

    /** `handleConfirmTransfer`, whose button only shows with the panel
        open: builds the request from the live fields (a bin missing from the
        location list makes it throw), hands it to the network whose outcome
        is `delivered`, then resets the draft. The failure notice it sets is
        cleared again by the reset. */
    method ConfirmTransfer(delivered: bool, today: Day) returns (request: Result<TransferRequest, PayloadError>)
      requires Valid() && showConfirmation
      modifies this`searchTerm, this`draft, this`errorMessage,
               this`transferSummary, this`showConfirmation, this`validationMessages
      ensures Valid() && DraftIsBlank(today)
      ensures request == BuildRequest(nextJournalMemo, old(draft), batchData, toBinList)
    {
      errorMessage := NoNotice;
      var memo, records, locations := nextJournalMemo, batchData, toBinList;
      request := BuildRequest(memo, draft, records, locations);
      if request.Failure? || !delivered {
        errorMessage := TransferFailed;
      }
      ResetFields(today);  // also closes the panel, so closing it once more changes nothing
      assert memo == nextJournalMemo && records == batchData && locations == toBinList;
    }

    /** `handleClearAll`. */
    method ClearAll(today: Day)
      requires Valid()
      modifies this`searchTerm, this`draft, this`errorMessage,
               this`transferSummary, this`showConfirmation, this`validationMessages
      ensures Valid() && DraftIsBlank(today)
    {
      ResetFields(today);
    }

    /** `handleQuantityChange`: warns about a negative quantity or one above
        the stock, and takes the new value either way. */
    method QuantityChanged(newQuantity: int)
      requires Valid()
      modifies this`errorMessage, this`draft
      ensures Valid() && draft == old(draft).(quantity := newQuantity)
      ensures errorMessage ==
        if newQuantity < 0 then NegativeQuantity
        else if newQuantity > availableQuantity then QuantityAboveStock(availableQuantity)
        else NoNotice
    {
      if newQuantity < 0 {
        errorMessage := NegativeQuantity;
      } else if newQuantity > availableQuantity {
        errorMessage := QuantityAboveStock(availableQuantity);
      } else {
        errorMessage := NoNotice;
      }
      draft := draft.(quantity := newQuantity);
    }

    /** `handlePostingDateChange`: warns about a date after today and takes it either way. */
    method PostingDateChanged(newDate: Day, today: Day)
      requires Valid()
      modifies this`errorMessage, this`draft
      ensures Valid() && draft == old(draft).(postingDate := newDate)
      ensures errorMessage == if newDate > today then PostingDateInFuture else NoNotice
    {
      errorMessage := if newDate > today then PostingDateInFuture else NoNotice;
      draft := draft.(postingDate := newDate);
    }
  }

  /** Searching BATCH001 and picking WH1 offers 8; picking bin WH1-A1 then offers 5. */
  method Batch001Selection(today: Day)
  {
    var form := new TransferForm(today);
    form.Search(Records(Batch001()));
    form.FromWarehouseSelected("WH1");
    Batch001Quantities();
    assert form.availableQuantity == 8;
    form.FromBinSelected("WH1-A1");
    assert form.availableQuantity == 5;
  }

  /** On the form settled on BATCH001 with WH1 selected and no bin, 8 are
      available: a quantity of 10 draws the "exceed" notice, and the transfer
      click gets the same message for the quantity and leaves the
      confirmation closed. */
  method Batch001Refusal(form: TransferForm, today: Day)
    requires form.Valid() && form.Settled() && !form.showConfirmation
    requires form.batchData == Batch001() && form.draft.fromWarehouse == "WH1" && form.draft.fromBin == ""
    modifies form`errorMessage, form`draft, form`validationMessages, form`transferSummary, form`showConfirmation
    ensures form.errorMessage == QuantityAboveStock(8)
    ensures Quantity in form.validationMessages && form.validationMessages[Quantity] == ExceedsStock(8)
    ensures !form.showConfirmation
  {
    Batch001Quantities();
    form.QuantityChanged(10);
    form.TransferClick(today);
    MessageTexts(form.draft, form.availableQuantity, today);
  }

  /** Choosing the "Source Bin" placeholder of the "From Bin" dropdown
      stores it as the source bin: no record lies in it, so nothing is
      available, yet the required-bin rule does not flag it. */
  method PlaceholderSourceBin(form: TransferForm, today: Day)
    requires form.Valid() && form.batchData == Batch001()
    modifies form`draft, form`availableQuantity, form`validationMessages
    ensures form.draft.fromBin == "Source Bin"
    ensures form.availableQuantity == 0
    ensures FromBin !in form.validationMessages
  {
    form.FromBinSelected("Source Bin");
    var ok := form.Validate(today);
  }
}
