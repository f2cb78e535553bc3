/** The stock-transfer request built by `postTransfer`. */
module Payload {
  import opened Wrappers
  import opened Stock

  datatype BinActionType = BatFromWarehouse | BatToWarehouse

  datatype BinAllocation = BinAllocation(
    binAbsEntry: int,
    binActionType: BinActionType,
    quantity: int,
    serialAndBatchNumbersBaseLine: int)

  datatype BatchNumber = BatchNumber(batchNumber: string, quantity: int)

  datatype TransferLine = TransferLine(
    itemCode: string,
    quantity: int,
    warehouseCode: string,
    fromWarehouseCode: string,
    serialNumbers: seq<string>,
    batchNumbers: seq<BatchNumber>,
    binAllocations: seq<BinAllocation>)

  datatype TransferRequest = TransferRequest(
    journalMemo: string,
    comments: string,
    fromWarehouse: string,
    toWarehouse: string,
    lines: seq<TransferLine>)

  /** A bin code with no entry in the location list: reading `.AbsEntry` of
      the missing entry throws. */
  datatype PayloadError = UnknownBin(binCode: string)

  predicate HasBin(locs: seq<BinLocation>, bin: string) {
    exists k :: 0 <= k < |locs| && locs[k].binCode == bin
  }

  /** `k` is the first location with code `bin`. */
  predicate FirstLocation(locs: seq<BinLocation>, bin: string, k: int) {
    0 <= k < |locs| && locs[k].binCode == bin && forall j :: 0 <= j < k ==> locs[j].binCode != bin
  }

  /** The internal entry number of the first location with code `bin`. */
  function AbsEntryOf(locs: seq<BinLocation>, bin: string): (e: Option<int>)
    ensures e.None? <==> !HasBin(locs, bin)
    ensures e.Some? ==> exists k :: FirstLocation(locs, bin, k) && e.value == locs[k].absEntry
  {
    match FindIndex(locs, (l: BinLocation) => l.binCode == bin)
    case Some(k) => Some(locs[k].absEntry)
    case None => None
  }

  /** The records the request moves: those lying in the source or the destination bin. */
  function MovedRecords(rs: seq<BatchStockRecord>, fromBin: string, toBin: string): (moved: seq<BatchStockRecord>)
    ensures |moved| <= |rs|
  {
    Filter(rs, (r: BatchStockRecord) => r.binCode == fromBin || r.binCode == toBin)
  }

  /** The moved records are exactly the records in one of the two bins. */
  lemma MovedRecordsMembers(rs: seq<BatchStockRecord>, fromBin: string, toBin: string)
    ensures forall r :: r in MovedRecords(rs, fromBin, toBin) <==> r in rs && (r.binCode == fromBin || r.binCode == toBin)
  {
    FilterMembers(rs, (r: BatchStockRecord) => r.binCode == fromBin || r.binCode == toBin);
  }

  /** `line` moves `quantity` of record `r`'s batch out of its warehouse into
      `toWarehouse`, taking it from bin `fromEntry` and putting it in bin `toEntry`. */
  predicate LineMoves(line: TransferLine, r: BatchStockRecord, quantity: int, toWarehouse: string, fromEntry: int, toEntry: int) {
    && line.itemCode == r.itemCode
    && line.quantity == quantity
    && line.warehouseCode == toWarehouse
    && line.fromWarehouseCode == r.whsCode
    && line.serialNumbers == []
    && line.batchNumbers == [BatchNumber(r.distNumber, quantity)]
    && line.binAllocations == [BinAllocation(fromEntry, BatFromWarehouse, quantity, 0),
                               BinAllocation(toEntry, BatToWarehouse, quantity, 0)]
  }

  /** The line built for one record. */
  function MakeLine(r: BatchStockRecord, quantity: int, toWarehouse: string, fromEntry: int, toEntry: int): (line: TransferLine)
    ensures LineMoves(line, r, quantity, toWarehouse, fromEntry, toEntry)
  {
    TransferLine(
      r.itemCode, quantity, toWarehouse, r.whsCode, [],
      [BatchNumber(r.distNumber, quantity)],
      [BinAllocation(fromEntry, BatFromWarehouse, quantity, 0),
       BinAllocation(toEntry, BatToWarehouse, quantity, 0)])
  }

  /** One line per record in the source or the destination bin, in record order. */
  function TransferLines(rs: seq<BatchStockRecord>, d: Draft, fromEntry: int, toEntry: int): (lines: seq<TransferLine>)
    ensures var moved := MovedRecords(rs, d.fromBin, d.toBin);
      |lines| == |moved| &&
      forall i :: 0 <= i < |lines| ==> LineMoves(lines[i], moved[i], d.quantity, d.toWarehouse, fromEntry, toEntry)
  {
    if rs == [] then []
    else
      var rest := TransferLines(rs[1..], d, fromEntry, toEntry);
      assert MovedRecords(rs, d.fromBin, d.toBin)
          == (if rs[0].binCode == d.fromBin || rs[0].binCode == d.toBin then [rs[0]] else [])
             + MovedRecords(rs[1..], d.fromBin, d.toBin);
      if rs[0].binCode == d.fromBin || rs[0].binCode == d.toBin
      then [MakeLine(rs[0], d.quantity, d.toWarehouse, fromEntry, toEntry)] + rest
      else rest
  }

  /** The request `postTransfer` sends for draft `d`, or the bin whose
      lookup fails (the destination bin is looked up first). */
  function BuildRequest(memo: string, d: Draft, rs: seq<BatchStockRecord>, locs: seq<BinLocation>)
    : (r: Result<TransferRequest, PayloadError>)
    ensures r.Failure? <==> !HasBin(locs, d.toBin) || !HasBin(locs, d.fromBin)
    ensures r.Failure? ==> r.error == UnknownBin(if HasBin(locs, d.toBin) then d.fromBin else d.toBin)
    ensures r.Success? ==>
      && r.value.journalMemo == memo
      && r.value.comments == d.remark
      && r.value.fromWarehouse == d.fromWarehouse
      && r.value.toWarehouse == d.toWarehouse
    ensures r.Success? ==>
      var moved := MovedRecords(rs, d.fromBin, d.toBin);
      var fromEntry, toEntry := AbsEntryOf(locs, d.fromBin).value, AbsEntryOf(locs, d.toBin).value;
      |r.value.lines| == |moved| &&
      forall i :: 0 <= i < |moved| ==>
        LineMoves(r.value.lines[i], moved[i], d.quantity, d.toWarehouse, fromEntry, toEntry)
  {
    match AbsEntryOf(locs, d.toBin)
    case None => Failure(UnknownBin(d.toBin))
    case Some(toEntry) =>
      match AbsEntryOf(locs, d.fromBin)
      case None => Failure(UnknownBin(d.fromBin))
      case Some(fromEntry) =>
        Success(TransferRequest(memo, d.remark, d.fromWarehouse, d.toWarehouse,
                                TransferLines(rs, d, fromEntry, toEntry)))
  }

  /** A record of the batch that already lies in the destination bin gets a
      line of its own, and that line too takes the quantity out of the
      source bin. */
  lemma DestinationRecordAlsoDrawsFromSource(memo: string, d: Draft, rs: seq<BatchStockRecord>,
                                             locs: seq<BinLocation>, k: nat)
    requires BuildRequest(memo, d, rs, locs).Success?
    requires k < |rs| && rs[k].binCode == d.toBin
    ensures var lines := BuildRequest(memo, d, rs, locs).value.lines;
      exists i ::
        && 0 <= i < |lines|
        && lines[i].fromWarehouseCode == rs[k].whsCode
        && lines[i].batchNumbers == [BatchNumber(rs[k].distNumber, d.quantity)]
        && lines[i].binAllocations[0] ==
           BinAllocation(AbsEntryOf(locs, d.fromBin).value, BatFromWarehouse, d.quantity, 0)
  {
    var moved := MovedRecords(rs, d.fromBin, d.toBin);
    MovedRecordsMembers(rs, d.fromBin, d.toBin);
    assert rs[k] in moved;
    var i :| 0 <= i < |moved| && moved[i] == rs[k];
    var lines := BuildRequest(memo, d, rs, locs).value.lines;
    assert LineMoves(lines[i], moved[i], d.quantity, d.toWarehouse,
                     AbsEntryOf(locs, d.fromBin).value, AbsEntryOf(locs, d.toBin).value);
  }
}
