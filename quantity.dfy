/** The quantity available for a transfer: one bin's stock, or a whole
    warehouse's. */
module StockQuantity {
  import opened Wrappers
  import opened Stock

  /** `k` is the first record lying in `bin`. */
  predicate FirstInBin(rs: seq<BatchStockRecord>, bin: string, k: int) {
    0 <= k < |rs| && rs[k].binCode == bin && forall j :: 0 <= j < k ==> rs[j].binCode != bin
  }

  /** The stock summed over every record of warehouse `warehouse`. */
  function WarehouseTotal(rs: seq<BatchStockRecord>, warehouse: string): (total: int)
    ensures (forall k :: 0 <= k < |rs| ==> rs[k].whsCode != warehouse) ==> total == 0
    ensures (forall k :: 0 <= k < |rs| ==> rs[k].onHandQty >= 0) ==> total >= 0
  {
    if rs == [] then 0
    else
      assert forall k :: 1 <= k < |rs| ==> rs[k] == rs[1..][k - 1];
      (if rs[0].whsCode == warehouse then rs[0].onHandQty else 0) + WarehouseTotal(rs[1..], warehouse)
  }

  /** Summing over a concatenation adds the sums of its parts. */
  lemma {:induction false} WarehouseTotalAppend(a: seq<BatchStockRecord>, b: seq<BatchStockRecord>, warehouse: string)
    ensures WarehouseTotal(a + b, warehouse) == WarehouseTotal(a, warehouse) + WarehouseTotal(b, warehouse)
  {
    if a == [] {
      assert a + b == b;
    } else {
      assert (a + b)[0] == a[0];
      assert (a + b)[1..] == a[1..] + b;
      WarehouseTotalAppend(a[1..], b, warehouse);
    }
  }

  /** With no stock below zero, one record of a warehouse never holds more
      than the warehouse total. */
  lemma {:induction false} RecordWithinWarehouseTotal(rs: seq<BatchStockRecord>, warehouse: string, k: nat)
    requires k < |rs| && rs[k].whsCode == warehouse
    requires forall j :: 0 <= j < |rs| ==> rs[j].onHandQty >= 0
    ensures rs[k].onHandQty <= WarehouseTotal(rs, warehouse)
  {
    if k > 0 {
      assert rs[1..][k - 1] == rs[k];
      RecordWithinWarehouseTotal(rs[1..], warehouse, k - 1);
    }
  }

  /** `updateAvailableQuantity(bin, warehouse)` over the records `rs`: with a
      bin selected, the stock of the first record in that bin (0 when there
      is none), whatever the warehouse; without one, the warehouse total. */
  function AvailableQuantity(rs: seq<BatchStockRecord>, bin: string, warehouse: string): (q: int)
    ensures bin != "" && (forall k :: 0 <= k < |rs| ==> rs[k].binCode != bin) ==> q == 0
    ensures bin != "" ==> forall k :: FirstInBin(rs, bin, k) ==> q == rs[k].onHandQty
    ensures bin == "" ==> q == WarehouseTotal(rs, warehouse)
  {
    if bin != "" then
      match FindIndex(rs, (r: BatchStockRecord) => r.binCode == bin)
      case Some(k) => rs[k].onHandQty
      case None => 0
    else
      WarehouseTotal(rs, warehouse)
  }

  /** Narrowing the selection from a warehouse to one of its bins never
      raises the available quantity, as long as no stock is below zero. */
  lemma BinWithinWarehouse(rs: seq<BatchStockRecord>, bin: string, warehouse: string)
    requires bin != ""
    requires forall k :: 0 <= k < |rs| && rs[k].binCode == bin ==> rs[k].whsCode == warehouse
    requires forall k :: 0 <= k < |rs| ==> rs[k].onHandQty >= 0
    ensures 0 <= AvailableQuantity(rs, bin, warehouse) <= AvailableQuantity(rs, "", warehouse)
  {
    match FindIndex(rs, (r: BatchStockRecord) => r.binCode == bin)
    case Some(k) => RecordWithinWarehouseTotal(rs, warehouse, k);
    case None =>
  }

  /** Batch BATCH001 has two records in warehouse WH1, in bins WH1-A1 (5)
      and WH1-A2 (3). */
  function Batch001(): seq<BatchStockRecord> {
    [BatchStockRecord("ITEM", "Item", "BATCH001", "WH1", "WH1-A1", 5),
     BatchStockRecord("ITEM", "Item", "BATCH001", "WH1", "WH1-A2", 3)]
  }

  /** For BATCH001 the warehouse WH1 offers 8 and the bin WH1-A1 offers 5. */
  lemma Batch001Quantities()
    ensures AvailableQuantity(Batch001(), "", "WH1") == 8
    ensures AvailableQuantity(Batch001(), "WH1-A1", "WH1") == 5
  {
  }
}
