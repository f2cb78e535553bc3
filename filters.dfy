/** The two cascading bin filters: source bins by warehouse prefix,
    destination bins by exact warehouse. */
module BinFilters {
  import opened Stock
  import opened DistinctLists

  /** JavaScript's `s.startsWith(prefix)`. */
  predicate StartsWith(s: string, prefix: string)
    ensures StartsWith(s, prefix) ==> |prefix| <= |s| && s == prefix + s[|prefix|..]
  {
    |prefix| <= |s| && s[..|prefix|] == prefix
  }

  /** Every string that continues `prefix` starts with it. */
  lemma StartsWithConcat(prefix: string, rest: string)
    ensures StartsWith(prefix + rest, prefix)
  {
  }

  /** The source bins offered for `warehouse`: the bin codes that begin
      with the warehouse code, in their original order. */
  function SourceBins(bins: seq<string>, warehouse: string): (r: seq<string>)
    ensures forall b :: b in r <==> b in bins && StartsWith(b, warehouse)
  {
    FilterMembers(bins, b => StartsWith(b, warehouse));
    Filter(bins, b => StartsWith(b, warehouse))
  }

  /** Source-bin filtering distributes over concatenation: the kept bins keep their order. */
  lemma SourceBinsAppend(a: seq<string>, b: seq<string>, warehouse: string)
    ensures SourceBins(a + b, warehouse) == SourceBins(a, warehouse) + SourceBins(b, warehouse)
  {
    FilterAppend(a, b, b => StartsWith(b, warehouse));
  }

  /** With no warehouse selected every source bin is offered. */
  lemma SourceBinsNoWarehouse(bins: seq<string>)
    ensures SourceBins(bins, "") == bins
  {
    FilterKeepsAll(bins, b => StartsWith(b, ""));
  }

  /** The destination bins offered for `warehouse`: the bin codes of the
      locations whose warehouse is exactly `warehouse`, in list order. */
  function DestinationBins(locs: seq<BinLocation>, warehouse: string): (r: seq<string>)
    ensures |r| <= |locs|
    ensures forall c :: c in r <==> exists l :: l in locs && l.warehouse == warehouse && l.binCode == c
  {
    var kept := Filter(locs, (l: BinLocation) => l.warehouse == warehouse);
    FilterMembers(locs, (l: BinLocation) => l.warehouse == warehouse);
    var r := seq(|kept|, i requires 0 <= i < |kept| => kept[i].binCode);
    assert forall l :: l in kept <==> l in locs && l.warehouse == warehouse;
    assert forall l :: l in kept ==> l.binCode in r by {
      forall l | l in kept ensures l.binCode in r {
        var i :| 0 <= i < |kept| && kept[i] == l;
        assert r[i] == l.binCode;
      }
    }
    r
  }

  /** Destination-bin filtering distributes over concatenation: the kept bins keep their order. */
  lemma DestinationBinsAppend(a: seq<BinLocation>, b: seq<BinLocation>, warehouse: string)
    ensures DestinationBins(a + b, warehouse) == DestinationBins(a, warehouse) + DestinationBins(b, warehouse)
  {
    FilterAppend(a, b, (l: BinLocation) => l.warehouse == warehouse);
  }

  /** A warehouse appears in the destination-warehouse list exactly when
      picking it offers at least one destination bin. */
  lemma OfferedWarehouseHasBins(locs: seq<BinLocation>, warehouse: string)
    ensures warehouse in Distinct(LocationWarehouses(locs)) <==> DestinationBins(locs, warehouse) != []
  {
    DistinctProperties(LocationWarehouses(locs));
    var r := DestinationBins(locs, warehouse);
    if warehouse in LocationWarehouses(locs) {
      var k :| 0 <= k < |locs| && LocationWarehouses(locs)[k] == warehouse;
      assert locs[k].binCode in r;
    }
    if r != [] {
      assert r[0] in r;
      var l :| l in locs && l.warehouse == warehouse && l.binCode == r[0];
      var k :| 0 <= k < |locs| && locs[k] == l;
      assert LocationWarehouses(locs)[k] == warehouse;
    }
  }
}
