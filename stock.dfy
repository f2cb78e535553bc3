/** The records the transfer form works on: the batch-in-bin search result,
    the bin-location list and the user's transfer draft. */
module Stock {
  import opened Wrappers

  /** A calendar day as a day number; "today" is always supplied by the caller. */
  type Day = int

  /** One row of the batch-in-bin search: a batch of an item lying in a bin. */
  datatype BatchStockRecord = BatchStockRecord(
    itemCode: string,
    itemName: string,
    distNumber: string,  // the batch number
    whsCode: string,
    binCode: string,
    onHandQty: int)

  /** One entry of the bin-location list. */
  datatype BinLocation = BinLocation(warehouse: string, binCode: string, absEntry: int)

  /** The fields the user fills in; an empty quantity input is 0. */
  datatype Draft = Draft(
    fromWarehouse: string,
    fromBin: string,
    toWarehouse: string,
    toBin: string,
    quantity: int,
    postingDate: Day,
    remark: string)

  function WhsCodes(rs: seq<BatchStockRecord>): (codes: seq<string>)
    ensures |codes| == |rs| && forall i :: 0 <= i < |rs| ==> codes[i] == rs[i].whsCode
  {
    seq(|rs|, i requires 0 <= i < |rs| => rs[i].whsCode)
  }

  function BinCodes(rs: seq<BatchStockRecord>): (codes: seq<string>)
    ensures |codes| == |rs| && forall i :: 0 <= i < |rs| ==> codes[i] == rs[i].binCode
  {
    seq(|rs|, i requires 0 <= i < |rs| => rs[i].binCode)
  }

  function LocationWarehouses(locs: seq<BinLocation>): (codes: seq<string>)
    ensures |codes| == |locs| && forall i :: 0 <= i < |locs| ==> codes[i] == locs[i].warehouse
  {
    seq(|locs|, i requires 0 <= i < |locs| => locs[i].warehouse)
  }

  /** JavaScript's `findIndex`: the position of the first element satisfying `p`. */
  function FindIndex<T>(xs: seq<T>, p: T -> bool): (r: Option<nat>)
    ensures r.None? <==> forall k :: 0 <= k < |xs| ==> !p(xs[k])
    ensures r.Some? ==> r.value < |xs| && p(xs[r.value])
    ensures r.Some? ==> forall k :: 0 <= k < r.value ==> !p(xs[k])
  {
    if xs == [] then None
    else if p(xs[0]) then Some(0)
    else match FindIndex(xs[1..], p)
      case None => None
      case Some(k) => Some(k + 1)
  }

  /** JavaScript's `filter`: the elements satisfying `p`, in their order. */
  function Filter<T>(xs: seq<T>, p: T -> bool): (r: seq<T>)
    ensures |r| <= |xs|
  {
    if xs == [] then []
    else if p(xs[0]) then [xs[0]] + Filter(xs[1..], p)
    else Filter(xs[1..], p)
  }

  /** The filter keeps exactly the elements satisfying `p`. */
  lemma {:induction false} FilterMembers<T>(xs: seq<T>, p: T -> bool)
    ensures forall i :: 0 <= i < |Filter(xs, p)| ==> Filter(xs, p)[i] in xs && p(Filter(xs, p)[i])
    ensures forall k :: 0 <= k < |xs| && p(xs[k]) ==> xs[k] in Filter(xs, p)
  {
    if xs != [] {
      FilterMembers(xs[1..], p);
      assert forall k :: 1 <= k < |xs| ==> xs[k] == xs[1..][k - 1];
    }
  }

  /** Filtering a concatenation filters each part, so the kept elements keep
      their relative order. */
  lemma {:induction false} FilterAppend<T>(a: seq<T>, b: seq<T>, p: T -> bool)
    ensures Filter(a + b, p) == Filter(a, p) + Filter(b, p)
  {
    if a != [] {
      var head := if p(a[0]) then [a[0]] else [];
      assert (a + b)[0] == a[0];
      assert (a + b)[1..] == a[1..] + b;
      FilterAppend(a[1..], b, p);
      calc {
        Filter(a + b, p);
        head + Filter(a[1..] + b, p);
        head + (Filter(a[1..], p) + Filter(b, p));
        (head + Filter(a[1..], p)) + Filter(b, p);
        Filter(a, p) + Filter(b, p);
      }
    } else {
      assert a + b == b;
    }
  }

  /** A filter whose predicate holds of every element keeps the whole sequence. */
  lemma {:induction false} FilterKeepsAll<T>(xs: seq<T>, p: T -> bool)
    requires forall k :: 0 <= k < |xs| ==> p(xs[k])
    ensures Filter(xs, p) == xs
  {
    if xs != [] {
      FilterKeepsAll(xs[1..], p);
    }
  }
}
