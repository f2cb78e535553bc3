/** The distinct-code lists that the form derives with `[...new Set(codes)]`. */
module DistinctLists {

  predicate NoDuplicates(s: seq<string>) {
    forall i, j :: 0 <= i < j < |s| ==> s[i] != s[j]
  }

  /** The position of the first occurrence of `x` in `xs`. */
  function FirstIndex(xs: seq<string>, x: string): (k: nat)
    requires x in xs
    ensures k < |xs| && xs[k] == x
    ensures forall j :: 0 <= j < k ==> xs[j] != x
  {
    if xs[0] == x then 0 else 1 + FirstIndex(xs[1..], x)
  }

  /** Appending an element does not move the first occurrences before it. */
  lemma FirstIndexAppend(p: seq<string>, y: string, x: string)
    requires x in p + [y]
    ensures x in p ==> FirstIndex(p + [y], x) == FirstIndex(p, x)
    ensures x !in p ==> FirstIndex(p + [y], x) == |p|
  {
    var a := FirstIndex(p + [y], x);
    if x in p {
      var b := FirstIndex(p, x);
      assert (p + [y])[b] == x;
    } else {
      assert forall j :: 0 <= j < |p| ==> (p + [y])[j] != x;
    }
  }

  /** The elements of `r` appear in the order of their first occurrence in `xs`. */
  predicate InFirstOccurrenceOrder(xs: seq<string>, r: seq<string>) {
    forall i, j :: 0 <= i < j < |r| && r[i] in xs && r[j] in xs ==> FirstIndex(xs, r[i]) < FirstIndex(xs, r[j])
  }

  /** The elements of `xs`, each once, in the order a `Set` inserts them. */
  function Distinct(xs: seq<string>): (r: seq<string>)
    ensures forall x :: x in r ==> x in xs
  {
    if xs == [] then []
    else
      var init, last := xs[..|xs| - 1], xs[|xs| - 1];
      var rest := Distinct(init);
      if last in rest then rest else rest + [last]
  }

  /** The distinct list holds every element of `xs` and nothing else, each
      exactly once, in first-occurrence order. */
  lemma {:induction false} DistinctProperties(xs: seq<string>)
    ensures forall x :: x in Distinct(xs) <==> x in xs
    ensures NoDuplicates(Distinct(xs))
    ensures InFirstOccurrenceOrder(xs, Distinct(xs))
  {
    if xs != [] {
      var init, last := xs[..|xs| - 1], xs[|xs| - 1];
      assert xs == init + [last];
      DistinctProperties(init);
      assert forall x :: x in init ==> FirstIndex(xs, x) == FirstIndex(init, x) by {
        forall x | x in init ensures FirstIndex(xs, x) == FirstIndex(init, x) {
          FirstIndexAppend(init, last, x);
        }
      }
      if last !in Distinct(init) {
        FirstIndexAppend(init, last, last);
      }
    }
  }

  /** The first distinct element is the first element. */
  lemma DistinctHead(xs: seq<string>)
    requires xs != []
    ensures Distinct(xs) != [] && Distinct(xs)[0] == xs[0]
  {
    DistinctProperties(xs);
    var r := Distinct(xs);
    assert xs[0] in r;
    assert FirstIndex(xs, xs[0]) == 0;
  }
}
