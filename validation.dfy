/** `validateFields`: the draft's field-to-message map and the validity
    verdict drawn from it. */
module Validation {
  import opened Stock

  datatype Field = FromWarehouse | FromBin | ToWarehouse | ToBin | Quantity | PostingDate

  /** The messages the form shows beside a field. */
  datatype Message =
    | Required(field: Field)         // "<field> is required."
    | NotPositive                    // "Quantity must be greater than zero."
    | ExceedsStock(available: int)   // "Quantity cannot exceed available stock (<available>)."
    | FutureDate                     // "Posting date cannot be in the future."

  /** The messages for draft `d`, written one rule after another so that a
      later rule for the same field replaces an earlier one. */
  function ValidationMessages(d: Draft, available: int, today: Day): (m: map<Field, Message>)
    ensures FromWarehouse in m <==> d.fromWarehouse == ""
    ensures FromBin in m <==> d.fromBin == ""
    ensures ToWarehouse in m <==> d.toWarehouse == ""
    ensures ToBin in m <==> d.toBin == ""
    ensures Quantity in m <==> d.quantity <= 0 || d.quantity > available
    ensures PostingDate in m <==> d.postingDate > today
  {
    var m0 := map[];
    var m1 := if d.fromWarehouse == "" then m0[FromWarehouse := Required(FromWarehouse)] else m0;
    var m2 := if d.fromBin == "" then m1[FromBin := Required(FromBin)] else m1;
    var m3 := if d.toWarehouse == "" then m2[ToWarehouse := Required(ToWarehouse)] else m2;
    var m4 := if d.toBin == "" then m3[ToBin := Required(ToBin)] else m3;
    var m5 := if d.quantity <= 0 then m4[Quantity := NotPositive] else m4;
    var m6 := if d.quantity > available then m5[Quantity := ExceedsStock(available)] else m5;
    if d.postingDate > today then m6[PostingDate := FutureDate] else m6
  }

  /** What each message says: a missing location is "required"; a quantity
      above the stock gets the "exceed" message even when it is also not
      above zero, since that rule is applied last; a later date is "future". */
  lemma MessageTexts(d: Draft, available: int, today: Day)
    ensures var m := ValidationMessages(d, available, today);
      && (forall f :: f in m && f !in {Quantity, PostingDate} ==> m[f] == Required(f))
      && (d.quantity > available ==> m[Quantity] == ExceedsStock(available))
      && (d.quantity <= 0 && d.quantity <= available ==> m[Quantity] == NotPositive)
      && (d.postingDate > today ==> m[PostingDate] == FutureDate)
  {
  }

  /** The acceptance rule stated on its own: every location chosen, a
      quantity above zero and within the stock, a posting date not after today. */
  predicate DraftIsValid(d: Draft, available: int, today: Day) {
    && d.fromWarehouse != ""
    && d.fromBin != ""
    && d.toWarehouse != ""
    && d.toBin != ""
    && 0 < d.quantity <= available
    && d.postingDate <= today
  }

  /** The draft passes exactly when no message is produced. */
  lemma ValidIffNoMessages(d: Draft, available: int, today: Day)
    ensures ValidationMessages(d, available, today) == map[] <==> DraftIsValid(d, available, today)
  {
    var m := ValidationMessages(d, available, today);
    if m != map[] {
      var f :| f in m;
      assert f in {FromWarehouse, FromBin, ToWarehouse, ToBin, Quantity, PostingDate};
    } else {
      assert forall f :: f !in m;
    }
  }
}
