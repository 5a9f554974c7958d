/**
 * `loyaltyDiscountManager`: the spend-based loyalty variant. Each completed
 * reservation adds its amount to the user's total spend unless the row is marked
 * used; the discount is 10 per 100 spent, capped at 25, and the next tier is the
 * next multiple of 100.
 */
module LoyaltyDiscountManager {
  import opened Wrappers

  type UserId = int

  /** The loyalty row as this variant reads and writes it. */
  datatype SpendRecord = SpendRecord(
    userId: UserId,
    totalSpent: real,
    discount: real,
    nextTierSpent: real,
    isUsed: bool)

  /** What `getLoyaltyDiscountDetails` reports. */
  datatype Details = Details(totalSpent: real, currentDiscount: real, nextTierSpent: real, isUsed: bool)

  /** A store error, rethrown to the caller. */
  datatype StoreError = StoreError

  /** Which store call throws, if any. */
  datatype StoreFault = NoFault | FindFails | WriteFails

  /** `Math.floor(x)`. */
  function Floor(x: real): int
  {
    x.Floor
  }

  /** `Math.ceil(x)`. */
  function Ceil(x: real): int
  {
    -((-x).Floor)
  }

  /** `calculateDiscount`: 10 for every full 100 spent, capped at 25. */
  function CalculateDiscount(totalSpent: real): (d: real)
    ensures d <= 25.0
    ensures totalSpent >= 0.0 ==> d == 0.0 || d == 10.0 || d == 20.0 || d == 25.0
    ensures totalSpent < 100.0 ==> d <= 0.0
  {
    var discount := (Floor(totalSpent / 100.0) * 10) as real;
    if discount <= 25.0 then discount else 25.0
  }

  /** `calculateNextTierThreshold`: `Math.ceil((totalSpent + 1) / 100) * 100`. */
  function CalculateNextTierThreshold(totalSpent: real): real
  {
    (Ceil((totalSpent + 1.0) / 100.0) * 100) as real
  }

  /** The discount tiers by spend: under 100 gives 0, under 200 gives 10, under 300 gives 20, and 25 from 300 on. */
  lemma DiscountTiers(t: real)
    requires t >= 0.0
    ensures t < 100.0 ==> CalculateDiscount(t) == 0.0
    ensures 100.0 <= t < 200.0 ==> CalculateDiscount(t) == 10.0
    ensures 200.0 <= t < 300.0 ==> CalculateDiscount(t) == 20.0
    ensures 300.0 <= t ==> CalculateDiscount(t) == 25.0
  {
    var q := Floor(t / 100.0);
    assert q as real <= t / 100.0 < q as real + 1.0;
  }

  /** More spend never lowers the discount. */
  lemma DiscountMonotone(a: real, b: real)
    requires a <= b
    ensures CalculateDiscount(a) <= CalculateDiscount(b)
  {
    assert a / 100.0 <= b / 100.0;
    assert Floor(a / 100.0) <= Floor(b / 100.0);
  }

  predicate IsMultipleOf100(x: real)
  {
    x == x.Floor as real && x.Floor % 100 == 0
  }

  /**
   * The next tier is a multiple of 100 strictly above the spend; for a whole-number
   * spend it is the smallest such multiple.
   */
  lemma NextTierThreshold(t: real)
    ensures IsMultipleOf100(CalculateNextTierThreshold(t))
    ensures CalculateNextTierThreshold(t) > t
    ensures t == t.Floor as real ==> CalculateNextTierThreshold(t) - 100.0 <= t
  {
    var x := (t + 1.0) / 100.0;
    var c := Ceil(x);
    CeilBracket(x);
    MultipleOf100(c);
    if t == t.Floor as real {
      WholeSpendBound(t, c);
    }
  }

  /** `Math.ceil(x)` is the integer in [x, x + 1). */
  lemma CeilBracket(x: real)
    ensures x <= Ceil(x) as real < x + 1.0
  {
    assert (-x).Floor as real <= -x < (-x).Floor as real + 1.0;
  }

  lemma MultipleOf100(c: int)
    ensures IsMultipleOf100((c * 100) as real)
  {
    assert ((c * 100) as real).Floor == c * 100;
  }

  /** For a whole spend t, an integer c with c - 1 < (t + 1) / 100 leaves (c - 1) * 100 at most t. */
  lemma WholeSpendBound(t: real, c: int)
    requires t == t.Floor as real
    requires (c as real) < (t + 1.0) / 100.0 + 1.0
    ensures ((c * 100) as real) - 100.0 <= t
  {
    var m := t.Floor + 1;
    assert (c - 1) as real * 100.0 < m as real;
    assert (c - 1) * 100 < m;
  }

  /** A fractional spend can land above a smaller multiple of 100: 99.5 gives 200, not 100. */
  lemma FractionalSpendSkipsTier()
    ensures CalculateNextTierThreshold(99.5) == 200.0
  {
    assert (99.5 + 1.0) / 100.0 == 1.005;
    assert (-1.005).Floor == -2;
  }

  /** A new row for a first reservation: the spend and the values derived from it. */
  function NewRecord(userId: UserId, reservationAmount: real): SpendRecord
  {
    SpendRecord(userId, reservationAmount, CalculateDiscount(reservationAmount),
                CalculateNextTierThreshold(reservationAmount), false)
  }

  /** An unused row after one more reservation: spend accumulated, discount and next tier recomputed. */
  function Accumulated(row: SpendRecord, reservationAmount: real): SpendRecord
  {
    var total := row.totalSpent + reservationAmount;
    row.(totalSpent := total, discount := CalculateDiscount(total), nextTierSpent := CalculateNextTierThreshold(total))
  }

  /** Two accumulations are one accumulation of the combined amount. */
  lemma AccumulateTwice(row: SpendRecord, a: real, b: real)
    ensures Accumulated(Accumulated(row, a), b) == Accumulated(row, a + b)
  {
  }

  /** Accumulating a non-negative amount never lowers the discount and keeps the next tier above the spend. */
  lemma AccumulateRaises(row: SpendRecord, a: real)
    requires a >= 0.0
    ensures Accumulated(row, a).discount >= CalculateDiscount(row.totalSpent)
    ensures Accumulated(row, a).nextTierSpent > Accumulated(row, a).totalSpent
  {
    DiscountMonotone(row.totalSpent, row.totalSpent + a);
    NextTierThreshold(row.totalSpent + a);
  }

  /** The defaults reported for a user without a row agree with the formulas at zero spend. */
  lemma DefaultDetailsAgree()
    ensures CalculateDiscount(0.0) == 0.0
    ensures CalculateNextTierThreshold(0.0) == 100.0
  {
    assert (0.0 + 1.0) / 100.0 == 0.01;
    assert (-0.01).Floor == -1;
  }

  function DetailsOf(row: SpendRecord): Details
  {
    Details(row.totalSpent, row.discount, row.nextTierSpent, row.isUsed)
  }

  const DefaultDetails: Details := Details(0.0, 0.0, 100.0, false)

  /** The persisted `loyaltyDiscount` table, keyed by user. */
  class SpendLedger {
    var records: map<UserId, SpendRecord>

    ghost predicate Valid()
      reads this
    {
      forall u :: u in records ==> records[u].userId == u
    }

    constructor ()
      ensures Valid() && records == map[]
    {
      records := map[];
    }

    /** `updateLoyaltyDiscount(userId, reservationAmount)`: a read-modify-write of the user's row. */
    method UpdateLoyaltyDiscount(userId: UserId, reservationAmount: real, fault: StoreFault)
      returns (result: Result<SpendRecord, StoreError>)
      requires Valid()
      modifies this
      ensures Valid()
      ensures result.Ok? ==> result.value.userId == userId
      ensures fault == FindFails ==> result == Err(StoreError) && records == old(records)
      ensures fault != FindFails && userId in old(records) && old(records)[userId].isUsed ==>
        result == Ok(old(records)[userId]) && records == old(records)
      ensures fault == WriteFails && !(userId in old(records) && old(records)[userId].isUsed) ==>
        result == Err(StoreError) && records == old(records)
      ensures fault == NoFault && userId !in old(records) ==>
        result == Ok(NewRecord(userId, reservationAmount)) && records == old(records)[userId := result.value]
      ensures fault == NoFault && userId in old(records) && !old(records)[userId].isUsed ==>
        result == Ok(Accumulated(old(records)[userId], reservationAmount))
        && records == old(records)[userId := result.value]
        && result.value.totalSpent == old(records)[userId].totalSpent + reservationAmount
    {
      if fault == FindFails {
        return Err(StoreError);
      }
      if userId !in records {
        if fault == WriteFails {
          return Err(StoreError);
        }
        var created := SpendRecord(userId, reservationAmount, CalculateDiscount(reservationAmount),
                                   CalculateNextTierThreshold(reservationAmount), false);
        records := records[userId := created];
        return Ok(created);
      }
      var loyaltyDiscount := records[userId];
      if loyaltyDiscount.isUsed {
        return Ok(loyaltyDiscount);
      }
      var newTotalSpent := loyaltyDiscount.totalSpent + reservationAmount;
      var newDiscount := CalculateDiscount(newTotalSpent);
      if fault == WriteFails {
        return Err(StoreError);
      }
      var updated := loyaltyDiscount.(totalSpent := newTotalSpent, discount := newDiscount,
                                      nextTierSpent := CalculateNextTierThreshold(newTotalSpent));
      records := records[userId := updated];
      return Ok(updated);
    }

    /** `getLoyaltyDiscountDetails(userId)`: the row's values, or the zero-spend defaults. */
    function GetLoyaltyDiscountDetails(userId: UserId, findFails: bool): (r: Result<Details, StoreError>)
      reads this
      ensures findFails <==> r.Err?
      ensures !findFails && userId !in records ==> r == Ok(DefaultDetails)
      ensures !findFails && userId in records ==>
        r.value.totalSpent == records[userId].totalSpent && r.value.currentDiscount == records[userId].discount
        && r.value.nextTierSpent == records[userId].nextTierSpent && r.value.isUsed == records[userId].isUsed
    {
      if findFails then Err(StoreError)
      else if userId !in records then Ok(DefaultDetails)
      else Ok(DetailsOf(records[userId]))
    }
  }
}
