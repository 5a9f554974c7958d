/**
 * `checkAndUpdateLoyaltyStatus`: the count-based loyalty variant. A scan over an
 * ascending tier table picks the last tier before the first threshold the
 * completed-reservation count misses; the user's loyalty row is then created,
 * re-tiered, or left alone.
 */
module LoyaltyManager {
  import opened Wrappers

  type UserId = int

  datatype Tier = Tier(threshold: int, discount: int, tierType: string)

  /** The tier table, in the order the scan visits it. */
  const LoyaltyTiers: seq<Tier> := [
    Tier(5, 5, "PERCENTAGE"),
    Tier(10, 10, "PERCENTAGE"),
    Tier(20, 15, "PERCENTAGE")
  ]

  /** The loyalty row as this variant writes it; `isUsed` is never written here. */
  datatype LoyaltyDiscount = LoyaltyDiscount(
    userId: UserId,
    discount: int,
    discountType: string,
    threshold: int,
    isUsed: bool)

  /** Which store call throws, if any. Every throw is caught and turned into null. */
  datatype StoreFault = NoFault | CountFails | FindFails | WriteFails

  /**
   * How many leading tiers the count meets before the first miss: the scan's
   * stopping point.
   */
  function MetPrefix(count: int, tiers: seq<Tier>): (k: nat)
    ensures k <= |tiers|
    ensures forall i :: 0 <= i < k ==> tiers[i].threshold <= count
    ensures k < |tiers| ==> count < tiers[k].threshold
  {
    if tiers == [] || count < tiers[0].threshold then 0
    else 1 + MetPrefix(count, tiers[1..])
  }

  /** The tier the scan settles on: the last one before the first miss, or none. */
  function AppliedTier(count: int, tiers: seq<Tier>): Option<Tier>
  {
    var k := MetPrefix(count, tiers);
    if k == 0 then None else Some(tiers[k - 1])
  }

  /** The `for ... of` loop with `break` that selects the tier. */
  method SelectTier(count: int, tiers: seq<Tier>) returns (appliedTier: Option<Tier>)
    ensures appliedTier == AppliedTier(count, tiers)
    ensures appliedTier.Some? ==> appliedTier.value in tiers && appliedTier.value.threshold <= count
    ensures appliedTier.None? <==> tiers == [] || count < tiers[0].threshold
  {
    appliedTier := None;
    var i := 0;
    while i < |tiers|
      invariant 0 <= i <= MetPrefix(count, tiers)
      invariant appliedTier == if i == 0 then None else Some(tiers[i - 1])
    {
      if count >= tiers[i].threshold {
        appliedTier := Some(tiers[i]);
      } else {
        break;
      }
      i := i + 1;
    }
  }

  /** The discount a count earns under the table, 0 when no tier applies. */
  function TierDiscount(count: int): int
  {
    match AppliedTier(count, LoyaltyTiers)
    case Some(t) => t.discount
    case None => 0
  }

  /** Below 5 no tier; 5 to 9 gives 5%; 10 to 19 gives 10%; 20 and over gives 15%. */
  lemma TierTable(count: int)
    ensures count < 5 ==> AppliedTier(count, LoyaltyTiers) == None
    ensures 5 <= count < 10 ==> AppliedTier(count, LoyaltyTiers) == Some(LoyaltyTiers[0])
    ensures 10 <= count < 20 ==> AppliedTier(count, LoyaltyTiers) == Some(LoyaltyTiers[1])
    ensures 20 <= count ==> AppliedTier(count, LoyaltyTiers) == Some(LoyaltyTiers[2])
  {
    var t := LoyaltyTiers;
    assert t[1..] == [t[1], t[2]];
    assert t[1..][1..] == [t[2]];
    assert t[1..][1..][1..] == [];
  }

  /** Counts 0, 4, 5, 9, 10, 19, 20, 25 give discounts 0, 0, 5, 5, 10, 10, 15, 15. */
  lemma TierExamples()
    ensures [TierDiscount(0), TierDiscount(4), TierDiscount(5), TierDiscount(9),
             TierDiscount(10), TierDiscount(19), TierDiscount(20), TierDiscount(25)]
         == [0, 0, 5, 5, 10, 10, 15, 15]
  {
    TierTable(0); TierTable(4); TierTable(5); TierTable(9);
    TierTable(10); TierTable(19); TierTable(20); TierTable(25);
  }

  /** On any table, a larger count never stops the scan earlier. */
  lemma {:induction false} MetPrefixMonotone(a: int, b: int, tiers: seq<Tier>)
    requires a <= b
    ensures MetPrefix(a, tiers) <= MetPrefix(b, tiers)
  {
    if tiers != [] && a >= tiers[0].threshold {
      MetPrefixMonotone(a, b, tiers[1..]);
    }
  }

  /** The selected discount never decreases as the completed-reservation count grows. */
  lemma TierDiscountMonotone(a: int, b: int)
    requires a <= b
    ensures TierDiscount(a) <= TierDiscount(b)
  {
    TierTable(a);
    TierTable(b);
  }

  /**
   * First miss stops the scan: if tier `j` is missed, no tier at or after `j` is
   * selected, even when a later threshold would be met.
   */
  lemma FirstMissStops(count: int, tiers: seq<Tier>, j: nat)
    requires j < |tiers| && count < tiers[j].threshold
    ensures MetPrefix(count, tiers) <= j
  {
  }

  /** An out-of-order table where the scan stops before a later tier the count meets. */
  lemma GapExample()
    ensures AppliedTier(12, [Tier(15, 10, "PERCENTAGE"), Tier(5, 5, "PERCENTAGE")]) == None
  {
  }

  /** The discountType written for a tier: PERCENTAGE when the tier says so, else FIXED. */
  function TypeOf(t: Tier): string
  {
    if t.tierType == "PERCENTAGE" then "PERCENTAGE" else "FIXED"
  }

  /** A row re-tiered by the update call: only discount, discountType and threshold change. */
  function Retiered(row: LoyaltyDiscount, t: Tier): (r: LoyaltyDiscount)
  {
    row.(discount := t.discount, discountType := TypeOf(t), threshold := t.threshold)
  }

  /** A row made by the create call; `isUsed` takes the schema default, false. */
  function Created(userId: UserId, t: Tier): LoyaltyDiscount
  {
    LoyaltyDiscount(userId, t.discount, TypeOf(t), t.threshold, false)
  }

  /** Re-tiering leaves the owner and the isUsed opt-out untouched, and sets the tier's values. */
  lemma RetieredKeepsOtherFields(row: LoyaltyDiscount, t: Tier)
    ensures Retiered(row, t).userId == row.userId && Retiered(row, t).isUsed == row.isUsed
    ensures Retiered(row, t).discount == t.discount && Retiered(row, t).threshold == t.threshold
    ensures t in LoyaltyTiers ==> Retiered(row, t).discountType == "PERCENTAGE"
  {
  }

  /** The persisted `loyaltyDiscount` table, keyed by user. */
  class LoyaltyStore {
    var records: map<UserId, LoyaltyDiscount>

    ghost predicate Valid()
      reads this
    {
      forall u :: u in records ==> records[u].userId == u
    }

    constructor ()
      ensures Valid() && records == map[]
    {
      records := map[];
    }

    /**
     * `checkAndUpdateLoyaltyStatus(userId)` given the user's completed-reservation
     * count as the store would report it.
     */
    method CheckAndUpdateLoyaltyStatus(userId: UserId, completedCount: nat, fault: StoreFault)
      returns (result: Option<LoyaltyDiscount>)
      requires Valid()
      modifies this
      ensures Valid()
      ensures result.Some? ==> result.value.userId == userId
      ensures var tier := AppliedTier(completedCount, LoyaltyTiers);
        if fault == CountFails || tier.None? || fault == FindFails then
          result.None? && records == old(records)
        else if userId in old(records) && old(records)[userId].discount == tier.value.discount then
          result == Some(old(records)[userId]) && records == old(records)
        else if fault == WriteFails then
          result.None? && records == old(records)
        else if userId in old(records) then
          result == Some(Retiered(old(records)[userId], tier.value)) && records == old(records)[userId := result.value]
        else
          result == Some(Created(userId, tier.value)) && records == old(records)[userId := result.value]
    {
      if fault == CountFails {
        return None;
      }
      var appliedTier := SelectTier(completedCount, LoyaltyTiers);
      if appliedTier.None? {
        return None;
      }
      if fault == FindFails {
        return None;
      }
      var tier := appliedTier.value;
      if userId in records {
        var existing := records[userId];
        if existing.discount != tier.discount {
          if fault == WriteFails {
            return None;
          }
          var updated := Retiered(existing, tier);
          records := records[userId := updated];
          return Some(updated);
        }
        return Some(existing);
      } else {
        if fault == WriteFails {
          return None;
        }
        var created := Created(userId, tier);
        records := records[userId := created];
        return Some(created);
      }
    }
  }
}
