/**
 * The stacking price rule of `calculateDiscountedPrice`: up to three discounts
 * (signup, loyalty, promotion), each computed against the original price, summed,
 * subtracted once, and the result floored at zero.
 */
module DiscountCalculator {
  import opened Wrappers

  /** The one discount type the rule treats as a percentage; every other type is a flat amount. */
  const PERCENTAGE: string := "PERCENTAGE"

  /** A per-user discount row (signup or loyalty) as the rule reads it. */
  datatype UserDiscount = UserDiscount(discount: real, discountType: string, isUsed: bool)

  /** A promotion passed by the caller; its title becomes the receipt line. */
  datatype Promotion = Promotion(title: string, discount: real, discountType: string)

  /** The candidate discounts for one price computation; None is an absent (falsy) entry. */
  datatype Discounts = Discounts(
    signupDiscount: Option<UserDiscount>,
    loyaltyDiscount: Option<UserDiscount>,
    promotion: Option<Promotion>)

  datatype Source = Signup | Loyalty | PromotionCode

  datatype AppliedDiscount = AppliedDiscount(source: Source, amount: real, description: string)

  datatype PriceResult = PriceResult(
    originalPrice: real,
    finalPrice: real,
    totalDiscount: real,
    appliedDiscounts: seq<AppliedDiscount>)

  const SIGNUP_DESCRIPTION: string := "New user discount"
  const LOYALTY_DESCRIPTION: string := "Loyalty discount"

  /** Position of a source in the stacking order. */
  function Rank(s: Source): nat
  {
    match s
    case Signup => 0
    case Loyalty => 1
    case PromotionCode => 2
  }

  /** What one discount takes off `originalPrice`: a share of it for PERCENTAGE, else the flat value. */
  function Amount(originalPrice: real, discount: real, discountType: string): real
  {
    if discountType == PERCENTAGE then originalPrice * (discount / 100.0) else discount
  }

  /** The signup discount applies only when present and not yet used. */
  predicate SignupApplies(d: Discounts)
  {
    d.signupDiscount.Some? && !d.signupDiscount.value.isUsed
  }

  /** The signup line: present only when the signup discount applies. */
  function SignupLine(originalPrice: real, d: Discounts): seq<AppliedDiscount>
  {
    if SignupApplies(d)
    then [AppliedDiscount(Signup, Amount(originalPrice, d.signupDiscount.value.discount, d.signupDiscount.value.discountType), SIGNUP_DESCRIPTION)]
    else []
  }

  /** The loyalty line: present whenever a loyalty discount is, whatever its isUsed flag. */
  function LoyaltyLine(originalPrice: real, d: Discounts): seq<AppliedDiscount>
  {
    if d.loyaltyDiscount.Some?
    then [AppliedDiscount(Loyalty, Amount(originalPrice, d.loyaltyDiscount.value.discount, d.loyaltyDiscount.value.discountType), LOYALTY_DESCRIPTION)]
    else []
  }

  /** The promotion line: present whenever a promotion is passed, described by its title. */
  function PromotionLine(originalPrice: real, d: Discounts): seq<AppliedDiscount>
  {
    if d.promotion.Some?
    then [AppliedDiscount(PromotionCode, Amount(originalPrice, d.promotion.value.discount, d.promotion.value.discountType), d.promotion.value.title)]
    else []
  }

  /** The receipt lines the rule produces, in stacking order (the specification of the list). */
  function Entries(originalPrice: real, d: Discounts): seq<AppliedDiscount>
  {
    SignupLine(originalPrice, d) + LoyaltyLine(originalPrice, d) + PromotionLine(originalPrice, d)
  }

  /** Sum of the amounts of a list of receipt lines, added left to right. */
  function TotalAmount(entries: seq<AppliedDiscount>): real
  {
    if entries == [] then 0.0 else TotalAmount(entries[..|entries| - 1]) + entries[|entries| - 1].amount
  }

  lemma TotalAmountAppend(e: seq<AppliedDiscount>, x: AppliedDiscount)
    ensures TotalAmount(e + [x]) == TotalAmount(e) + x.amount
  {
    assert (e + [x])[..|e|] == e;
  }

  function Max(a: real, b: real): real
  {
    if a >= b then a else b
  }

  function Min(a: real, b: real): real
  {
    if a <= b then a else b
  }

  /** The closed form of the whole result: the price less all stacked amounts, floored at 0. */
  function Priced(originalPrice: real, d: Discounts): PriceResult
  {
    var entries := Entries(originalPrice, d);
    var finalPrice := Max(0.0, originalPrice - TotalAmount(entries));
    PriceResult(originalPrice, finalPrice, originalPrice - finalPrice, entries)
  }

  /** The amount block the source repeats for each discount: a share of the original price for PERCENTAGE, else the flat value. */
  method DiscountAmount(originalPrice: real, discount: real, discountType: string) returns (discountAmount: real)
    ensures discountAmount == Amount(originalPrice, discount, discountType)
    ensures discountType != PERCENTAGE ==> discountAmount == discount
  {
    discountAmount := 0.0;
    if discountType == PERCENTAGE {
      discountAmount := originalPrice * (discount / 100.0);
    } else {
      discountAmount := discount;
    }
  }

  /** The amount of a line that is present, 0 for one that is not. */
  function LineAmount(line: seq<AppliedDiscount>): real
  {
    if line == [] then 0.0 else line[0].amount
  }

  /** The left-to-right sum of the receipt is the sum of the three lines' amounts. */
  lemma EntriesTotal(originalPrice: real, d: Discounts)
    ensures TotalAmount(Entries(originalPrice, d)) ==
      LineAmount(SignupLine(originalPrice, d)) + LineAmount(LoyaltyLine(originalPrice, d)) + LineAmount(PromotionLine(originalPrice, d))
  {
    ThreeLineTotal(SignupLine(originalPrice, d), LoyaltyLine(originalPrice, d), PromotionLine(originalPrice, d));
  }

  /** Three lists of at most one line each add up to the sum of their amounts. */
  lemma ThreeLineTotal(s: seq<AppliedDiscount>, l: seq<AppliedDiscount>, p: seq<AppliedDiscount>)
    requires |s| <= 1 && |l| <= 1 && |p| <= 1
    ensures TotalAmount(s + l + p) == LineAmount(s) + LineAmount(l) + LineAmount(p)
  {
    TotalAmountConcat(s + l, p);
    TotalAmountConcat(s, l);
    LineIsTotal(s);
    LineIsTotal(l);
    LineIsTotal(p);
  }

  lemma LineIsTotal(x: seq<AppliedDiscount>)
    requires |x| <= 1
    ensures TotalAmount(x) == LineAmount(x)
  {
    if x != [] {
      assert x[..0] == [];
    }
  }

  /** The sum over a concatenation is the sum of the two sums. */
  lemma {:induction false} TotalAmountConcat(a: seq<AppliedDiscount>, b: seq<AppliedDiscount>)
    ensures TotalAmount(a + b) == TotalAmount(a) + TotalAmount(b)
  {
    if b == [] {
      assert a + b == a;
    } else {
      var init, x := b[..|b| - 1], b[|b| - 1];
      assert b == init + [x];
      assert a + b == (a + init) + [x];
      TotalAmountConcat(a, init);
      TotalAmountAppend(a + init, x);
      TotalAmountAppend(init, x);
    }
  }

  /**
   * `calculateDiscountedPrice`: a running `finalPrice` is decremented once per
   * eligible discount and a receipt line pushed for each; the total is clamped at 0.
   */
  method CalculateDiscountedPrice(originalPrice: real, discounts: Discounts) returns (r: PriceResult)
    ensures r == Priced(originalPrice, discounts)
    ensures r.finalPrice >= 0.0
  {
    var finalPrice := originalPrice;
    var applied: seq<AppliedDiscount> := [];
    ghost var signupLine, loyaltyLine, promotionLine :=
      SignupLine(originalPrice, discounts), LoyaltyLine(originalPrice, discounts), PromotionLine(originalPrice, discounts);

    if discounts.signupDiscount.Some? && !discounts.signupDiscount.value.isUsed {
      var discount := discounts.signupDiscount.value;
      var discountAmount := DiscountAmount(originalPrice, discount.discount, discount.discountType);
      finalPrice := finalPrice - discountAmount;
      applied := applied + [AppliedDiscount(Signup, discountAmount, SIGNUP_DESCRIPTION)];
    }
    assert applied == signupLine && finalPrice == originalPrice - LineAmount(signupLine);

    if discounts.loyaltyDiscount.Some? {
      var discount := discounts.loyaltyDiscount.value;
      var discountAmount := DiscountAmount(originalPrice, discount.discount, discount.discountType);
      finalPrice := finalPrice - discountAmount;
      applied := applied + [AppliedDiscount(Loyalty, discountAmount, LOYALTY_DESCRIPTION)];
    }
    assert applied == signupLine + loyaltyLine;
    assert finalPrice == originalPrice - LineAmount(signupLine) - LineAmount(loyaltyLine);

    if discounts.promotion.Some? {
      var discount := discounts.promotion.value;
      var discountAmount := DiscountAmount(originalPrice, discount.discount, discount.discountType);
      finalPrice := finalPrice - discountAmount;
      applied := applied + [AppliedDiscount(PromotionCode, discountAmount, discount.title)];
    }
    assert applied == signupLine + loyaltyLine + promotionLine;
    assert finalPrice == originalPrice - LineAmount(signupLine) - LineAmount(loyaltyLine) - LineAmount(promotionLine);
    EntriesTotal(originalPrice, discounts);

    finalPrice := Max(0.0, finalPrice);
    r := PriceResult(originalPrice, finalPrice, originalPrice - finalPrice, applied);
  }

  /** The final price is never negative, and the total discount is the smaller of the price and the stacked amounts. */
  lemma PriceBounds(originalPrice: real, d: Discounts)
    ensures Priced(originalPrice, d).finalPrice >= 0.0
    ensures var r := Priced(originalPrice, d); r.finalPrice == Max(0.0, originalPrice - TotalAmount(r.appliedDiscounts))
    ensures Priced(originalPrice, d).totalDiscount == Min(originalPrice, TotalAmount(Entries(originalPrice, d)))
    ensures originalPrice >= 0.0 ==> Priced(originalPrice, d).totalDiscount <= originalPrice
  {
  }

  /** With a non-negative price and non-negative discount values, the total discount lies in [0, originalPrice]. */
  lemma TotalDiscountInRange(originalPrice: real, d: Discounts)
    requires originalPrice >= 0.0
    requires d.signupDiscount.Some? ==> d.signupDiscount.value.discount >= 0.0
    requires d.loyaltyDiscount.Some? ==> d.loyaltyDiscount.value.discount >= 0.0
    requires d.promotion.Some? ==> d.promotion.value.discount >= 0.0
    ensures 0.0 <= Priced(originalPrice, d).totalDiscount <= originalPrice
  {
    var e := Entries(originalPrice, d);
    forall i | 0 <= i < |e|
      ensures e[i].amount >= 0.0
    {
      EntryAmount(originalPrice, d, i);
      match e[i].source
      case Signup => AmountNonNegative(originalPrice, d.signupDiscount.value.discount, d.signupDiscount.value.discountType);
      case Loyalty => AmountNonNegative(originalPrice, d.loyaltyDiscount.value.discount, d.loyaltyDiscount.value.discountType);
      case PromotionCode => AmountNonNegative(originalPrice, d.promotion.value.discount, d.promotion.value.discountType);
    }
    AmountsNonNegative(e);
  }

  /** A non-negative discount on a non-negative price takes off a non-negative amount; a percentage of at most 100 takes at most the price. */
  lemma AmountNonNegative(originalPrice: real, discount: real, discountType: string)
    requires originalPrice >= 0.0 && discount >= 0.0
    ensures Amount(originalPrice, discount, discountType) >= 0.0
    ensures discountType == PERCENTAGE && discount <= 100.0 ==> Amount(originalPrice, discount, discountType) <= originalPrice
  {
    if discountType == PERCENTAGE {
      var share := discount / 100.0;
      assert 0.0 <= share;
      assert originalPrice * share >= 0.0;
      if discount <= 100.0 {
        assert share <= 1.0;
        assert originalPrice * share <= originalPrice * 1.0;
      }
    }
  }

  lemma {:induction false} AmountsNonNegative(e: seq<AppliedDiscount>)
    requires forall i :: 0 <= i < |e| ==> e[i].amount >= 0.0
    ensures TotalAmount(e) >= 0.0
  {
    if e != [] {
      AmountsNonNegative(e[..|e| - 1]);
    }
  }

  /** Each line's amount is computed from the original price and its own discount, never from a running total. */
  lemma EntryAmount(originalPrice: real, d: Discounts, i: nat)
    requires i < |Entries(originalPrice, d)|
    ensures var e := Entries(originalPrice, d)[i];
      match e.source
      case Signup => d.signupDiscount.Some? && e.amount == Amount(originalPrice, d.signupDiscount.value.discount, d.signupDiscount.value.discountType)
      case Loyalty => d.loyaltyDiscount.Some? && e.amount == Amount(originalPrice, d.loyaltyDiscount.value.discount, d.loyaltyDiscount.value.discountType)
      case PromotionCode => d.promotion.Some? && e.amount == Amount(originalPrice, d.promotion.value.discount, d.promotion.value.discountType)
  {
  }

  /** A PERCENTAGE discount takes that share of the price; any other type string is a flat amount. */
  lemma AmountByType(originalPrice: real, discount: real, discountType: string)
    ensures discountType == PERCENTAGE ==> Amount(originalPrice, discount, discountType) * 100.0 == originalPrice * discount
    ensures discountType != PERCENTAGE ==> Amount(originalPrice, discount, discountType) == discount
  {
  }

  /** At most one line per source, in the order SIGNUP, LOYALTY, PROMOTION. */
  lemma EntriesOrdered(originalPrice: real, d: Discounts)
    ensures |Entries(originalPrice, d)| <= 3
    ensures var e := Entries(originalPrice, d);
      forall i, j :: 0 <= i < j < |e| ==> Rank(e[i].source) < Rank(e[j].source)
  {
  }

  predicate HasSource(e: seq<AppliedDiscount>, s: Source)
  {
    exists i :: 0 <= i < |e| && e[i].source == s
  }

  /**
   * Eligibility: signup appears iff present and unused; loyalty appears iff present,
   * whatever its isUsed; a promotion appears iff passed, described by its title.
   */
  lemma Eligibility(originalPrice: real, d: Discounts)
    ensures HasSource(Entries(originalPrice, d), Signup) <==> SignupApplies(d)
    ensures HasSource(Entries(originalPrice, d), Loyalty) <==> d.loyaltyDiscount.Some?
    ensures HasSource(Entries(originalPrice, d), PromotionCode) <==> d.promotion.Some?
    ensures forall i :: 0 <= i < |Entries(originalPrice, d)| ==>
      Entries(originalPrice, d)[i].description ==
        match Entries(originalPrice, d)[i].source
        case Signup => SIGNUP_DESCRIPTION
        case Loyalty => LOYALTY_DESCRIPTION
        case PromotionCode => d.promotion.value.title
  {
    var e := Entries(originalPrice, d);
    if SignupApplies(d) { assert e[0].source == Signup; }
    if d.loyaltyDiscount.Some? {
      var k := if SignupApplies(d) then 1 else 0;
      assert e[k].source == Loyalty;
    }
    if d.promotion.Some? {
      assert e[|e| - 1].source == PromotionCode;
    }
  }

  /** With nothing to apply, a non-negative price is charged in full and no line is listed. */
  lemma NoDiscounts(originalPrice: real, signup: UserDiscount)
    requires originalPrice >= 0.0
    ensures var r := Priced(originalPrice, Discounts(None, None, None));
      r.finalPrice == originalPrice && r.totalDiscount == 0.0 && r.appliedDiscounts == []
    ensures signup.isUsed ==>
      Priced(originalPrice, Discounts(Some(signup), None, None)) == Priced(originalPrice, Discounts(None, None, None))
  {
  }

  lemma TwoLineTotal(a: AppliedDiscount, b: AppliedDiscount)
    ensures TotalAmount([a, b]) == a.amount + b.amount
  {
    TotalAmountAppend([a], b);
    TotalAmountAppend([], a);
    assert [] + [a] == [a];
    assert [a] + [b] == [a, b];
  }

  /** 200 with a 10% signup and a flat 15 loyalty discount: lines 20 then 15, final 165. */
  lemma SignupAndLoyaltyExample()
    ensures var r := Priced(200.0, Discounts(Some(UserDiscount(10.0, PERCENTAGE, false)), Some(UserDiscount(15.0, "FIXED", false)), None));
      r.finalPrice == 165.0 && r.totalDiscount == 35.0
      && r.appliedDiscounts == [AppliedDiscount(Signup, 20.0, SIGNUP_DESCRIPTION), AppliedDiscount(Loyalty, 15.0, LOYALTY_DESCRIPTION)]
  {
    TwoLineTotal(AppliedDiscount(Signup, 20.0, SIGNUP_DESCRIPTION), AppliedDiscount(Loyalty, 15.0, LOYALTY_DESCRIPTION));
  }

  /** 50 with a flat signup discount of 100: the final price is clamped to 0. */
  lemma ClampExample()
    ensures var r := Priced(50.0, Discounts(Some(UserDiscount(100.0, "FIXED", false)), None, None));
      r.finalPrice == 0.0 && r.totalDiscount == 50.0
  {
  }

  /** Two 50% discounts on 100 take the whole price (50 + 50), not 75 as compounding would. */
  lemma NoCompoundingExample()
    ensures Priced(100.0, Discounts(Some(UserDiscount(50.0, PERCENTAGE, false)), Some(UserDiscount(50.0, PERCENTAGE, true)), None)).finalPrice == 0.0
  {
    TwoLineTotal(AppliedDiscount(Signup, 50.0, SIGNUP_DESCRIPTION), AppliedDiscount(Loyalty, 50.0, LOYALTY_DESCRIPTION));
  }
}
