/**
 * Coupon validation: the ordered chain of checks a coupon must pass for a
 * purchase, and the discount and final amount it grants. Money is exact
 * (`real`), dates are instants in milliseconds, and the coupon row and the
 * user's usage row are handed in as already fetched.
 */
module Coupons {

  import opened Common

  datatype DiscountType = Percentage | FixedAmount

  datatype Applicability = ProductsOnly | TutoringOnly | Both

  /** What the purchase is for. */
  datatype PurchaseKind = Products | Tutoring

  datatype Coupon = Coupon(
    id: string,
    code: string,
    discountType: DiscountType,
    discountValue: real,
    minPurchaseAmount: real,
    maxDiscountAmount: Option<real>,
    usageLimit: Option<int>,
    usagePerUser: int,
    usedCount: int,
    applicableTo: Option<Applicability>,
    categoryIds: seq<string>,
    validFrom: int,
    validUntil: int,
    isActive: bool)

  /** The reasons validateCoupon throws, in the order it checks them. */
  datatype CouponError =
    | NotFound
    | Inactive
    | NotYetAvailable
    | Expired
    | UsageLimitReached
    | WrongPurchaseKind(onlyFor: Applicability)
    | WrongCategory
    | BelowMinimum(minimum: real)
    | UserLimitReached

  datatype CouponValidation = CouponValidation(
    isValid: bool,
    coupon: Coupon,
    discountAmount: real,
    finalAmount: real)

  /** `usage_limit && used_count >= usage_limit`: null and 0 set no limit. */
  predicate OverUsageLimit(c: Coupon) {
    c.usageLimit.Some? && c.usageLimit.value != 0 && c.usedCount >= c.usageLimit.value
  }

  predicate Covers(a: Applicability, kind: PurchaseKind) {
    a == Both || (a == ProductsOnly && kind == Products) || (a == TutoringOnly && kind == Tutoring)
  }

  /** The category list binds only when it is non-empty and a category is given. */
  predicate OutsideCategories(c: Coupon, categoryId: Option<string>) {
    |c.categoryIds| > 0 && categoryId.Some? && categoryId.value != "" && categoryId.value !in c.categoryIds
  }

  predicate OverUserLimit(c: Coupon, userUsage: Option<int>) {
    userUsage.Some? && userUsage.value >= c.usagePerUser
  }

  /** Every check the coupon fails, in the order validateCoupon makes them. */
  function Failures(c: Coupon, now: int, kind: PurchaseKind, amount: real, categoryId: Option<string>,
                    userUsage: Option<int>): (fs: seq<CouponError>)
    ensures fs == [] <==>
              && c.isActive && c.validFrom <= now <= c.validUntil && !OverUsageLimit(c)
              && (c.applicableTo.None? || Covers(c.applicableTo.value, kind))
              && !OutsideCategories(c, categoryId) && amount >= c.minPurchaseAmount
              && !OverUserLimit(c, userUsage)
  {
    (if c.isActive then [] else [Inactive])
    + (if now < c.validFrom then [NotYetAvailable] else [])
    + (if now > c.validUntil then [Expired] else [])
    + (if OverUsageLimit(c) then [UsageLimitReached] else [])
    + (if c.applicableTo.Some? && !Covers(c.applicableTo.value, kind) then [WrongPurchaseKind(c.applicableTo.value)] else [])
    + (if OutsideCategories(c, categoryId) then [WrongCategory] else [])
    + (if amount < c.minPurchaseAmount then [BelowMinimum(c.minPurchaseAmount)] else [])
    + (if OverUserLimit(c, userUsage) then [UserLimitReached] else [])
  }

  /** The discount: a percentage of the amount, capped by a set, non-zero
      maximum; or the fixed value, never more than the amount. */
  function Discount(c: Coupon, amount: real): (d: real)
    ensures c.discountType == FixedAmount ==> d <= amount && d <= c.discountValue
                                              && (d == amount || d == c.discountValue)
    ensures c.discountType == Percentage && c.maxDiscountAmount.Some? && c.maxDiscountAmount.value != 0.0 ==>
              d <= c.maxDiscountAmount.value
    ensures c.discountType == Percentage ==> d <= amount * c.discountValue / 100.0
    ensures c.discountType == Percentage ==>
              || d == amount * c.discountValue / 100.0
              || (c.maxDiscountAmount.Some? && c.maxDiscountAmount.value != 0.0
                  && d == c.maxDiscountAmount.value < amount * c.discountValue / 100.0)
  {
    if c.discountType == Percentage then
      var raw := amount * c.discountValue / 100.0;
      if c.maxDiscountAmount.Some? && c.maxDiscountAmount.value != 0.0 && raw > c.maxDiscountAmount.value
      then c.maxDiscountAmount.value else raw
    else if c.discountValue < amount then c.discountValue else amount
  }

  /** A fixed-amount coupon never makes the final amount negative. */
  lemma FixedAmountNeverNegative(c: Coupon, amount: real)
    requires c.discountType == FixedAmount
    ensures amount - Discount(c, amount) >= 0.0
  {
  }

  /** A percentage of at most 100 with a non-negative cap keeps the final
      amount between zero and the amount. */
  lemma PercentageWithinAmount(c: Coupon, amount: real)
    requires c.discountType == Percentage && 0.0 <= c.discountValue <= 100.0 && amount >= 0.0
    requires c.maxDiscountAmount.Some? ==> c.maxDiscountAmount.value >= 0.0
    ensures 0.0 <= amount - Discount(c, amount) <= amount
  {
    var raw := amount * c.discountValue / 100.0;
    assert 0.0 <= amount * c.discountValue by {
      assert 0.0 * c.discountValue <= amount * c.discountValue;
    }
    assert amount * c.discountValue <= amount * 100.0 by {
      assert amount * (100.0 - c.discountValue) >= 0.0;
    }
    assert 0.0 <= raw <= amount;
  }

  /** validateCoupon once the coupon row (None: not found) and the user's
      usage count (None: no usage row) are fetched. */
  method ValidateCoupon(coupon: Option<Coupon>, now: int, applicableTo: PurchaseKind, purchaseAmount: real,
                        categoryId: Option<string>, userUsage: Option<int>)
    returns (r: Result<CouponValidation, CouponError>)
    ensures coupon.None? ==> r == Err(NotFound)
    ensures coupon.Some? ==>
              var fs := Failures(coupon.value, now, applicableTo, purchaseAmount, categoryId, userUsage);
              && (r.Err? <==> fs != [])
              && (r.Err? ==> r.error == fs[0])
    ensures r.Ok? ==>
              && r.value.isValid && r.value.coupon == coupon.value
              && r.value.discountAmount == Discount(coupon.value, purchaseAmount)
              && r.value.finalAmount == purchaseAmount - r.value.discountAmount
  {
    if coupon.None? {
      return Err(NotFound);
    }
    var c := coupon.value;
    if !c.isActive {
      return Err(Inactive);
    }
    if now < c.validFrom {
      return Err(NotYetAvailable);
    }
    if now > c.validUntil {
      return Err(Expired);
    }
    if c.usageLimit.Some? && c.usageLimit.value != 0 && c.usedCount >= c.usageLimit.value {
      return Err(UsageLimitReached);
    }
    if c.applicableTo.Some? && c.applicableTo.value != Both && !Covers(c.applicableTo.value, applicableTo) {
      return Err(WrongPurchaseKind(c.applicableTo.value));
    }
    if |c.categoryIds| > 0 && categoryId.Some? && categoryId.value != "" {
      if categoryId.value !in c.categoryIds {
        return Err(WrongCategory);
      }
    }
    if purchaseAmount < c.minPurchaseAmount {
      return Err(BelowMinimum(c.minPurchaseAmount));
    }
    if userUsage.Some? && userUsage.value >= c.usagePerUser {
      return Err(UserLimitReached);
    }
    var discountAmount := 0.0;
    if c.discountType == Percentage {
      discountAmount := (purchaseAmount * c.discountValue) / 100.0;
      if c.maxDiscountAmount.Some? && c.maxDiscountAmount.value != 0.0 && discountAmount > c.maxDiscountAmount.value {
        discountAmount := c.maxDiscountAmount.value;
      }
    } else {
      discountAmount := if c.discountValue < purchaseAmount then c.discountValue else purchaseAmount;
    }
    return Ok(CouponValidation(true, c, discountAmount, purchaseAmount - discountAmount));
  }
}
