/**
 The admission validator for custom limit ranges. A limit range is accepted
 when every set bandwidth lies within [1k, 1P] and, direction by direction,
 min <= default <= max wherever both compared values are set. Bound checks on
 all three tiers run before any ordering check, and the first violation found
 is the one reported.
 */
module Webhook {
  import opened Common
  import opened Quantity
  import opened Types

  /** The outcome of a check: Go's `nil` or a returned error. */
  datatype Check = Pass | Fail(error: Error)

  /** What the create/update/delete hooks answer the API server. */
  datatype Verdict = Admitted | Invalid(name: string, cause: Error)

  // ---------------------------------------------------------------------------
  // Reference definitions of a well-formed limit range

  predicate InAbsoluteRange(q: Quantity) {
    MinRsrc <= q <= MaxRsrc
  }

  /** Every set direction of one tier lies within the absolute bounds. */
  predicate SetValuesInRange(item: CustomItems) {
    && (!IsZero(item.ingress) ==> InAbsoluteRange(item.ingress))
    && (!IsZero(item.egress) ==> InAbsoluteRange(item.egress))
  }

  predicate WithinAbsoluteBounds(min: CustomItems, def: CustomItems, max: CustomItems) {
    SetValuesInRange(min) && SetValuesInRange(def) && SetValuesInRange(max)
  }

  /** `lo <= hi` is required only when both are set. */
  predicate OrderedPair(lo: Quantity, hi: Quantity) {
    IsZero(lo) || IsZero(hi) || lo <= hi
  }

  /** min <= default, min <= max and default <= max within one direction. */
  predicate OrderedIn(min: CustomItems, def: CustomItems, max: CustomItems, d: Direction) {
    && OrderedPair(Pick(min, d), Pick(def, d))
    && OrderedPair(Pick(min, d), Pick(max, d))
    && OrderedPair(Pick(def, d), Pick(max, d))
  }

  predicate Ordered(min: CustomItems, def: CustomItems, max: CustomItems) {
    OrderedIn(min, def, max, Ingress) && OrderedIn(min, def, max, Egress)
  }

  /** A limit range the validator accepts. */
  predicate WellFormed(lr: LimitRange) {
    WithinAbsoluteBounds(lr.min, lr.default, lr.max) && Ordered(lr.min, lr.default, lr.max)
  }

  // ---------------------------------------------------------------------------
  // The validator as the Go code performs it

  /** Both set and the first exceeds the second. */
  predicate Exceeds(lo: Quantity, hi: Quantity) {
    !IsZero(lo) && !IsZero(hi) && lo > hi
  }

  /** Absolute bound check of one quantity; both bounds are inclusive. */
  function ValidateBandwidthIsReasonable(rsrc: Quantity): (r: Check)
    ensures r == Pass <==> InAbsoluteRange(rsrc)
    ensures r == Pass || r == Fail(ErrInvalidBandwidthRange)
  {
    if rsrc < MinRsrc then Fail(ErrInvalidBandwidthRange)
    else if rsrc > MaxRsrc then Fail(ErrInvalidBandwidthRange)
    else Pass
  }

  /** Bound check of one tier: egress first, then ingress, unset directions skipped. */
  function BandwidthValidate(item: CustomItems): (r: Check)
    ensures r == Pass <==> SetValuesInRange(item)
    ensures r == Pass || r == Fail(ErrInvalidBandwidthRange)
  {
    if !IsZero(item.egress) && ValidateBandwidthIsReasonable(item.egress) != Pass then
      ValidateBandwidthIsReasonable(item.egress)
    else if !IsZero(item.ingress) && ValidateBandwidthIsReasonable(item.ingress) != Pass then
      ValidateBandwidthIsReasonable(item.ingress)
    else
      Pass
  }

  /**
   Validates a whole limit range: the three tiers' bounds, then the six
   ordering comparisons (egress before ingress, min/default, min/max,
   default/max). Exactly one of three answers comes back, and a range error
   wins over an ordering error.
   */
  function BandwidthValidateIsReasonable(min: CustomItems, def: CustomItems, max: CustomItems): (r: Check)
    ensures r == Pass <==> WithinAbsoluteBounds(min, def, max) && Ordered(min, def, max)
    ensures r == Fail(ErrInvalidBandwidthRange) <==> !WithinAbsoluteBounds(min, def, max)
    ensures r == Fail(ErrInvalidBandwidthMaxMin) <==> WithinAbsoluteBounds(min, def, max) && !Ordered(min, def, max)
    ensures r == Pass || r == Fail(ErrInvalidBandwidthRange) || r == Fail(ErrInvalidBandwidthMaxMin)
  {
    if BandwidthValidate(min) != Pass then BandwidthValidate(min)
    else if BandwidthValidate(def) != Pass then BandwidthValidate(def)
    else if BandwidthValidate(max) != Pass then BandwidthValidate(max)
    else if Exceeds(min.egress, def.egress) then Fail(ErrInvalidBandwidthMaxMin)
    else if Exceeds(min.ingress, def.ingress) then Fail(ErrInvalidBandwidthMaxMin)
    else if Exceeds(min.egress, max.egress) then Fail(ErrInvalidBandwidthMaxMin)
    else if Exceeds(min.ingress, max.ingress) then Fail(ErrInvalidBandwidthMaxMin)
    else if Exceeds(def.egress, max.egress) then Fail(ErrInvalidBandwidthMaxMin)
    else if Exceeds(def.ingress, max.ingress) then Fail(ErrInvalidBandwidthMaxMin)
    else Pass
  }

  // ---------------------------------------------------------------------------
  // The admission hooks

  /** Creation is admitted exactly when the validator passes; otherwise its error is the cause. */
  function ValidateCreate(r: CustomLimitRange): (v: Verdict)
    ensures v == Admitted <==> WellFormed(r.spec.lRange)
    ensures v != Admitted ==>
      v == Invalid(r.name, BandwidthValidateIsReasonable(r.spec.lRange.min, r.spec.lRange.default, r.spec.lRange.max).error)
  {
    var err := BandwidthValidateIsReasonable(r.spec.lRange.min, r.spec.lRange.default, r.spec.lRange.max);
    if err == Pass then Admitted else Invalid(r.name, err.error)
  }

  /** An update is judged on the new object alone; the old one is not consulted. */
  function ValidateUpdate(r: CustomLimitRange, previous: CustomLimitRange): (v: Verdict)
    ensures v == Admitted <==> WellFormed(r.spec.lRange)
    ensures v != Admitted ==>
      v == Invalid(r.name, BandwidthValidateIsReasonable(r.spec.lRange.min, r.spec.lRange.default, r.spec.lRange.max).error)
  {
    var err := BandwidthValidateIsReasonable(r.spec.lRange.min, r.spec.lRange.default, r.spec.lRange.max);
    if err == Pass then Admitted else Invalid(r.name, err.error)
  }

  /** Deletion is always admitted. */
  function ValidateDelete(r: CustomLimitRange): (v: Verdict)
    ensures v == Admitted
  {
    Admitted
  }

  // ---------------------------------------------------------------------------
  // Properties

  /** A limit range with nothing set is accepted. */
  lemma FullyUnsetAccepted(typ: string)
    ensures BandwidthValidateIsReasonable(EmptyItems, EmptyItems, EmptyItems) == Pass
    ensures WellFormed(LimitRange(typ, EmptyItems, EmptyItems, EmptyItems))
  {
  }

  /** An item with both directions unset always passes its bound check. */
  lemma UnsetItemPasses()
    ensures BandwidthValidate(EmptyItems) == Pass
  {
  }

  /** When a range breaks both a bound and an ordering, the bound error is reported. */
  lemma RangeErrorTakesPrecedence(min: CustomItems, def: CustomItems, max: CustomItems)
    requires !WithinAbsoluteBounds(min, def, max) && !Ordered(min, def, max)
    ensures BandwidthValidateIsReasonable(min, def, max) == Fail(ErrInvalidBandwidthRange)
  {
  }

  /**
   Directions are judged independently: if two ranges agree on their egress
   values and each range's ingress values are in bounds and ordered, the
   validator gives both ranges the same answer.
   */
  lemma DirectionsIndependent(min: CustomItems, def: CustomItems, max: CustomItems,
                              min': CustomItems, def': CustomItems, max': CustomItems)
    requires min.egress == min'.egress && def.egress == def'.egress && max.egress == max'.egress
    requires OrderedIn(min, def, max, Ingress) && OrderedIn(min', def', max', Ingress)
    requires forall q :: q in {min.ingress, def.ingress, max.ingress, min'.ingress, def'.ingress, max'.ingress} ==>
               IsZero(q) || InAbsoluteRange(q)
    ensures BandwidthValidateIsReasonable(min, def, max) == BandwidthValidateIsReasonable(min', def', max')
  {
    assert WithinAbsoluteBounds(min, def, max) <==> WithinAbsoluteBounds(min', def', max') by {
      assert SetValuesInRange(min) <==> SetValuesInRange(min') by {
        assert Pick(min, Egress) == Pick(min', Egress);
      }
      assert SetValuesInRange(def) <==> SetValuesInRange(def') by {
        assert Pick(def, Egress) == Pick(def', Egress);
      }
      assert SetValuesInRange(max) <==> SetValuesInRange(max') by {
        assert Pick(max, Egress) == Pick(max', Egress);
      }
    }
    assert Ordered(min, def, max) <==> Ordered(min', def', max') by {
      assert OrderedIn(min, def, max, Egress) <==> OrderedIn(min', def', max', Egress);
    }
  }

  /**
   Single quantities: 124, 0.1k, 1.1P and 1001T are rejected; 1124, 1k and 1P
   accepted. Tiers (ingress, egress): 1P/1P, 1k/1P and 2k alone pass; 0.1k/1P,
   0.1k/1.01P, 2k/1.01P and 2P alone are range errors.
   */
  lemma BoundCheckCases()
    ensures ValidateBandwidthIsReasonable(124) == Fail(ErrInvalidBandwidthRange)
    ensures ValidateBandwidthIsReasonable(100) == Fail(ErrInvalidBandwidthRange)
    ensures ValidateBandwidthIsReasonable(1124) == Pass
    ensures ValidateBandwidthIsReasonable(1000) == Pass
    ensures ValidateBandwidthIsReasonable(1_000_000_000_000_000) == Pass
    ensures ValidateBandwidthIsReasonable(1_100_000_000_000_000) == Fail(ErrInvalidBandwidthRange)
    ensures ValidateBandwidthIsReasonable(1_001_000_000_000_000) == Fail(ErrInvalidBandwidthRange)
    ensures BandwidthValidate(CustomItems(1_000_000_000_000_000, 1_000_000_000_000_000)) == Pass
    ensures BandwidthValidate(CustomItems(1000, 1_000_000_000_000_000)) == Pass
    ensures BandwidthValidate(CustomItems(100, 1_000_000_000_000_000)) == Fail(ErrInvalidBandwidthRange)
    ensures BandwidthValidate(CustomItems(100, 1_010_000_000_000_000)) == Fail(ErrInvalidBandwidthRange)
    ensures BandwidthValidate(CustomItems(2000, 1_010_000_000_000_000)) == Fail(ErrInvalidBandwidthRange)
    ensures BandwidthValidate(CustomItems(2000, 0)) == Pass
    ensures BandwidthValidate(CustomItems(2_000_000_000_000_000, 0)) == Fail(ErrInvalidBandwidthRange)
  {
  }

  /**
   Whole ranges (min, default, max): orderings are compared within one
   direction and never across directions, and a bound error wins.
   */
  lemma OrderingCases()
    ensures BandwidthValidateIsReasonable(CustomItems(1_000_000_000_000_000, 0), EmptyItems, EmptyItems) == Pass
    ensures BandwidthValidateIsReasonable(CustomItems(1_000_000_000_000_000, 0), CustomItems(0, 1_000_000_000_000_000), EmptyItems) == Pass
    ensures BandwidthValidateIsReasonable(CustomItems(0, 1_000_000_000_000_000), CustomItems(0, 1_000_000_000), EmptyItems)
              == Fail(ErrInvalidBandwidthMaxMin)
    ensures BandwidthValidateIsReasonable(CustomItems(0, 1_000_000_000_000_000), EmptyItems, CustomItems(0, 1_000_000_000))
              == Fail(ErrInvalidBandwidthMaxMin)
    ensures BandwidthValidateIsReasonable(CustomItems(1_000_000, 1_000_000), CustomItems(1000, 0), CustomItems(0, 1_000_000_000))
              == Fail(ErrInvalidBandwidthMaxMin)
    ensures BandwidthValidateIsReasonable(CustomItems(1_000_000_000_000_000, 0), CustomItems(1_000_000_000_000_000, 0), EmptyItems) == Pass
    ensures BandwidthValidateIsReasonable(CustomItems(1_000_000_000_000_000, 0), CustomItems(1_000_000_000, 0), EmptyItems)
              == Fail(ErrInvalidBandwidthMaxMin)
    ensures BandwidthValidateIsReasonable(CustomItems(0, 1_000_000), CustomItems(0, 1000), CustomItems(0, 1_000_000_000))
              == Fail(ErrInvalidBandwidthMaxMin)
    ensures BandwidthValidateIsReasonable(CustomItems(0, 1_000_000), CustomItems(1000, 0), CustomItems(0, 1_000_000_000)) == Pass
    ensures BandwidthValidateIsReasonable(CustomItems(2_000_000_000_000_000, 0), EmptyItems, EmptyItems)
              == Fail(ErrInvalidBandwidthRange)
  {
  }

  /** A fully populated range (min 1G/1k, default 1T/1M, max 1P/10M) is admitted on create, update and delete. */
  lemma PopulatedRangeAdmitted(name: string)
    ensures var r := CustomLimitRange(name, CustomLimitRangeSpec(LimitRange("",
                       CustomItems(1_000_000_000_000_000, 10_000_000),
                       CustomItems(1_000_000_000, 1000),
                       CustomItems(1_000_000_000_000, 1_000_000))));
            ValidateCreate(r) == Admitted && ValidateUpdate(r, r) == Admitted && ValidateDelete(r) == Admitted
  {
  }
}
