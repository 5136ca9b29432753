/**
 * The exchange fee schedule of models/fee_model.py: a table from tier name to
 * maker/taker rates, and `calculate_fees`, which looks a tier up (falling back
 * to "Tier 1") and, for VIP callers, scales the looked-up entry IN PLACE by
 * 0.90 before charging. Because the shared table is written back, repeated VIP
 * calls compound the discount; the model keeps that behaviour.
 */
module FeeModel {

  /** The maker and taker rate of one tier entry. */
  datatype Rates = Rates(maker: real, taker: real)

  const DefaultTier: string := "Tier 1"
  const VipDiscountFactor: real := 0.90

  /** The table as the module initialises it. */
  function InitialTiers(): map<string, Rates>
  {
    map[
      "Tier 1" := Rates(0.0008, 0.0010),
      "Tier 2" := Rates(0.0006, 0.0008),
      "Tier 3" := Rates(0.0005, 0.0007),
      "VIP 1" := Rates(0.0004, 0.0006),
      "VIP 2" := Rates(0.0003, 0.0005),
      "VIP 3" := Rates(0.0002, 0.0004)
    ]
  }

  /** The fallback entry exists and every entry charges a maker less than a taker. */
  ghost predicate WellFormed(tiers: map<string, Rates>)
  {
    && DefaultTier in tiers
    && forall t :: t in tiers ==> 0.0 <= tiers[t].maker < tiers[t].taker
  }

  /** The key whose entry `FEE_TIERS.get(fee_tier, FEE_TIERS["Tier 1"])` returns. */
  function SelectedKey(tiers: map<string, Rates>, feeTier: string): (k: string)
    requires DefaultTier in tiers
    ensures k in tiers
  {
    if feeTier in tiers then feeTier else DefaultTier
  }

  function Discount(r: Rates): Rates
  {
    Rates(r.maker * VipDiscountFactor, r.taker * VipDiscountFactor)
  }

  function RateFor(r: Rates, isMaker: bool): real
  {
    if isMaker then r.maker else r.taker
  }

  /** The table after one call of `calculate_fees`, as the source writes it back. */
  function TableAfter(tiers: map<string, Rates>, feeTier: string, isVip: bool): (r: map<string, Rates>)
    requires DefaultTier in tiers
    ensures r.Keys == tiers.Keys
  {
    var k := SelectedKey(tiers, feeTier);
    if isVip then tiers[k := Discount(tiers[k])] else tiers
  }

  /** The rate a call charges, read from the table it leaves behind. */
  function ChargedRate(tiers: map<string, Rates>, feeTier: string, isMaker: bool, isVip: bool): real
    requires DefaultTier in tiers
  {
    RateFor(TableAfter(tiers, feeTier, isVip)[SelectedKey(tiers, feeTier)], isMaker)
  }

  /** The fee one call of `calculate_fees` returns, given the table before the call. */
  function FeeCharged(tiers: map<string, Rates>, quantityUsd: real, feeTier: string,
                      isMaker: bool, isVip: bool): real
    requires DefaultTier in tiers
  {
    quantityUsd * ChargedRate(tiers, feeTier, isMaker, isVip)
  }

  /**
   * What the fee evidently should be: the VIP discount applied to the rate at
   * lookup time, with the table left alone.
   */
  function DiscountedFee(tiers: map<string, Rates>, quantityUsd: real, feeTier: string,
                         isMaker: bool, isVip: bool): (fee: real)
    requires DefaultTier in tiers
    ensures fee == FeeCharged(tiers, quantityUsd, feeTier, isMaker, isVip)
  {
    var base := tiers[SelectedKey(tiers, feeTier)];
    quantityUsd * RateFor(if isVip then Discount(base) else base, isMaker)
  }

  /** The shared `FEE_TIERS` table. */
  class FeeSchedule {
    var tiers: map<string, Rates>

    ghost predicate Valid()
      reads this
    {
      WellFormed(tiers)
    }

    constructor ()
      ensures Valid()
      ensures tiers == InitialTiers()
    {
      tiers := InitialTiers();
    }

    /** `calculate_fees(quantity_usd, fee_tier, is_maker, is_vip)`. */
    method CalculateFees(quantityUsd: real, feeTier: string, isMaker: bool, isVip: bool)
      returns (fee: real)
      requires Valid()
      modifies this
      ensures Valid()
      ensures tiers == TableAfter(old(tiers), feeTier, isVip)
      ensures fee == FeeCharged(old(tiers), quantityUsd, feeTier, isMaker, isVip)
    {
      TableAfterWellFormed(tiers, feeTier, isVip);
      var key := SelectedKey(tiers, feeTier);
      if isVip {
        ApplyVipDiscount(key);
      }
      var feeRate := RateFor(tiers[key], isMaker);
      fee := quantityUsd * feeRate;
    }

    /** The two in-place writes `tier_fees["maker"] *= 0.90; tier_fees["taker"] *= 0.90`. */
    method ApplyVipDiscount(key: string)
      requires key in tiers
      modifies this
      ensures tiers == old(tiers)[key := Discount(old(tiers)[key])]
    {
      var entry := tiers[key];
      tiers := tiers[key := entry.(maker := entry.maker * VipDiscountFactor)];
      tiers := tiers[key := tiers[key].(taker := tiers[key].taker * VipDiscountFactor)];
      InPlaceUpdateIsDiscount(old(tiers), key);
    }
  }

  /** Scaling the maker rate and then the taker rate of one entry discounts that entry. */
  lemma InPlaceUpdateIsDiscount(tiers: map<string, Rates>, key: string)
    requires key in tiers
    ensures var entry := tiers[key];
            var t1 := tiers[key := entry.(maker := entry.maker * VipDiscountFactor)];
            t1[key := t1[key].(taker := t1[key].taker * VipDiscountFactor)]
            == tiers[key := Discount(entry)]
  {
  }

  lemma InitialTiersWellFormed()
    ensures WellFormed(InitialTiers())
  {
  }

  /**
   * An unknown tier name behaves exactly like "Tier 1", VIP or not: the same
   * fee and the same table afterwards. Without VIP that is the plain Tier 1
   * rate.
   */
  lemma UnknownTierUsesDefault(tiers: map<string, Rates>, quantityUsd: real, feeTier: string,
                               isMaker: bool, isVip: bool)
    requires DefaultTier in tiers && feeTier !in tiers
    ensures FeeCharged(tiers, quantityUsd, feeTier, isMaker, isVip)
            == FeeCharged(tiers, quantityUsd, DefaultTier, isMaker, isVip)
    ensures TableAfter(tiers, feeTier, isVip) == TableAfter(tiers, DefaultTier, isVip)
    ensures !isVip ==> FeeCharged(tiers, quantityUsd, feeTier, isMaker, isVip)
                       == quantityUsd * RateFor(tiers[DefaultTier], isMaker)
  {
  }

  /** A non-VIP call charges the entry's own rate and leaves the table unchanged. */
  lemma NonVipCallIsPlainLookup(tiers: map<string, Rates>, quantityUsd: real, feeTier: string,
                                isMaker: bool)
    requires DefaultTier in tiers
    ensures TableAfter(tiers, feeTier, false) == tiers
    ensures FeeCharged(tiers, quantityUsd, feeTier, isMaker, false)
            == quantityUsd * RateFor(tiers[SelectedKey(tiers, feeTier)], isMaker)
  {
  }

  /**
   * A VIP call scales both rates of the selected entry by 0.90 and leaves every
   * other entry as it was.
   */
  lemma VipCallScalesSelectedEntry(tiers: map<string, Rates>, feeTier: string)
    requires DefaultTier in tiers
    ensures var k := SelectedKey(tiers, feeTier);
            && TableAfter(tiers, feeTier, true)[k].maker == 0.90 * tiers[k].maker
            && TableAfter(tiers, feeTier, true)[k].taker == 0.90 * tiers[k].taker
    ensures forall t :: t in tiers && t != SelectedKey(tiers, feeTier) ==>
              TableAfter(tiers, feeTier, true)[t] == tiers[t]
  {
  }

  /** A VIP call naming an unknown tier discounts the shared "Tier 1" entry. */
  lemma UnknownVipTierMutatesDefault(tiers: map<string, Rates>, feeTier: string)
    requires DefaultTier in tiers && feeTier !in tiers
    ensures TableAfter(tiers, feeTier, true)[DefaultTier] == Discount(tiers[DefaultTier])
  {
  }

  /** Calls keep the table well formed: the discount keeps maker below taker. */
  lemma TableAfterWellFormed(tiers: map<string, Rates>, feeTier: string, isVip: bool)
    requires WellFormed(tiers)
    ensures WellFormed(TableAfter(tiers, feeTier, isVip))
  {
    var after := TableAfter(tiers, feeTier, isVip);
    forall t | t in after ensures 0.0 <= after[t].maker < after[t].taker {
      if isVip && t == SelectedKey(tiers, feeTier) {
        assert after[t] == Discount(tiers[t]);
      }
    }
  }

  /** On a well-formed table the fee is non-negative and linear in the quantity. */
  lemma FeeNonNegativeAndLinear(tiers: map<string, Rates>, q1: real, q2: real, c: real,
                                feeTier: string, isMaker: bool, isVip: bool)
    requires WellFormed(tiers) && 0.0 <= q1
    ensures 0.0 <= FeeCharged(tiers, q1, feeTier, isMaker, isVip)
    ensures FeeCharged(tiers, q1 + q2, feeTier, isMaker, isVip)
            == FeeCharged(tiers, q1, feeTier, isMaker, isVip) + FeeCharged(tiers, q2, feeTier, isMaker, isVip)
    ensures FeeCharged(tiers, c * q1, feeTier, isMaker, isVip)
            == c * FeeCharged(tiers, q1, feeTier, isMaker, isVip)
  {
    var rate := ChargedRate(tiers, feeTier, isMaker, isVip);
    ChargedRateNonNegative(tiers, feeTier, isMaker, isVip);
    MulNonNegative(q1, rate);
    Distribute(q1, q2, c, rate);
  }

  lemma ChargedRateNonNegative(tiers: map<string, Rates>, feeTier: string, isMaker: bool, isVip: bool)
    requires WellFormed(tiers)
    ensures 0.0 <= ChargedRate(tiers, feeTier, isMaker, isVip)
  {
    TableAfterWellFormed(tiers, feeTier, isVip);
    var after := TableAfter(tiers, feeTier, isVip);
    var k := SelectedKey(tiers, feeTier);
    assert k in after && 0.0 <= after[k].maker < after[k].taker;
  }

  lemma MulNonNegative(a: real, b: real)
    requires 0.0 <= a && 0.0 <= b
    ensures 0.0 <= a * b
  {
  }

  lemma Distribute(q1: real, q2: real, c: real, r: real)
    ensures (q1 + q2) * r == q1 * r + q2 * r
    ensures (c * q1) * r == c * (q1 * r)
  {
  }

  /**
   * On any table, a VIP call made after an identical VIP call is charged 0.90
   * times what the first one was: the discount compounds with every call.
   */
  lemma VipCallCompoundsOnAnyTable(tiers: map<string, Rates>, quantityUsd: real, feeTier: string,
                                   isMaker: bool)
    requires DefaultTier in tiers
    ensures DefaultTier in TableAfter(tiers, feeTier, true)
    ensures FeeCharged(TableAfter(tiers, feeTier, true), quantityUsd, feeTier, isMaker, true)
            == 0.90 * FeeCharged(tiers, quantityUsd, feeTier, isMaker, true)
  {
  }

  /**
   * As written, two identical VIP calls compound: on the initial table
   * (1000, "VIP 1", maker, VIP) first costs 0.36, then 0.9 times that.
   */
  lemma VipCallsCompound()
    ensures FeeCharged(InitialTiers(), 1000.0, "VIP 1", true, true) == 0.36
    ensures var t1 := TableAfter(InitialTiers(), "VIP 1", true);
            FeeCharged(t1, 1000.0, "VIP 1", true, true) == 0.90 * 0.36
  {
  }

  /**
   * The corrected fee does not depend on how many calls came before: on the
   * initial table it agrees with the first as-written call, and it is the base
   * rate times 0.90 however often it is asked.
   */
  lemma DiscountedFeeIsRepeatable(quantityUsd: real, feeTier: string, isMaker: bool)
    ensures var base := InitialTiers()[SelectedKey(InitialTiers(), feeTier)];
            DiscountedFee(InitialTiers(), quantityUsd, feeTier, isMaker, true)
            == quantityUsd * 0.90 * RateFor(base, isMaker)
    ensures DiscountedFee(InitialTiers(), 1000.0, "VIP 1", true, true) == 0.36
  {
  }
}
