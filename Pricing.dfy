/**
 * Pricing, as `SearchEngine` does it: a cost is rounded to cents, marked up
 * by the first tier whose range holds it, and a repair's total is its labour
 * at the shop's hourly rate plus its marked-up parts.
 *
 * `calculateMarkup` and `calculateTotal` read only the engine's `markup`
 * tiers and `laborRate`, so they are functions of those two values here; the
 * `SearchEngine` class below holds the fields and the operations that change
 * them.
 */
module Pricing {
  import opened Wrappers
  import opened Records
  import opened TradeTerms
  import opened Retrieval

  // ---------------------------------------------------------------------------
  // Rounding to cents
  // ---------------------------------------------------------------------------

  /** A whole number of cents. */
  predicate IsCents(c: real) {
    (c * 100.0).Floor as real == c * 100.0
  }

  /**
   * `parseFloat(cost.toFixed(2))`: the cost rounded to the nearest cent,
   * halves rounded up.
   */
  function Round2(c: real): (r: real)
    ensures IsCents(r)
    ensures c - 0.005 < r <= c + 0.005
  {
    var n := (c * 100.0 + 0.5).Floor;
    assert (n as real / 100.0) * 100.0 == n as real;
    n as real / 100.0
  }

  /** A cost already in cents is left as it is, so rounding twice rounds once. */
  lemma Round2OfCents(c: real)
    requires IsCents(c)
    ensures Round2(c) == c
  {
    var m := (c * 100.0).Floor;
    assert c * 100.0 + 0.5 == m as real + 0.5;
    assert (c * 100.0 + 0.5).Floor == m;
  }

  lemma Round2Idempotent(c: real)
    ensures Round2(Round2(c)) == Round2(c)
  {
    Round2OfCents(Round2(c));
  }

  // ---------------------------------------------------------------------------
  // Markup
  // ---------------------------------------------------------------------------

  /** A tier's range holds a cost: `fromCost <= c <= throughCost`, both ends included. */
  predicate InTier(t: Tier, c: real) {
    t.fromCost <= c <= t.throughCost
  }

  /** `markup.find(...)`: the position of the first tier whose range holds `c`. */
  function FindTier(tiers: seq<Tier>, c: real): (r: Option<nat>)
    ensures r.Some? ==> r.value < |tiers| && InTier(tiers[r.value], c)
    ensures r.Some? ==> forall j :: 0 <= j < r.value ==> !InTier(tiers[j], c)
    ensures r.None? <==> forall j :: 0 <= j < |tiers| ==> !InTier(tiers[j], c)
  {
    if tiers == [] then None
    else if InTier(tiers[0], c) then Some(0)
    else
      match FindTier(tiers[1..], c)
      case None => None
      case Some(i) => Some(i + 1)
  }

  /** A cost times a markup (named, so that proofs compare products by their factors). */
  function MarkedUp(cost: real, markup: real): real {
    cost * markup
  }

  /**
   * `calculateMarkup(cost)`: no charge for a zero or negative cost; otherwise
   * the cost in cents times the markup of the first tier that holds it, or the
   * cost in cents unchanged when no tier does.
   */
  function CalculateMarkup(tiers: seq<Tier>, cost: real): (r: real)
    ensures cost <= 0.0 ==> r == 0.0
    ensures cost > 0.0 && FindTier(tiers, Round2(cost)).Some? ==>
              r == MarkedUp(Round2(cost), tiers[FindTier(tiers, Round2(cost)).value].markup)
    ensures cost > 0.0 && FindTier(tiers, Round2(cost)).None? ==> r == Round2(cost)
  {
    if cost <= 0.0 then 0.0
    else
      var fixedCost := Round2(cost);
      match FindTier(tiers, fixedCost)
      case Some(i) =>
        MarkedUp(fixedCost, tiers[i].markup)
      case None => fixedCost
  }

  /** Conversely, a tier that holds `c` with no earlier tier holding it is the one found. */
  lemma {:induction false} FirstMatchingTier(tiers: seq<Tier>, c: real, i: nat)
    requires i < |tiers| && InTier(tiers[i], c)
    requires forall j :: 0 <= j < i ==> !InTier(tiers[j], c)
    ensures FindTier(tiers, c) == Some(i)
  {
    if i > 0 {
      assert !InTier(tiers[0], c);
      FirstMatchingTier(tiers[1..], c, i - 1);
    }
  }

  /** Tiers that never mark down give a charge that is never negative. */
  lemma MarkupNonNegative(tiers: seq<Tier>, cost: real)
    requires forall i :: 0 <= i < |tiers| ==> tiers[i].markup >= 0.0
    ensures CalculateMarkup(tiers, cost) >= 0.0
  {
    if cost > 0.0 {
      var c := Round2(cost);
      assert c >= 0.0 by {
        assert (cost * 100.0 + 0.5).Floor >= 0;
      }
      match FindTier(tiers, c)
      case Some(i) =>
        assert CalculateMarkup(tiers, cost) == MarkedUp(c, tiers[i].markup);
        ProductNonNegative(c, tiers[i].markup);
      case None =>
    }
  }

  lemma {:induction false} FindTierAppend(tiers: seq<Tier>, more: seq<Tier>, c: real)
    requires FindTier(tiers, c).Some?
    ensures FindTier(tiers + more, c) == FindTier(tiers, c)
  {
    assert (tiers + more)[0] == tiers[0];
    if !InTier(tiers[0], c) {
      assert (tiers + more)[1..] == tiers[1..] + more;
      FindTierAppend(tiers[1..], more, c);
    }
  }

  /** Once a tier holds the cost, tiers listed after it (overlapping or not) change nothing. */
  lemma MarkupIgnoresLaterTiers(tiers: seq<Tier>, more: seq<Tier>, cost: real)
    requires FindTier(tiers, Round2(cost)).Some?
    ensures CalculateMarkup(tiers + more, cost) == CalculateMarkup(tiers, cost)
  {
    var c := Round2(cost);
    FindTierAppend(tiers, more, c);
    var i := FindTier(tiers, c).value;
    assert (tiers + more)[i] == tiers[i];
  }

  /** Two tiers: up to $50 at 2.5x, $50.01 through $200 at 1.8x. */
  const ExampleTiers: seq<Tier> := [Tier(0.0, 50.0, 2.5), Tier(50.01, 200.0, 1.8)]

  /** $40 falls in the first tier, $60 in the second, and $500 in neither. */
  lemma MarkupExamples()
    ensures CalculateMarkup(ExampleTiers, 40.0) == 100.0
    ensures CalculateMarkup(ExampleTiers, 60.0) == 108.0
    ensures CalculateMarkup(ExampleTiers, 500.0) == 500.0
  {
    Round2OfCents(40.0);
    Round2OfCents(60.0);
    Round2OfCents(500.0);
  }

  // ---------------------------------------------------------------------------
  // Totals
  // ---------------------------------------------------------------------------

  /** `parseFloat(result.laborTime) || 0`: hours of labour, 0 when missing (parts have none). */
  function LaborHours(item: Item): (r: real)
    ensures item.PartItem? ==> r == 0.0
    ensures item.RepairItem? && item.repair.laborTime.Some? ==> r == item.repair.laborTime.value
    ensures item.RepairItem? && item.repair.laborTime.None? ==> r == 0.0
  {
    match item
    case RepairItem(rep) => rep.laborTime.GetOr(0.0)
    case PartItem(_) => 0.0
  }

  /** `parseFloat(part.cost) || 0`. */
  function PartCost(p: Part): real {
    p.cost.GetOr(0.0)
  }

  /** `parseInt(part.quantity) || 1`: a missing or zero quantity counts as one. */
  function Quantity(p: Part): (r: int)
    ensures r != 0
    ensures p.quantity.Some? && p.quantity.value != 0 ==> r == p.quantity.value
    ensures p.quantity.None? || p.quantity == Some(0) ==> r == 1
  {
    match p.quantity
    case Some(q) => if q == 0 then 1 else q
    case None => 1
  }

  /** One part's contribution: its marked-up cost times its quantity. */
  function LineCost(tiers: seq<Tier>, p: Part): real {
    CalculateMarkup(tiers, PartCost(p)) * Quantity(p) as real
  }

  /** The `reduce` over the associated parts, a left fold from `acc`. */
  function Reduce(tiers: seq<Tier>, acc: real, parts: seq<Part>): real
    decreases parts
  {
    if parts == [] then acc else Reduce(tiers, acc + LineCost(tiers, parts[0]), parts[1..])
  }

  /** The sum of the parts' line costs, the reference the fold is checked against. */
  function Sum(tiers: seq<Tier>, parts: seq<Part>): real {
    if parts == [] then 0.0 else LineCost(tiers, parts[0]) + Sum(tiers, parts[1..])
  }

  lemma {:induction false} ReduceIsSum(tiers: seq<Tier>, acc: real, parts: seq<Part>)
    ensures Reduce(tiers, acc, parts) == acc + Sum(tiers, parts)
    decreases parts
  {
    if parts != [] {
      ReduceIsSum(tiers, acc + LineCost(tiers, parts[0]), parts[1..]);
    }
  }

  /** The parts of two lists cost what each list costs. */
  lemma {:induction false} SumAppend(tiers: seq<Tier>, xs: seq<Part>, ys: seq<Part>)
    ensures Sum(tiers, xs + ys) == Sum(tiers, xs) + Sum(tiers, ys)
  {
    if xs == [] {
      assert xs + ys == ys;
    } else {
      assert (xs + ys)[0] == xs[0];
      assert (xs + ys)[1..] == xs[1..] + ys;
      SumAppend(tiers, xs[1..], ys);
    }
  }

  /** A number is truthy when it is present (not `NaN`) and not zero. */
  predicate Truthy(x: Option<real>) {
    x.Some? && x.value != 0.0
  }

  /**
   * The parts total: with associated parts, the sum of their line costs;
   * otherwise the marked-up `partsCost` when it is truthy (present and not
   * zero), and nothing else.
   */
  function PartsTotal(tiers: seq<Tier>, item: Item): (r: real)
    ensures item.RepairItem? && item.repair.associatedParts != [] ==> r == Sum(tiers, item.repair.associatedParts)
    ensures item.RepairItem? && item.repair.associatedParts == [] && Truthy(item.repair.partsCost) ==>
              r == CalculateMarkup(tiers, item.repair.partsCost.value)
    ensures item.RepairItem? && item.repair.associatedParts == [] && !Truthy(item.repair.partsCost) ==> r == 0.0
    ensures item.PartItem? ==> r == 0.0
  {
    match item
    case PartItem(_) => 0.0
    case RepairItem(rep) =>
      if |rep.associatedParts| > 0 then
        ReduceIsSum(tiers, 0.0, rep.associatedParts);
        Reduce(tiers, 0.0, rep.associatedParts)
      else if Truthy(rep.partsCost) then
        CalculateMarkup(tiers, rep.partsCost.value)
      else 0.0
  }

  /**
   * `calculateTotal(result)`: labour hours at `laborRate` plus the parts
   * total. A part record has neither labour time nor a parts cost, so its
   * total is zero whatever its own cost.
   */
  function CalculateTotal(tiers: seq<Tier>, laborRate: real, item: Item): (r: real)
    ensures item.PartItem? ==> r == 0.0
    ensures item.RepairItem? && item.repair.associatedParts != [] ==>
              r == item.repair.laborTime.GetOr(0.0) * laborRate + Sum(tiers, item.repair.associatedParts)
    ensures item.RepairItem? && item.repair.associatedParts == [] && Truthy(item.repair.partsCost) ==>
              r == item.repair.laborTime.GetOr(0.0) * laborRate + CalculateMarkup(tiers, item.repair.partsCost.value)
    ensures item.RepairItem? && item.repair.associatedParts == [] && !Truthy(item.repair.partsCost) ==>
              r == item.repair.laborTime.GetOr(0.0) * laborRate
  {
    LaborHours(item) * laborRate + PartsTotal(tiers, item)
  }

  lemma ProductNonNegative(a: real, b: real)
    requires a >= 0.0 && b >= 0.0
    ensures a * b >= 0.0
  {
  }

  /** Parts never cost less than nothing when tiers never mark down and quantities are positive. */
  lemma {:induction false} SumNonNegative(tiers: seq<Tier>, parts: seq<Part>)
    requires forall i :: 0 <= i < |tiers| ==> tiers[i].markup >= 0.0
    requires forall k :: 0 <= k < |parts| ==> parts[k].quantity.None? || parts[k].quantity.value >= 0
    ensures Sum(tiers, parts) >= 0.0
  {
    if parts != [] {
      MarkupNonNegative(tiers, PartCost(parts[0]));
      ProductNonNegative(CalculateMarkup(tiers, PartCost(parts[0])), Quantity(parts[0]) as real);
      SumNonNegative(tiers, parts[1..]);
    }
  }

  /** 1.5 hours at $95 with no parts listed and a $40 parts cost under the example tiers. */
  lemma TotalExample(rep: Repair)
    requires rep.laborTime == Some(1.5) && rep.associatedParts == [] && rep.partsCost == Some(40.0)
    ensures CalculateTotal(ExampleTiers, 95.0, RepairItem(rep)) == 242.5
  {
    MarkupExamples();
  }

  // ---------------------------------------------------------------------------
  // The engine
  // ---------------------------------------------------------------------------

  const DefaultLaborRate: real := 95.0

  class SearchEngine {
    const vectorStore: VectorStore
    var markup: seq<Tier>
    var laborRate: real

    constructor (store: VectorStore)
      ensures vectorStore == store
      ensures markup == [] && laborRate == DefaultLaborRate
    {
      vectorStore := store;
      markup := [];
      laborRate := DefaultLaborRate;
    }

    /**
     * `hasData()`: the store has data, there is at least one tier and the rate
     * is positive; partial data (no tiers, no rate, arrays out of step) is not ready.
     */
    predicate HasData()
      reads this, vectorStore
      ensures HasData() ==> vectorStore.HasData() && |markup| > 0 && laborRate > 0.0
      ensures |markup| == 0 || laborRate <= 0.0 || |vectorStore.vectors| != |vectorStore.items| ==> !HasData()
    {
      vectorStore.HasData() && |markup| > 0 && laborRate > 0.0
    }

    /**
     * `initialize()`: takes the stored tiers (the stored data always holds a
     * tier list, possibly empty, and never a labour rate, so the rate is kept),
     * then initialises the store, whose failure it passes on.
     */
    method Initialize(loadSucceeds: nat -> bool, stored: StoredData) returns (r: Result<bool, StoreError>)
      modifies this, vectorStore
      ensures markup == stored.markup && laborRate == old(laborRate)
      ensures vectorStore.tradeTerms == TradeTermDictionary
      ensures r.Failure? <==> !ModelLoads(loadSucceeds)
      ensures r.Failure? ==>
                && r.error == ModelLoadFailed
                && vectorStore.vectors == old(vectorStore.vectors) && vectorStore.items == old(vectorStore.items)
                && vectorStore.initialized == old(vectorStore.initialized)
                && vectorStore.modelLoaded == old(vectorStore.modelLoaded)
      ensures r.Success? ==> vectorStore.initialized && vectorStore.modelLoaded
      ensures r == Success(true) <==> ModelLoads(loadSucceeds) && |stored.vectors| > 0 && |stored.items| > 0
      ensures r == Success(true) ==> vectorStore.vectors == stored.vectors && vectorStore.items == stored.items
      ensures r == Success(false) ==>
                vectorStore.vectors == old(vectorStore.vectors) && vectorStore.items == old(vectorStore.items)
      ensures r == Success(true) ==>
                (HasData() <==> |stored.vectors| == |stored.items| && |stored.markup| > 0 && laborRate > 0.0)
    {
      markup := stored.markup;
      r := vectorStore.Initialize(loadSucceeds, stored);
    }

    /** `clearCache()`: empties the store, drops the tiers and zeroes the rate, so no data is left. */
    method ClearCache()
      modifies this`markup, this`laborRate, vectorStore`vectors, vectorStore`items
      ensures vectorStore.vectors == [] && vectorStore.items == []
      ensures vectorStore.initialized == old(vectorStore.initialized)
      ensures markup == [] && laborRate == 0.0
      ensures !HasData()
    {
      vectorStore.ClearCache();
      markup := [];
      laborRate := 0.0;
    }
  }
}
