/** The environmental-impact arithmetic: per-category CO2 and water savings,
    their totals over a list of products, and the achievement and fun-fact
    ladders. CO2 is counted in tenths of a kilogram, which every table value
    is a whole number of, so all the arithmetic is exact. */
module Sustainability {
  import opened JsValues
  import opened Seqs
  import opened Products

  /** CO2 emitted making a new item of each category, in tenths of a kg. */
  const CO2_TENTHS: map<string, nat> := map[
    "Tops" := 55, "Shirts" := 70, "Pants" := 110, "Jeans" := 334, "Dresses" := 120,
    "Jackets" := 150, "Sweaters" := 85, "Skirts" := 60, "Shorts" := 50, "Ethnic Wear" := 100,
    "Accessories" := 20, "Shoes" := 140, "Bags" := 80, "All Categories" := 100]

  /** Water saved by buying each category second-hand, in litres. */
  const WATER_LITRES: map<string, nat> := map[
    "Tops" := 2700, "Shirts" := 2700, "Pants" := 3000, "Jeans" := 7500, "Dresses" := 3500,
    "Jackets" := 4000, "Sweaters" := 3000, "Skirts" := 2500, "Shorts" := 2000, "Ethnic Wear" := 3200,
    "Accessories" := 500, "Shoes" := 3500, "Bags" := 2000, "All Categories" := 3000]

  /** Every table entry is non-zero, so `table[c] || table['All Categories']`
      falls back only for a category the table does not list. */
  lemma CO2TableBounds()
    ensures forall c :: c in CO2_TENTHS ==> 20 <= CO2_TENTHS[c] <= 334
  {
  }

  lemma WaterTableBounds()
    ensures forall c :: c in WATER_LITRES ==> 500 <= WATER_LITRES[c] <= 7500
  {
  }

  /** Both tables list the same categories. */
  lemma TablesSameKeys()
    ensures CO2_TENTHS.Keys == WATER_LITRES.Keys
  {
  }

  /** `calculateCO2Saved(category)`, in tenths of a kg. */
  function CO2Saved(category: string): (t: nat)
    ensures category in CO2_TENTHS ==> t == CO2_TENTHS[category]
    ensures category !in CO2_TENTHS ==> t == CO2_TENTHS[ALL_CATEGORIES] == 100
    ensures 20 <= t <= 334
  {
    CO2TableBounds();
    if category in CO2_TENTHS && CO2_TENTHS[category] != 0 then CO2_TENTHS[category]
    else CO2_TENTHS[ALL_CATEGORIES]
  }

  /** `calculateWaterSaved(category)`, in litres. */
  function WaterSaved(category: string): (w: nat)
    ensures category in WATER_LITRES ==> w == WATER_LITRES[category]
    ensures category !in WATER_LITRES ==> w == WATER_LITRES[ALL_CATEGORIES] == 3000
    ensures 500 <= w <= 7500
  {
    WaterTableBounds();
    if category in WATER_LITRES && WATER_LITRES[category] != 0 then WATER_LITRES[category]
    else WATER_LITRES[ALL_CATEGORIES]
  }

  /** The CO2 saved by a list of products: the sum of the per-product lookups. */
  function TotalCO2(ps: seq<Product>): nat {
    if ps == [] then 0 else TotalCO2(ps[..|ps| - 1]) + CO2Saved(ps[|ps| - 1].category)
  }

  /** The water saved by a list of products. */
  function TotalWater(ps: seq<Product>): nat {
    if ps == [] then 0 else TotalWater(ps[..|ps| - 1]) + WaterSaved(ps[|ps| - 1].category)
  }

  /** The totals of two lists together add up. */
  lemma {:induction false} TotalsAppend(a: seq<Product>, b: seq<Product>)
    ensures TotalCO2(a + b) == TotalCO2(a) + TotalCO2(b)
    ensures TotalWater(a + b) == TotalWater(a) + TotalWater(b)
    decreases |b|
  {
    if b == [] {
      assert a + b == a;
    } else {
      assert (a + b)[..|a + b| - 1] == a + b[..|b| - 1];
      TotalsAppend(a, b[..|b| - 1]);
    }
  }

  /** The totals lie between the smallest and the largest table value per product. */
  lemma {:induction false} TotalsBounded(ps: seq<Product>)
    ensures 20 * |ps| <= TotalCO2(ps) <= 334 * |ps|
    ensures 500 * |ps| <= TotalWater(ps) <= 7500 * |ps|
  {
    if ps != [] {
      TotalsBounded(ps[..|ps| - 1]);
    }
  }

  /** `Math.floor(co2 / 21)` for CO2 in tenths: whole tree-years of absorption. */
  function Trees(t: int): (n: int)
    ensures n * 210 <= t < n * 210 + 210
  {
    t / 210
  }

  /** `Math.floor(co2 / 6)` for CO2 in tenths: plastic bottles. */
  function Plastic(t: int): (n: int)
    ensures n * 60 <= t < n * 60 + 60
  {
    t / 60
  }

  /** No fewer bottles than trees for any saving that is not negative. */
  lemma PlasticAtLeastTrees(t: int)
    requires t >= 0
    ensures Plastic(t) >= Trees(t)
  {
    var n, m := Trees(t), Plastic(t);
    assert n >= 0;
    assert n * 60 <= n * 210 <= t < (m + 1) * 60;
  }

  /** The result of `calculateTotalImpact`. */
  datatype Impact = Impact(co2: nat, water: nat, trees: nat, plastic: nat)

  /** `calculateTotalImpact(products)`. */
  method CalculateTotalImpact(ps: seq<Product>) returns (impact: Impact)
    ensures impact.co2 == TotalCO2(ps) && impact.water == TotalWater(ps)
    ensures impact.trees == Trees(impact.co2) && impact.plastic == Plastic(impact.co2)
    ensures 20 * |ps| <= impact.co2 <= 334 * |ps|
    ensures impact.plastic >= impact.trees
    ensures ps == [] ==> impact == Impact(0, 0, 0, 0)
  {
    var totalCO2: nat := 0;
    var totalWater: nat := 0;
    var i := 0;
    while i < |ps|
      invariant 0 <= i <= |ps|
      invariant totalCO2 == TotalCO2(ps[..i]) && totalWater == TotalWater(ps[..i])
    {
      assert ps[..i + 1][..i] == ps[..i];
      totalCO2 := totalCO2 + CO2Saved(ps[i].category);
      totalWater := totalWater + WaterSaved(ps[i].category);
      i := i + 1;
    }
    assert ps[..|ps|] == ps;
    TotalsBounded(ps);
    PlasticAtLeastTrees(totalCO2);
    impact := Impact(totalCO2, totalWater, totalCO2 / 210, totalCO2 / 60);
  }

  /** An achievement badge. */
  datatype Achievement = Achievement(level: string, emoji: string, color: string)

  /** The badges from the lowest to the highest. */
  const LADDER: seq<Achievement> := [
    Achievement("Thrift Beginner", "\U{1F33F}", "teal"),
    Achievement("Eco Starter", "\U{1F331}", "lime"),
    Achievement("Green Warrior", "\U{1F49A}", "emerald"),
    Achievement("Eco Champion", "\U{1F3C6}", "green"),
    Achievement("Planet Hero", "\U{1F30D}", "purple")]

  /** The number of the thresholds 50, 100, 200 and 500 kg that a saving reaches. */
  function Tier(t: int): (k: nat)
    ensures k < |LADDER|
  {
    (if t >= 500 then 1 else 0) + (if t >= 1000 then 1 else 0)
    + (if t >= 2000 then 1 else 0) + (if t >= 5000 then 1 else 0)
  }

  /** `getAchievementLevel(co2)` for CO2 in tenths. */
  function AchievementLevel(t: int): (a: Achievement)
    ensures a == LADDER[Tier(t)]
  {
    if t >= 5000 then Achievement("Planet Hero", "\U{1F30D}", "purple")
    else if t >= 2000 then Achievement("Eco Champion", "\U{1F3C6}", "green")
    else if t >= 1000 then Achievement("Green Warrior", "\U{1F49A}", "emerald")
    else if t >= 500 then Achievement("Eco Starter", "\U{1F331}", "lime")
    else Achievement("Thrift Beginner", "\U{1F33F}", "teal")
  }

  /** Saving more never earns a lower badge. */
  lemma AchievementMonotone(t1: int, t2: int)
    requires t1 <= t2
    ensures Tier(t1) <= Tier(t2)
    ensures AchievementLevel(t1) == AchievementLevel(t2) || Tier(t1) < Tier(t2)
  {
  }

  /** A fun fact: the CO2 threshold (in tenths) from which it applies, and its icon. */
  datatype Fact = Fact(threshold: int, icon: string)

  /** The facts, in increasing order of threshold (0, 10, 30, 50, 100 and 200 kg). */
  const FACTS: seq<Fact> := [
    Fact(0, "\U{267B}\U{FE0F}"), Fact(100, "\U{1F4BB}"), Fact(300, "\U{1F697}"),
    Fact(500, "\U{1F333}"), Fact(1000, "\U{1F389}"), Fact(2000, "\U{2B50}")]

  /** The thresholds increase along the list. */
  lemma FactsAscending()
    ensures forall i, j :: 0 <= i < j < |FACTS| ==> FACTS[i].threshold < FACTS[j].threshold
  {
  }

  /** The last fact a saving reaches has the largest threshold it reaches. */
  lemma LastReachedIsLargest(t: int)
    ensures ReachedCount(t) > 0 ==>
              forall i :: 0 <= i < |FACTS| && FACTS[i].threshold <= t ==>
                FACTS[i].threshold <= FACTS[ReachedCount(t) - 1].threshold
  {
    var n := ReachedCount(t);
    forall i | 0 <= i < |FACTS| && FACTS[i].threshold <= t && n > 0
      ensures FACTS[i].threshold <= FACTS[n - 1].threshold
    {
      FactsAscending();
      if i != n - 1 {
        assert i < n - 1;
      }
    }
  }

  function Reached(t: int): Fact -> bool {
    (f: Fact) => t >= f.threshold
  }

  /** How many facts a saving reaches. */
  function ReachedCount(t: int): (n: nat)
    ensures n <= |FACTS|
    ensures forall i :: 0 <= i < n ==> FACTS[i].threshold <= t
    ensures forall i :: n <= i < |FACTS| ==> FACTS[i].threshold > t
  {
    if t < 0 then 0 else if t < 100 then 1 else if t < 300 then 2
    else if t < 500 then 3 else if t < 1000 then 4 else if t < 2000 then 5 else 6
  }

  /** The facts a saving reaches are the first `ReachedCount` of the list. */
  lemma ApplicableFacts(t: int)
    ensures |Filter(FACTS, Reached(t))| == ReachedCount(t)
    ensures ReachedCount(t) > 0 ==> Filter(FACTS, Reached(t))[ReachedCount(t) - 1] == FACTS[ReachedCount(t) - 1]
  {
    var n := ReachedCount(t);
    FilterPrefix(FACTS, Reached(t), n);
  }

  /** `getEnvironmentalFact(co2)` for CO2 in tenths: the last fact whose
      threshold the saving reaches, and none (undefined) for a negative saving. */
  function EnvironmentalFact(t: int): (r: Option<Fact>)
    ensures r.Some? <==> t >= 0
    ensures r.Some? ==> r.value in FACTS && r.value.threshold <= t
    ensures r.Some? ==> forall i :: 0 <= i < |FACTS| && FACTS[i].threshold <= t ==> FACTS[i].threshold <= r.value.threshold
  {
    var applicable := Filter(FACTS, Reached(t));
    ApplicableFacts(t);
    LastReachedIsLargest(t);
    if applicable == [] then None else Some(applicable[|applicable| - 1])
  }

  /** `getComparisonMetrics(co2).trees`, for CO2 in tenths. */
  function ComparisonTrees(t: int): (n: int)
    ensures n == Trees(t)
  {
    t / 210
  }
}
