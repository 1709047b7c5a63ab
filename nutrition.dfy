/** The meal-analysis heuristics (services/nutritionAlgorithms.ts): the share
    of the daily energy target, the choking-hazard check, the safety score
    and the serving-volume estimate. */
module Nutrition {
  import opened Wrappers
  import opened Types
  import Text
  import Seqs

  /** `Math.round`: the nearest integer, halves rounded up. */
  function Round(x: real): (r: int)
    ensures r as real - 0.5 <= x < r as real + 0.5
  {
    (x + 0.5).Floor
  }

  /** `calculateRDAContribution`: the calories as a rounded percentage of a
      daily target of 110 kcal per kilogram of body weight. */
  function CalculateRDAContribution(calories: real, weightKg: real): (r: int)
    requires weightKg > 0.0
    ensures var share := calories * 100.0 / (weightKg * 110.0);
      r as real - 0.5 <= share < r as real + 0.5
  {
    var dailyTarget := weightKg * 110.0;
    ShareOfTarget(calories, dailyTarget);
    Round(calories / dailyTarget * 100.0)
  }

  lemma ShareOfTarget(calories: real, t: real)
    requires t > 0.0
    ensures calories / t * 100.0 == calories * 100.0 / t
  {
  }

  /** A meal that meets the whole daily target scores exactly 100. */
  lemma FullTargetIsHundred(weightKg: real)
    requires weightKg > 0.0
    ensures CalculateRDAContribution(weightKg * 110.0, weightKg) == 100
  {
    var t := weightKg * 110.0;
    assert t / t == 1.0;
  }

  /** More calories never give a smaller share. */
  lemma RDAMonotone(c1: real, c2: real, weightKg: real)
    requires weightKg > 0.0 && c1 <= c2
    ensures CalculateRDAContribution(c1, weightKg) <= CalculateRDAContribution(c2, weightKg)
  {
    var t := weightKg * 110.0;
    DivideMonotone(c1, c2, t);
  }

  lemma DivideMonotone(a: real, b: real, t: real)
    requires t > 0.0 && a <= b
    ensures a / t * 100.0 <= b / t * 100.0
  {
    assert b / t - a / t == (b - a) / t;
  }

  /** The substrings that mark an ingredient as a choking risk. */
  const HighRiskItems: seq<string> :=
    ["grape", "nut", "popcorn", "hard carrot", "chunk", "berry", "cherry tomato", "candy"]

  /** The ingredient, lower-cased, contains one of the high-risk substrings. */
  predicate IsRisky(ingredient: string) {
    exists j :: 0 <= j < |HighRiskItems| && Text.Contains(Text.ToLower(ingredient), HighRiskItems[j])
  }

  /** `highRiskItems.some(...)` for one ingredient. */
  function RiskyIngredient(ingredient: string): (r: bool)
    ensures r <==> IsRisky(ingredient)
  {
    var lower := Text.ToLower(ingredient);
    Seqs.Find(HighRiskItems, (k: string) => Text.Contains(lower, k)).Some?
  }

  /** `ingredients.some(...)` over the high-risk list. */
  function AnyRisky(ingredients: seq<string>): (r: bool)
    ensures r <==> exists ing :: ing in ingredients && IsRisky(ing)
    decreases |ingredients|
  {
    if |ingredients| == 0 then false
    else if RiskyIngredient(ingredients[0]) then true
    else
      assert ingredients == [ingredients[0]] + ingredients[1..];
      AnyRisky(ingredients[1..])
  }

  /** `checkChokingHazards`: always a hazard for a newborn; otherwise a
      hazard exactly when some ingredient is risky, so never for an empty
      list. */
  function CheckChokingHazards(ingredients: seq<string>, ageGroup: AgeGroup): (r: bool)
    ensures ageGroup == Newborn ==> r
    ensures ageGroup != Newborn ==>
      (r <==> exists ing :: ing in ingredients && IsRisky(ing))
    ensures ageGroup != Newborn && ingredients == [] ==> !r
  {
    if ageGroup == Newborn then true
    else AnyRisky(ingredients)
  }

  /** The match is on substrings of the lower-cased text: "Coconut Milk"
      counts as a nut. */
  lemma CoconutIsANut()
    ensures CheckChokingHazards(["Coconut Milk"], Infant)
  {
    var lower := Text.ToLower("Coconut Milk");
    assert lower == "coconut milk";
    assert lower[4..7] == "nut";
    Text.ContainsAt(lower, "nut", 4);
    assert HighRiskItems[1] == "nut";
  }

  /** The safety score, with each deduction applied once and the total
      clamped at zero. */
  function SafetyScore(chokingHazard: bool, texture: string, ageGroup: AgeGroup): (r: int)
    ensures 0 <= r <= 100
    ensures ageGroup == Toddler ==> r == if chokingHazard then 40 else 100
    ensures chokingHazard && ageGroup == Newborn && texture != "Puree" ==> r == 0
    ensures !chokingHazard && ageGroup == Infant ==> r == if texture == "Hard Solid" then 70 else 100
  {
    var deductions := (if chokingHazard then 60 else 0)
      + (if ageGroup == Infant && texture == "Hard Solid" then 30 else 0)
      + (if ageGroup == Newborn && texture != "Puree" then 80 else 0);
    if deductions > 100 then 0 else 100 - deductions
  }

  /** A choking hazard never raises the score. */
  lemma HazardNeverRaises(texture: string, ageGroup: AgeGroup)
    ensures SafetyScore(true, texture, ageGroup) <= SafetyScore(false, texture, ageGroup)
  {
  }

  /** `generateSafetyScore`: starts at 100, takes off each deduction in turn
      and clamps at zero. */
  method GenerateSafetyScore(chokingHazard: bool, texture: string, ageGroup: AgeGroup) returns (score: int)
    ensures score == SafetyScore(chokingHazard, texture, ageGroup)
  {
    score := 100;
    if chokingHazard {
      score := score - 60;
    }
    if ageGroup == Infant && texture == "Hard Solid" {
      score := score - 30;
    }
    if ageGroup == Newborn && texture != "Puree" {
      score := score - 80;
    }
    if score < 0 {
      score := 0;
    }
  }

  /** The serving volume of each known food, in the order the keys are
      tried. */
  const DensityTable: seq<(string, int)> := [
    ("puree", 120), ("porridge", 150), ("apple", 80), ("banana", 90),
    ("milk", 180), ("formula", 180), ("vegetable", 60)]

  /** One item's volume: that of the first key, in table order, that its
      lower-cased text contains; 100 when it contains none. */
  function ItemDensity(item: string): (v: int)
    ensures 60 <= v <= 180
  {
    var lower := Text.ToLower(item);
    match Seqs.Find(DensityTable, (e: (string, int)) => Text.Contains(lower, e.0))
    case Some(e) => e.1
    case None => 100
  }

  /** The item's volume is that of the first key its lower-cased text
      contains, or 100 when it contains none. */
  lemma ItemDensityIsFirstKey(item: string)
    ensures var lower := Text.ToLower(item);
      && ((forall j :: 0 <= j < |DensityTable| ==> !Text.Contains(lower, DensityTable[j].0))
          ==> ItemDensity(item) == 100)
      && ((exists j :: 0 <= j < |DensityTable| && Text.Contains(lower, DensityTable[j].0))
          ==> exists j :: (0 <= j < |DensityTable| && Text.Contains(lower, DensityTable[j].0)
                   && ItemDensity(item) == DensityTable[j].1
                   && forall k :: 0 <= k < j ==> !Text.Contains(lower, DensityTable[k].0)))
  {
    var lower := Text.ToLower(item);
    var isKey := (e: (string, int)) => Text.Contains(lower, e.0);
    var j := Seqs.FirstIndex(DensityTable, isKey);
    if j < |DensityTable| {
      assert Seqs.Find(DensityTable, isKey) == Some(DensityTable[j]);
    }
  }

  /** The first key in table order wins: "Apple Puree" is a puree. */
  lemma EarlierKeyWins()
    ensures ItemDensity("Apple Puree") == 120
  {
    var lower := Text.ToLower("Apple Puree");
    assert lower == "apple puree";
    assert lower[6..11] == "puree";
    Text.ContainsAt(lower, "puree", 6);
  }

  /** The volumes of the items, added in list order. */
  function TotalDensity(items: seq<string>): (t: int)
    ensures 60 * |items| <= t <= 180 * |items|
  {
    if |items| == 0 then 0
    else TotalDensity(items[..|items| - 1]) + ItemDensity(items[|items| - 1])
  }

  /** The rounded mean volume; an empty list counts as one item, so it
      gives 0. */
  function VolumeDensity(items: seq<string>): (r: int)
    ensures items == [] ==> r == 0
  {
    var count := if |items| == 0 then 1 else |items|;
    Round(TotalDensity(items) as real / count as real)
  }

  /** A non-empty list's estimate lies between the smallest and the largest
      volume in the table. */
  lemma VolumeDensityBounds(items: seq<string>)
    requires |items| > 0
    ensures 60 <= VolumeDensity(items) <= 180
  {
    MeanBounds(TotalDensity(items), |items|);
  }

  lemma MeanBounds(t: int, n: int)
    requires n > 0 && 60 * n <= t <= 180 * n
    ensures 60 <= Round(t as real / n as real) <= 180
  {
    var nr, tr := n as real, t as real;
    var mean := tr / nr;
    assert mean * nr == tr;
    if mean < 60.0 {
      ProductPositive(60.0 - mean, nr);
    }
    if mean > 180.0 {
      ProductPositive(mean - 180.0, nr);
    }
  }

  lemma ProductPositive(a: real, b: real)
    requires a > 0.0 && b > 0.0
    ensures a * b > 0.0
  {
  }

  lemma TotalDensityStep(items: seq<string>, i: nat)
    requires i < |items|
    ensures TotalDensity(items[..i + 1]) == TotalDensity(items[..i]) + ItemDensity(items[i])
  {
    assert items[..i + 1][..i] == items[..i];
  }

  /** `estimateVolumeDensity`: the loop adds up the items' volumes, then
      the rounded mean is returned. */
  method EstimateVolumeDensity(items: seq<string>) returns (r: int)
    ensures r == VolumeDensity(items)
  {
    var total := 0;
    var i := 0;
    while i < |items|
      invariant 0 <= i <= |items|
      invariant total == TotalDensity(items[..i])
    {
      TotalDensityStep(items, i);
      total := total + ItemDensity(items[i]);
      i := i + 1;
    }
    assert items[..i] == items;
    var count := if |items| == 0 then 1 else |items|;
    r := Round(total as real / count as real);
  }
}
