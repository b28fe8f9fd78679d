/** The heuristic score of a recipe for a mood, a goal and a meal slot, and
    the meal slots with their shares of the daily calorie target. */
module Scoring {
  import opened Text
  import opened Recipes

  /** The meal slots, in the order they are filled. */
  const Categories: seq<string> := ["breakfast", "lunch", "snack", "dinner"]

  /** The share of the daily target each slot aims at. */
  const Allocation: map<string, real> :=
    map["breakfast" := 0.25, "lunch" := 0.35, "snack" := 0.1, "dinner" := 0.3]

  /** `allocation.get(cat, 0.25)` */
  function SlotShare(cat: string): real
  {
    if cat in Allocation then Allocation[cat] else 0.25
  }

  /** The position of a slot name in `Categories`, or 4 for any other name. */
  function SlotRank(cat: string): (k: nat)
    ensures k < |Categories| ==> Categories[k] == cat
    ensures cat in Categories ==> k < |Categories|
  {
    if cat == "breakfast" then 0
    else if cat == "lunch" then 1
    else if cat == "snack" then 2
    else if cat == "dinner" then 3
    else 4
  }

  /** The four shares divide the whole daily target. */
  lemma SharesAddUp()
    ensures SlotShare(Categories[0]) + SlotShare(Categories[1])
      + SlotShare(Categories[2]) + SlotShare(Categories[3]) == 1.0
  {
  }

  function Abs(x: real): real
  {
    if x < 0.0 then -x else x
  }

  function Min(a: int, b: int): int
  {
    if a < b then a else b
  }

  // ---------------------------------------------------------------------
  // Scoring
  // ---------------------------------------------------------------------

  const LoseGoals: seq<string> := ["lose-weight", "cutting"]
  const GainGoals: seq<string> := ["gain-weight", "fast-muscle-gain", "build-muscle"]

  /** The goal-dependent nutrition term of `score_recipe`. Weight-loss goals
      reward low calories, never below 0 and at most 50; gain goals reward
      protein and calories; every other goal peaks at 20 for a 500 kcal
      dish. The goal is compared as given, not lower-cased. */
  function NutritionFit(goal: string, nut: Nutrition): (s: real)
    ensures goal in LoseGoals ==> 0.0 <= s && (nut.calories >= 0.0 ==> s <= 50.0)
    ensures goal in LoseGoals ==> (s == 0.0 <==> nut.calories >= 500.0)
    ensures goal in GainGoals ==> s == 2.0 * nut.protein + nut.calories / 50.0
    ensures goal !in LoseGoals && goal !in GainGoals ==> s <= 20.0
    ensures goal !in LoseGoals && goal !in GainGoals ==> (s == 20.0 <==> nut.calories == 500.0)
  {
    if goal in LoseGoals then
      var v := 50.0 - nut.calories / 10.0;
      if v > 0.0 then v else 0.0
    else if goal in GainGoals then
      nut.protein * 2.0 + nut.calories / 50.0
    else
      20.0 - Abs(nut.calories - 500.0) / 20.0
  }

  /** `MenuPlanner.score_recipe` with its diversity draw supplied. With a
      draw in [0, 5], the score lies between the nutrition and rating terms
      and those terms plus 1.5 times the largest tag score plus 5. */
  function ScoreRecipe(r: Recipe, mood: string, goal: string, diversity: real): (s: real)
    reads r
    ensures 0.0 <= diversity <= 5.0 ==>
      NutritionFit(goal, r.nutrition) + 1.2 * r.rating <= s
      <= NutritionFit(goal, r.nutrition) + 1.2 * r.rating + 1.5 * (7 * |r.tags| + 4) as real + 5.0
  {
    var tagScore := TagScore(r.tags, mood, goal);
    var nutritionScore := NutritionFit(goal, r.nutrition);
    var ratingScore := r.rating * 1.2;
    tagScore as real * 1.5 + nutritionScore + diversity + ratingScore
  }

  /** The calorie aim of slot `cat` under a daily target. */
  function SlotTarget(caloriesTarget: int, cat: string): real
  {
    caloriesTarget as real * SlotShare(cat)
  }

  /** The value a candidate is ranked by: its score less a penalty of 1 per
      50 kcal away from the slot's aim. */
  function RankValue(r: Recipe, mood: string, goal: string, slotTarget: real, diversity: real): real
    reads r
  {
    ScoreRecipe(r, mood, goal, diversity) - Abs(r.nutrition.calories - slotTarget) / 50.0
  }
}
