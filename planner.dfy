/** The menu planner: the whole-day plan with its calorie target, its meals
    and their nutrition total. */
module Planner {
  import opened Recipes
  import opened Calories
  import opened Scoring
  import opened Selection
  import opened Runs

  // ---------------------------------------------------------------------
  // Plans and totals
  // ---------------------------------------------------------------------

  /** `Nutrition(0, 0, 0, 0)` plus each element of `ns` in turn. */
  function Total(ns: seq<Nutrition>): Nutrition
    decreases |ns|
  {
    if ns == [] then Zero else Total(ns[..|ns| - 1]).Add(ns[|ns| - 1])
  }

  /** The nutrition of each meal, in slot order. */
  function MealNutrition(meals: seq<(string, Recipe)>): (ns: seq<Nutrition>)
    ensures |ns| == |meals|
    ensures forall i :: 0 <= i < |meals| ==> ns[i] == meals[i].1.nutrition
  {
    seq(|meals|, i requires 0 <= i < |meals| => meals[i].1.nutrition)
  }

  /** One more meal appends its nutrition. */
  lemma MealNutritionPrefix(meals: seq<(string, Recipe)>, i: nat)
    requires i < |meals|
    ensures MealNutrition(meals[..i + 1]) == MealNutrition(meals[..i]) + [meals[i].1.nutrition]
  {
    var a := MealNutrition(meals[..i + 1]);
    var b := MealNutrition(meals[..i]) + [meals[i].1.nutrition];
    forall k | 0 <= k < |a| ensures a[k] == b[k] {
      if k < i {
        assert meals[..i + 1][k] == meals[..i][k];
      }
    }
  }

  function CalorieList(ns: seq<Nutrition>): seq<real>
  {
    seq(|ns|, i requires 0 <= i < |ns| => ns[i].calories)
  }

  function ProteinList(ns: seq<Nutrition>): seq<real>
  {
    seq(|ns|, i requires 0 <= i < |ns| => ns[i].protein)
  }

  function CarbList(ns: seq<Nutrition>): seq<real>
  {
    seq(|ns|, i requires 0 <= i < |ns| => ns[i].carbs)
  }

  function FatList(ns: seq<Nutrition>): seq<real>
  {
    seq(|ns|, i requires 0 <= i < |ns| => ns[i].fats)
  }

  /** The running total is, field by field, the sum of the meals' values. */
  lemma {:induction false} TotalComponentwise(ns: seq<Nutrition>)
    ensures Total(ns) == Nutrition(Sum(CalorieList(ns)), Sum(ProteinList(ns)), Sum(CarbList(ns)), Sum(FatList(ns)))
    decreases |ns|
  {
    if ns != [] {
      var init := ns[..|ns| - 1];
      var x := ns[|ns| - 1];
      TotalComponentwise(init);
      assert CalorieList(ns) == CalorieList(init) + [x.calories];
      assert ProteinList(ns) == ProteinList(init) + [x.protein];
      assert CarbList(ns) == CarbList(init) + [x.carbs];
      assert FatList(ns) == FatList(init) + [x.fats];
      SumSplit(CalorieList(init), [x.calories]);
      SumSplit(ProteinList(init), [x.protein]);
      SumSplit(CarbList(init), [x.carbs]);
      SumSplit(FatList(init), [x.fats]);
    }
  }

  /** The plan `generate_plan` returns, less its date. */
  datatype Plan = Plan(profile: Profile, goal: string, mood: string, calorieTarget: int,
                       meals: seq<(string, Recipe)>, totalNutrition: Nutrition)

  /** `[f.strip().lower() for f in forbidden if f.strip()]` as a request. */
  function RequestFor(mood: string, goal: string, target: int, forbidden: seq<string>): Request
  {
    Request(mood, goal, target, NormalizeTerms(forbidden))
  }

  /** `MenuPlanner`: a planner over a fixed recipe list. */
  class MenuPlanner {
    const recipes: seq<Recipe>

    constructor (recipes: seq<Recipe>)
      ensures this.recipes == recipes
    {
      this.recipes := recipes;
    }

    /** `MenuPlanner.choose_meals`: one meal per slot where one can be had. */
    method ChooseMeals(mood: string, goal: string, caloriesTarget: int, forbidden: seq<string>, draws: Draws)
      returns (chosen: seq<(string, Recipe)>)
      ensures chosen == Run(recipes, RequestFor(mood, goal, caloriesTarget, forbidden), draws, |Categories|).meals
    {
      var categories := Categories;
      var forb := NormalizeTerms(forbidden);
      var req := Request(mood, goal, caloriesTarget, forb);
      chosen := [];
      var usedIds: set<string> := {};
      ghost var fellBack := false;
      for k := 0 to |categories|
        invariant Run(recipes, req, draws, k) == State(chosen, usedIds, fellBack)
      {
        ghost var st := State(chosen, usedIds, fellBack);
        var pick := PickSlot(k, req, draws, usedIds);
        RunAdvance(recipes, req, draws, k, st, pick);
        match pick {
          case Best(selected) =>
            chosen := chosen + [(categories[k], selected)];
            usedIds := usedIds + {selected.id};
          case Fallback(selected) =>
            chosen := chosen + [(categories[k], selected)];
            fellBack := true;
          case NoPick =>
        }
      }
    }

    /** The body of `choose_meals` for slot `k`: the candidate pool, the
        scored and sorted list, and the pick from its best five or, when it
        is empty, from the unused recipes. */
    method PickSlot(k: nat, req: Request, draws: Draws, usedIds: set<string>) returns (pick: Pick)
      requires k < |Categories|
      ensures pick == SlotPick(recipes, req, draws, k, usedIds)
    {
      var cat := Categories[k];
      var targetCal := SlotTarget(req.target, cat);
      var candidates := Filter(recipes, Tagged(cat));
      if candidates == [] {
        candidates := recipes;
      }
      candidates := Filter(candidates, Permitted(req.forbidden));
      if candidates == [] {
        candidates := Filter(recipes, Permitted(req.forbidden));
      }
      assert candidates == Candidates(recipes, cat, req.forbidden);
      var scored := ScoreCandidates(candidates, usedIds, req.mood, req.goal, targetCal, draws, k);
      assert scored == Ranked(recipes, req, draws, k, usedIds);
      scored := SortDesc(scored);
      if scored != [] {
        var topN := scored[..Min(5, |scored|)];
        pick := Best(topN[draws.pick(k, |topN|) % |topN|].1);
      } else {
        var availableRecipes := Filter(recipes, Unused(usedIds));
        if availableRecipes != [] {
          pick := Fallback(availableRecipes[draws.pick(k, |availableRecipes|) % |availableRecipes|]);
        } else {
          pick := NoPick;
        }
      }
    }

    /** `MenuPlanner.generate_plan`: the target, the meals and their total. */
    method GeneratePlan(mood: string, goal: string, profile: Profile, forbidden: seq<string>, draws: Draws)
      returns (plan: Plan)
      ensures plan.calorieTarget == DailyCalorieTarget(profile, goal)
      ensures plan.meals == Run(recipes, RequestFor(mood, goal, plan.calorieTarget, forbidden), draws, |Categories|).meals
      ensures plan.totalNutrition == Total(MealNutrition(plan.meals))
      ensures plan.profile == profile && plan.goal == goal && plan.mood == mood
    {
      var target := DailyCalorieTarget(profile, goal);
      var meals := ChooseMeals(mood, goal, target, forbidden, draws);
      var totalNut := Zero;
      for i := 0 to |meals|
        invariant totalNut == Total(MealNutrition(meals[..i]))
      {
        MealNutritionPrefix(meals, i);
        totalNut := totalNut.Add(meals[i].1.nutrition);
      }
      assert meals[..|meals|] == meals;
      plan := Plan(profile, goal, mood, target, meals, totalNut);
    }
  }

  /** The scoring loop of `choose_meals`: one entry per candidate whose id
      is not used yet, in candidate order. */
  method ScoreCandidates(candidates: seq<Recipe>, usedIds: set<string>, mood: string, goal: string,
                         targetCal: real, draws: Draws, k: nat) returns (scored: seq<(real, Recipe)>)
    ensures scored == Scored(candidates, usedIds, mood, goal, targetCal, draws, k)
  {
    scored := [];
    var i := 0;
    while i < |candidates|
      invariant 0 <= i <= |candidates|
      invariant scored == Scored(candidates[..i], usedIds, mood, goal, targetCal, draws, k)
    {
      var r := candidates[i];
      assert candidates[..i + 1][..i] == candidates[..i];
      if r.id in usedIds {
        i := i + 1;
        continue;
      }
      var s := ScoreRecipe(r, mood, goal, draws.diversity(k, i))
        - Abs(r.nutrition.calories - targetCal) / 50.0;
      scored := scored + [(s, r)];
      i := i + 1;
    }
    assert candidates[..i] == candidates;
  }
}
