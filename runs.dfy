/** Properties of a whole planning run over the four slots. */
module Runs {
  import opened Text
  import opened Recipes
  import opened Scoring
  import opened Selection

  // ---------------------------------------------------------------------
  // Properties of the whole run
  // ---------------------------------------------------------------------

  /** What holds of the state after `n` slots: every chosen meal is a
      catalog recipe; the slots are distinct, come from the first `n` of
      `Categories` and appear in its order; and up to the first last-resort
      pick, the meals' ids are distinct, permitted and recorded as used. */
  predicate WellFormed(recipes: seq<Recipe>, req: Request, n: nat, st: State)
  {
    && |st.meals| <= n
    && (forall i :: 0 <= i < |st.meals| ==> st.meals[i].1 in recipes)
    && (forall i :: 0 <= i < |st.meals| ==> SlotRank(st.meals[i].0) < n)
    && (forall i, j :: 0 <= i < j < |st.meals| ==> SlotRank(st.meals[i].0) < SlotRank(st.meals[j].0))
    && (!st.fellBack ==> forall i :: 0 <= i < |st.meals| ==> st.meals[i].1.id in st.used)
    && (!st.fellBack ==> forall i :: 0 <= i < |st.meals| ==> Passes(st.meals[i].1, Permitted(req.forbidden)))
    && (!st.fellBack ==> forall i, j :: 0 <= i < j < |st.meals| ==> st.meals[i].1.id != st.meals[j].1.id)
  }

  /** Adding the meal of slot `k` keeps the state well formed: a ranked pick
      must be unused and permitted, a last-resort pick need only be a
      catalog recipe. */
  lemma ExtendKeeps(recipes: seq<Recipe>, req: Request, k: nat, st: State, r: Recipe, ranked: bool)
    requires k < |Categories| && WellFormed(recipes, req, k, st)
    requires r in recipes
    requires ranked ==> r.id !in st.used && Passes(r, Permitted(req.forbidden))
    ensures WellFormed(recipes, req, k + 1,
      State(st.meals + [(Categories[k], r)], if ranked then st.used + {r.id} else st.used, st.fellBack || !ranked))
  {
    assert SlotRank(Categories[k]) == k;
    var meals := st.meals + [(Categories[k], r)];
    assert forall i :: 0 <= i < |st.meals| ==> meals[i] == st.meals[i];
  }

  /** Filling slot `k` keeps the state well formed. */
  lemma StepKeeps(recipes: seq<Recipe>, req: Request, draws: Draws, k: nat, st: State)
    requires k < |Categories| && WellFormed(recipes, req, k, st)
    ensures WellFormed(recipes, req, k + 1, Step(recipes, req, draws, k, st))
  {
    match SlotPick(recipes, req, draws, k, st.used)
    case Best(r) =>
      BestPickSound(recipes, req, draws, k, st.used, r);
      StepBest(recipes, req, draws, k, st, r);
      ExtendKeeps(recipes, req, k, st, r, true);
    case Fallback(r) =>
      FallbackPickSound(recipes, req, draws, k, st.used, r);
      StepFallback(recipes, req, draws, k, st, r);
      ExtendKeeps(recipes, req, k, st, r, false);
    case NoPick =>
      StepNone(recipes, req, draws, k, st);
  }

  /** The state after `n` slots is well formed. */
  lemma {:induction false} RunInvariant(recipes: seq<Recipe>, req: Request, draws: Draws, n: nat)
    requires n <= |Categories|
    ensures WellFormed(recipes, req, n, Run(recipes, req, draws, n))
    decreases n
  {
    if n > 0 {
      var m: nat := n - 1;
      RunInvariant(recipes, req, draws, m);
      StepKeeps(recipes, req, draws, m, Run(recipes, req, draws, m));
      RunStep(recipes, req, draws, m);
    }
  }

  /** Whenever no last-resort pick happens, no recipe repeats in the day's
      plan and none holds a forbidden term. */
  lemma NoRepeatsWithoutFallback(recipes: seq<Recipe>, req: Request, draws: Draws)
    requires !Run(recipes, req, draws, |Categories|).fellBack
    ensures var meals := Run(recipes, req, draws, |Categories|).meals;
      && (forall i, j :: 0 <= i < j < |meals| ==> meals[i].1.id != meals[j].1.id)
      && (forall i :: 0 <= i < |meals| ==> Passes(meals[i].1, Permitted(req.forbidden)))
  {
    RunInvariant(recipes, req, draws, |Categories|);
  }

  /** The last-resort pick is not recorded as used, so a later slot can
      choose the same recipe again, with no forbidden terms at all. Recipe
      `a` is tagged for breakfast and lunch, `b` for dinner: breakfast takes
      `a`; lunch ranks nothing and falls back to `b`; snack, for which no
      recipe is tagged, ranks all recipes and takes `b` once more. */
  lemma FallbackRepeats(a: Recipe, b: Recipe, req: Request, draws: Draws)
    requires a.id != b.id
    requires a.tags == ["breakfast", "lunch"] && b.tags == ["dinner"]
    requires req.forbidden == []
    ensures var meals := Run([a, b], req, draws, |Categories|).meals;
      |meals| >= 3 && meals[1] == ("lunch", b) && meals[2] == ("snack", b)
  {
    ThreeSlots(a, b, req, draws);
    RunExtends([a, b], req, draws, 3);
  }

  /** A later slot never changes the meals of the earlier ones. */
  lemma RunExtends(recipes: seq<Recipe>, req: Request, draws: Draws, k: nat)
    requires k < |Categories|
    ensures var before := Run(recipes, req, draws, k).meals;
      var after := Run(recipes, req, draws, k + 1).meals;
      |before| <= |after| && forall i :: 0 <= i < |before| ==> after[i] == before[i]
  {
    RunStep(recipes, req, draws, k);
    StepExtends(recipes, req, draws, k, Run(recipes, req, draws, k));
  }

  /** Breakfast takes `a`. */
  lemma OneSlot(a: Recipe, b: Recipe, req: Request, draws: Draws)
    requires a.tags == ["breakfast", "lunch"] && b.tags == ["dinner"]
    requires req.forbidden == []
    ensures Run([a, b], req, draws, 1) == State([("breakfast", a)], {a.id}, false)
  {
    BreakfastTakesA(a, b, req, draws);
    var s0 := Run([a, b], req, draws, 0);
    assert s0 == State([], {}, false);
    RunStep([a, b], req, draws, 0);
    StepBest([a, b], req, draws, 0, s0, a);
    assert s0.meals + [(Categories[0], a)] == [("breakfast", a)];
    assert s0.used + {a.id} == {a.id};
  }

  /** Breakfast takes `a`; lunch falls back to `b`. */
  lemma TwoSlots(a: Recipe, b: Recipe, req: Request, draws: Draws)
    requires a.id != b.id
    requires a.tags == ["breakfast", "lunch"] && b.tags == ["dinner"]
    requires req.forbidden == []
    ensures Run([a, b], req, draws, 2) == State([("breakfast", a), ("lunch", b)], {a.id}, true)
  {
    OneSlot(a, b, req, draws);
    LunchFallsBack(a, b, req, draws);
    RunStep([a, b], req, draws, 1);
    StepFallback([a, b], req, draws, 1, Run([a, b], req, draws, 1), b);
  }

  /** Snack takes `b` again. */
  lemma ThreeSlots(a: Recipe, b: Recipe, req: Request, draws: Draws)
    requires a.id != b.id
    requires a.tags == ["breakfast", "lunch"] && b.tags == ["dinner"]
    requires req.forbidden == []
    ensures Run([a, b], req, draws, 3).meals == [("breakfast", a), ("lunch", b), ("snack", b)]
  {
    TwoSlots(a, b, req, draws);
    SnackRepeatsB(a, b, req, draws);
    RunStep([a, b], req, draws, 2);
    StepBest([a, b], req, draws, 2, Run([a, b], req, draws, 2), b);
  }

  /** One more slot is one more step. */
  lemma RunStep(recipes: seq<Recipe>, req: Request, draws: Draws, k: nat)
    requires k < |Categories|
    ensures Run(recipes, req, draws, k + 1) == Step(recipes, req, draws, k, Run(recipes, req, draws, k))
  {
  }

  /** The run over `k + 1` slots is the run over `k` slots advanced by
      slot `k`'s pick. */
  lemma RunAdvance(recipes: seq<Recipe>, req: Request, draws: Draws, k: nat, st: State, pick: Pick)
    requires k < |Categories|
    requires Run(recipes, req, draws, k) == st && SlotPick(recipes, req, draws, k, st.used) == pick
    ensures Run(recipes, req, draws, k + 1) == Advance(st, Categories[k], pick)
  {
    RunStep(recipes, req, draws, k);
  }

  /** A ranked pick is appended and its id recorded. */
  lemma StepBest(recipes: seq<Recipe>, req: Request, draws: Draws, k: nat, st: State, r: Recipe)
    requires k < |Categories| && SlotPick(recipes, req, draws, k, st.used) == Best(r)
    ensures Step(recipes, req, draws, k, st) == State(st.meals + [(Categories[k], r)], st.used + {r.id}, st.fellBack)
  {
  }

  /** A last-resort pick is appended but its id is not recorded. */
  lemma StepFallback(recipes: seq<Recipe>, req: Request, draws: Draws, k: nat, st: State, r: Recipe)
    requires k < |Categories| && SlotPick(recipes, req, draws, k, st.used) == Fallback(r)
    ensures Step(recipes, req, draws, k, st) == State(st.meals + [(Categories[k], r)], st.used, true)
  {
  }

  /** A slot without a pick leaves the state as it was. */
  lemma StepNone(recipes: seq<Recipe>, req: Request, draws: Draws, k: nat, st: State)
    requires k < |Categories| && SlotPick(recipes, req, draws, k, st.used) == NoPick
    ensures Step(recipes, req, draws, k, st) == st
  {
  }

  /** A step only appends to the meals. */
  lemma StepExtends(recipes: seq<Recipe>, req: Request, draws: Draws, k: nat, st: State)
    requires k < |Categories|
    ensures st.meals <= Step(recipes, req, draws, k, st).meals
  {
  }

  /** `Filter` on a two-element list keeps each element that passes. */
  lemma FilterPair(a: Recipe, b: Recipe, sieve: Sieve)
    ensures Filter([a, b], sieve)
      == (if Passes(a, sieve) then [a] else []) + (if Passes(b, sieve) then [b] else [])
  {
    assert [a, b][..1] == [a];
    assert [a][..0] == [];
  }

  /** The tags and (empty) forbidden list of the example recipes. */
  lemma ExampleFacts(a: Recipe, b: Recipe)
    requires a.tags == ["breakfast", "lunch"] && b.tags == ["dinner"]
    ensures Passes(a, Tagged("breakfast")) && Passes(a, Tagged("lunch")) && !Passes(a, Tagged("snack"))
    ensures !Passes(b, Tagged("breakfast")) && !Passes(b, Tagged("lunch")) && !Passes(b, Tagged("snack"))
    ensures Passes(a, Permitted([])) && Passes(b, Permitted([]))
  {
    assert LowerAll(a.tags) == a.tags by {
      LowerFixed("breakfast");
      LowerFixed("lunch");
    }
    assert LowerAll(b.tags) == b.tags by {
      LowerFixed("dinner");
    }
  }

  lemma BreakfastTakesA(a: Recipe, b: Recipe, req: Request, draws: Draws)
    requires a.tags == ["breakfast", "lunch"] && b.tags == ["dinner"]
    requires req.forbidden == []
    ensures SlotPick([a, b], req, draws, 0, {}) == Best(a)
  {
    ExampleFacts(a, b);
    var recipes := [a, b];
    assert Candidates(recipes, "breakfast", []) == [a] by {
      FilterPair(a, b, Tagged("breakfast"));
      assert Filter([a], Permitted([])) == [a];
    }
    assert Categories[0] == "breakfast";
    var sc := Ranked(recipes, req, draws, 0, {});
    assert sc == Scored([a], {}, req.mood, req.goal, SlotTarget(req.target, "breakfast"), draws, 0);
    assert [a][..0] == [];
    OnlyRanked(recipes, req, draws, 0, {}, a);
  }

  /** A slot whose ranked list has a single entry picks that entry. */
  lemma OnlyRanked(recipes: seq<Recipe>, req: Request, draws: Draws, k: nat, used: set<string>, r: Recipe)
    requires k < |Categories|
    requires |Ranked(recipes, req, draws, k, used)| == 1 && Ranked(recipes, req, draws, k, used)[0].1 == r
    ensures SlotPick(recipes, req, draws, k, used) == Best(r)
  {
    var sc := Ranked(recipes, req, draws, k, used);
    assert sc[..0] == [];
    assert SortDesc(sc) == [sc[0]];
  }

  lemma LunchFallsBack(a: Recipe, b: Recipe, req: Request, draws: Draws)
    requires a.id != b.id
    requires a.tags == ["breakfast", "lunch"] && b.tags == ["dinner"]
    requires req.forbidden == []
    ensures SlotPick([a, b], req, draws, 1, {a.id}) == Fallback(b)
  {
    var recipes := [a, b];
    assert Categories[1] == "lunch";
    assert Candidates(recipes, "lunch", req.forbidden) == [a] by { LunchCandidates(a, b); }
    assert Ranked(recipes, req, draws, 1, {a.id}) == [] by {
      RankedOnlyUsed(recipes, req, draws, 1, {a.id}, a);
    }
    assert Filter(recipes, Unused({a.id})) == [b] by {
      FilterPair(a, b, Unused({a.id}));
    }
    OnlyFallback(recipes, req, draws, 1, {a.id}, b);
  }

  /** The example's only lunch candidate is `a`. */
  lemma LunchCandidates(a: Recipe, b: Recipe)
    requires a.tags == ["breakfast", "lunch"] && b.tags == ["dinner"]
    ensures Candidates([a, b], "lunch", []) == [a]
  {
    ExampleFacts(a, b);
    assert Pool([a, b], "lunch") == [a] by { FilterPair(a, b, Tagged("lunch")); }
    FilterOne(a, Permitted([]));
  }

  /** `Filter` on a one-element list keeps the element if it passes. */
  lemma FilterOne(a: Recipe, sieve: Sieve)
    ensures Filter([a], sieve) == if Passes(a, sieve) then [a] else []
  {
    assert [a][..0] == [];
  }

  /** A slot whose only candidate is already used ranks nothing. */
  lemma RankedOnlyUsed(recipes: seq<Recipe>, req: Request, draws: Draws, k: nat, used: set<string>, a: Recipe)
    requires k < |Categories|
    requires Candidates(recipes, Categories[k], req.forbidden) == [a] && a.id in used
    ensures Ranked(recipes, req, draws, k, used) == []
  {
    assert [a][..0] == [];
  }

  /** The last-resort pick ignores the forbidden terms: a catalogue of one
      forbidden recipe still yields that recipe, in any slot. */
  lemma FallbackIgnoresForbidden(e: Recipe, req: Request, draws: Draws, k: nat)
    requires k < |Categories|
    requires ForbiddenIn(Labels(e.ingredients), req.forbidden)
    ensures SlotPick([e], req, draws, k, {}) == Fallback(e)
  {
    var cat := Categories[k];
    assert Pool([e], cat) == [e] by { FilterOne(e, Tagged(cat)); }
    assert Filter([e], Permitted(req.forbidden)) == [] by { FilterOne(e, Permitted(req.forbidden)); }
    assert Candidates([e], cat, req.forbidden) == [];
    assert Ranked([e], req, draws, k, {}) == [] by {
      assert Ranked([e], req, draws, k, {})
        == Scored([], {}, req.mood, req.goal, SlotTarget(req.target, cat), draws, k);
    }
    assert Filter([e], Unused({})) == [e] by { FilterOne(e, Unused({})); }
    OnlyFallback([e], req, draws, k, {}, e);
  }

  /** A slot that ranks nothing and has a single unused recipe falls back to
      that recipe. */
  lemma OnlyFallback(recipes: seq<Recipe>, req: Request, draws: Draws, k: nat, used: set<string>, r: Recipe)
    requires k < |Categories|
    requires Ranked(recipes, req, draws, k, used) == [] && Filter(recipes, Unused(used)) == [r]
    ensures SlotPick(recipes, req, draws, k, used) == Fallback(r)
  {
  }

  lemma SnackRepeatsB(a: Recipe, b: Recipe, req: Request, draws: Draws)
    requires a.id != b.id
    requires a.tags == ["breakfast", "lunch"] && b.tags == ["dinner"]
    requires req.forbidden == []
    ensures SlotPick([a, b], req, draws, 2, {a.id}) == Best(b)
  {
    ExampleFacts(a, b);
    var recipes := [a, b];
    assert Candidates(recipes, "snack", []) == recipes by {
      FilterPair(a, b, Tagged("snack"));
      FilterPair(a, b, Permitted([]));
    }
    assert Categories[2] == "snack";
    var sc := Ranked(recipes, req, draws, 2, {a.id});
    assert sc == Scored(recipes, {a.id}, req.mood, req.goal, SlotTarget(req.target, "snack"), draws, 2);
    assert recipes[..1] == [a];
    assert Scored([a], {a.id}, req.mood, req.goal, SlotTarget(req.target, "snack"), draws, 2) == [] by {
      assert [a][..0] == [];
    }
    OnlyRanked(recipes, req, draws, 2, {a.id}, b);
  }

  /** A planning request never fails: with any catalog, forbidden list and
      draws there is a result, with at most one meal per slot. */
  lemma PlanIsTotal(recipes: seq<Recipe>, req: Request, draws: Draws)
    ensures |Run(recipes, req, draws, |Categories|).meals| <= |Categories|
    ensures var meals := Run(recipes, req, draws, |Categories|).meals;
      forall i, j :: 0 <= i < j < |meals| ==> meals[i].0 != meals[j].0
  {
    RunInvariant(recipes, req, draws, |Categories|);
  }
}
