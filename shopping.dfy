/** The shopping list of a plan: every ingredient label of the chosen meals
    with the total quantity the day needs. */
module Shopping {
  import opened Seqs
  import opened Text
  import opened Recipes
  import opened Planner

  /** Every (label, quantity) entry of the meals' ingredient tables, meal by
      meal in slot order. */
  function AllIngredients(meals: seq<(string, Recipe)>): (items: seq<(string, real)>)
    decreases |meals|
  {
    if meals == [] then []
    else AllIngredients(meals[..|meals| - 1]) + meals[|meals| - 1].1.ingredients
  }

  /** The labels that occur among `items`. */
  function LabelSet(items: seq<(string, real)>): set<string>
  {
    set i | 0 <= i < |items| :: items[i].0
  }

  /** The total quantity listed for label `l`. */
  function QtySum(items: seq<(string, real)>, l: string): real
    decreases |items|
  {
    if items == [] then 0.0
    else
      var last := items[|items| - 1];
      QtySum(items[..|items| - 1], l) + (if last.0 == l then last.1 else 0.0)
  }

  /** The dictionary `items` after `items[ingr] = items.get(ingr, 0) + qty`
      for each entry in turn. */
  function Tally(items: seq<(string, real)>): map<string, real>
    decreases |items|
  {
    if items == [] then map[]
    else
      var m := Tally(items[..|items| - 1]);
      var last := items[|items| - 1];
      m[last.0 := (if last.0 in m then m[last.0] else 0.0) + last.1]
  }

  /** The dictionary has a key for each label that occurs and no other, and
      holds that label's total quantity. */
  lemma {:induction false} TallyMeaning(items: seq<(string, real)>)
    ensures Tally(items).Keys == LabelSet(items)
    ensures forall l :: l in Tally(items) ==> Tally(items)[l] == QtySum(items, l)
    decreases |items|
  {
    if items != [] {
      var init := items[..|items| - 1];
      var last := items[|items| - 1];
      TallyMeaning(init);
      assert LabelSet(items) == LabelSet(init) + {last.0} by {
        forall x | x in LabelSet(items) ensures x in LabelSet(init) + {last.0} {
          var i :| 0 <= i < |items| && items[i].0 == x;
          if i < |init| {
            assert init[i] == items[i];
          }
        }
        forall x | x in LabelSet(init) ensures x in LabelSet(items) {
          var i :| 0 <= i < |init| && init[i].0 == x;
          assert items[i] == init[i];
        }
      }
      if last.0 !in Tally(init) {
        QtyAbsent(init, last.0);
      }
    }
  }

  /** A label that does not occur totals zero. */
  lemma {:induction false} QtyAbsent(items: seq<(string, real)>, l: string)
    requires l !in LabelSet(items)
    ensures QtySum(items, l) == 0.0
    decreases |items|
  {
    if items != [] {
      var init := items[..|items| - 1];
      assert items[|items| - 1].0 in LabelSet(items);
      assert LabelSet(init) <= LabelSet(items) by {
        forall x | x in LabelSet(init) ensures x in LabelSet(items) {
          var i :| 0 <= i < |init| && init[i].0 == x;
          assert items[i] == init[i];
        }
      }
      QtyAbsent(init, l);
    }
  }

  /** Totals add up over concatenated lists. */
  lemma {:induction false} QtySplit(a: seq<(string, real)>, b: seq<(string, real)>, l: string)
    ensures QtySum(a + b, l) == QtySum(a, l) + QtySum(b, l)
    decreases |b|
  {
    if b == [] {
      assert a + b == a;
    } else {
      var init := b[..|b| - 1];
      assert (a + b)[..|a + b| - 1] == a + init;
      assert (a + b)[|a + b| - 1] == b[|b| - 1];
      QtySplit(a, init, l);
    }
  }

  lemma {:induction false} AllIngredientsSplit(m1: seq<(string, Recipe)>, m2: seq<(string, Recipe)>)
    ensures AllIngredients(m1 + m2) == AllIngredients(m1) + AllIngredients(m2)
    decreases |m2|
  {
    if m2 == [] {
      assert m1 + m2 == m1;
    } else {
      var init := m2[..|m2| - 1];
      assert (m1 + m2)[..|m1 + m2| - 1] == m1 + init;
      assert (m1 + m2)[|m1 + m2| - 1] == m2[|m2| - 1];
      AllIngredientsSplit(m1, init);
    }
  }

  /** The day's quantity of a label is the sum of what each part of the day
      needs: the list of `m1 + m2` is the lists of `m1` and `m2` merged. */
  lemma ShoppingSplit(m1: seq<(string, Recipe)>, m2: seq<(string, Recipe)>, l: string)
    ensures QtySum(AllIngredients(m1 + m2), l)
      == QtySum(AllIngredients(m1), l) + QtySum(AllIngredients(m2), l)
  {
    AllIngredientsSplit(m1, m2);
    QtySplit(AllIngredients(m1), AllIngredients(m2), l);
  }

  /** `build_shopping_list`: every ingredient label of the plan's meals,
      mapped to its total quantity over the meals, and no other key. */
  method BuildShoppingList(plan: Plan) returns (items: map<string, real>)
    ensures items.Keys == LabelSet(AllIngredients(plan.meals))
    ensures forall l :: l in items ==> items[l] == QtySum(AllIngredients(plan.meals), l)
  {
    items := map[];
    for i := 0 to |plan.meals|
      invariant items == Tally(AllIngredients(plan.meals[..i]))
    {
      var ingredients := plan.meals[i].1.ingredients;
      ghost var before := AllIngredients(plan.meals[..i]);
      assert before + ingredients[..0] == before;
      for j := 0 to |ingredients|
        invariant items == Tally(before + ingredients[..j])
      {
        var (ingr, qty) := ingredients[j];
        PrefixSnoc(before, ingredients, j);
        TallySnoc(before + ingredients[..j], ingredients[j]);
        items := items[ingr := (if ingr in items then items[ingr] else 0.0) + qty];
      }
      assert ingredients[..|ingredients|] == ingredients;
      AllIngredientsPrefix(plan.meals, i);
    }
    assert plan.meals[..|plan.meals|] == plan.meals;
    TallyMeaning(AllIngredients(plan.meals));
  }

  /** One more entry updates its label's total. */
  lemma TallySnoc(items: seq<(string, real)>, x: (string, real))
    ensures Tally(items + [x]) == Tally(items)[x.0 := (if x.0 in Tally(items) then Tally(items)[x.0] else 0.0) + x.1]
  {
    assert (items + [x])[..|items|] == items;
  }

  /** One more meal appends its ingredient table. */
  lemma AllIngredientsPrefix(meals: seq<(string, Recipe)>, i: nat)
    requires i < |meals|
    ensures AllIngredients(meals[..i + 1]) == AllIngredients(meals[..i]) + meals[i].1.ingredients
  {
    assert meals[..i + 1][..i] == meals[..i];
  }

  /** A recipe chosen for two slots is bought twice, as when it is a
      last-resort lunch and then the snack (`Runs.FallbackRepeats`): the
      avocado toast (`r003`) twice needs two eggs and two half avocados. */
  lemma RepeatedMealDoubles(r: Recipe)
    requires r.ingredients == [("авокадо (1/2)", 0.5), ("хліб цільнозерновий (1 слайс)", 1.0), ("яйце (1 шт)", 1.0)]
    ensures var meals := [("breakfast", r), ("snack", r)];
      && QtySum(AllIngredients(meals), "яйце (1 шт)") == 2.0
      && QtySum(AllIngredients(meals), "авокадо (1/2)") == 1.0
      && LabelSet(AllIngredients(meals)) == {"авокадо (1/2)", "хліб цільнозерновий (1 слайс)", "яйце (1 шт)"}
  {
    var meals := [("breakfast", r), ("snack", r)];
    var none: seq<(string, Recipe)> := [];
    assert meals[..1][..0] == none;
    assert AllIngredients(meals[..1]) == r.ingredients;
    var items := AllIngredients(meals);
    assert items == r.ingredients + r.ingredients;
    var ing := r.ingredients;
    assert ing[..2][..1][..0] == [] && ing[..2][..1] == ing[..1] && ing[..2] == ing[..|ing| - 1];
    assert "авокадо (1/2)" != "яйце (1 шт)" && "хліб цільнозерновий (1 слайс)" != "яйце (1 шт)";
    assert "хліб цільнозерновий (1 слайс)" != "авокадо (1/2)";
    assert QtySum(ing[..1], "яйце (1 шт)") == 0.0 && QtySum(ing[..1], "авокадо (1/2)") == 0.5;
    assert QtySum(ing[..2], "яйце (1 шт)") == 0.0 && QtySum(ing[..2], "авокадо (1/2)") == 0.5;
    assert QtySum(ing, "яйце (1 шт)") == 1.0 && QtySum(ing, "авокадо (1/2)") == 0.5;
    QtySplit(ing, ing, "яйце (1 шт)");
    QtySplit(ing, ing, "авокадо (1/2)");
    assert items[0].0 == "авокадо (1/2)" && items[1].0 == "хліб цільнозерновий (1 слайс)" && items[2].0 == "яйце (1 шт)";
  }
}
