/** The choice of one meal per slot: the candidate pool with its fallback
    chain, the ranking, the pick among the best five and the last-resort
    pick. The two random sources of the planner, the diversity draw of each
    score and the choice among the best candidates, are supplied by the
    caller as a `Draws` value. */
module Selection {
  import opened Seqs
  import opened Text
  import opened Recipes
  import opened Scoring

  // ---------------------------------------------------------------------
  // Candidate pools
  // ---------------------------------------------------------------------

  /** The three tests the planner filters recipes by. */
  datatype Sieve = Tagged(cat: string) | Permitted(forbidden: seq<string>) | Unused(used: set<string>)

  predicate Passes(r: Recipe, sieve: Sieve)
  {
    match sieve
    case Tagged(cat) => cat in LowerAll(r.tags)
    case Permitted(forbidden) => !ForbiddenIn(Labels(r.ingredients), forbidden)
    case Unused(used) => r.id !in used
  }

  /** `[r for r in rs if <sieve passes r>]` */
  function Filter(rs: seq<Recipe>, sieve: Sieve): (out: seq<Recipe>)
    ensures |out| <= |rs|
    ensures forall i :: 0 <= i < |out| ==> Passes(out[i], sieve)
    decreases |rs|
  {
    if rs == [] then []
    else
      var rest := Filter(rs[..|rs| - 1], sieve);
      var last := rs[|rs| - 1];
      if Passes(last, sieve) then rest + [last] else rest
  }

  /** A recipe is kept exactly when it is in the list and passes. */
  lemma {:induction false} FilterMember(rs: seq<Recipe>, sieve: Sieve, r: Recipe)
    ensures r in Filter(rs, sieve) <==> r in rs && Passes(r, sieve)
    decreases |rs|
  {
    if rs != [] {
      var init := rs[..|rs| - 1];
      assert rs == init + [rs[|rs| - 1]];
      FilterMember(init, sieve, r);
    }
  }

  /** The recipes tagged with slot `cat`, or all recipes if none is. */
  function Pool(recipes: seq<Recipe>, cat: string): seq<Recipe>
  {
    if Filter(recipes, Tagged(cat)) == [] then recipes else Filter(recipes, Tagged(cat))
  }

  /** The candidates of slot `cat`: the pool less the recipes with a
      forbidden term; if that leaves none, every recipe without a forbidden
      term. */
  function Candidates(recipes: seq<Recipe>, cat: string, forbidden: seq<string>): seq<Recipe>
  {
    if Filter(Pool(recipes, cat), Permitted(forbidden)) == [] then Filter(recipes, Permitted(forbidden))
    else Filter(Pool(recipes, cat), Permitted(forbidden))
  }

  lemma PoolMember(recipes: seq<Recipe>, cat: string, r: Recipe)
    requires r in Pool(recipes, cat)
    ensures r in recipes
  {
    FilterMember(recipes, Tagged(cat), r);
  }

  lemma CandidateMember(recipes: seq<Recipe>, cat: string, forbidden: seq<string>, r: Recipe)
    requires r in Candidates(recipes, cat, forbidden)
    ensures r in recipes && Passes(r, Permitted(forbidden))
  {
    if r in Filter(Pool(recipes, cat), Permitted(forbidden)) {
      FilterMember(Pool(recipes, cat), Permitted(forbidden), r);
      PoolMember(recipes, cat, r);
    } else {
      FilterMember(recipes, Permitted(forbidden), r);
    }
  }

  /** Every candidate is a catalog recipe with no forbidden term. */
  lemma CandidatesSound(recipes: seq<Recipe>, cat: string, forbidden: seq<string>)
    ensures forall r :: r in Candidates(recipes, cat, forbidden) ==> r in recipes && Passes(r, Permitted(forbidden))
  {
    forall r | r in Candidates(recipes, cat, forbidden)
      ensures r in recipes && Passes(r, Permitted(forbidden))
    {
      CandidateMember(recipes, cat, forbidden, r);
    }
  }

  /** The pool is empty only when every recipe has a forbidden term. */
  lemma CandidatesEmptyIff(recipes: seq<Recipe>, cat: string, forbidden: seq<string>)
    ensures Candidates(recipes, cat, forbidden) == []
      <==> forall r :: r in recipes ==> !Passes(r, Permitted(forbidden))
  {
    var allowed := Filter(Pool(recipes, cat), Permitted(forbidden));
    var everywhere := Filter(recipes, Permitted(forbidden));
    if allowed != [] {
      var r := allowed[0];
      FilterMember(Pool(recipes, cat), Permitted(forbidden), r);
      PoolMember(recipes, cat, r);
    } else if everywhere != [] {
      FilterMember(recipes, Permitted(forbidden), everywhere[0]);
    } else {
      forall r | r in recipes ensures !Passes(r, Permitted(forbidden)) {
        FilterMember(recipes, Permitted(forbidden), r);
      }
    }
  }

  /** The pool keeps to the slot's tag whenever some permitted recipe
      carries it. */
  lemma CandidatesKeepTag(recipes: seq<Recipe>, cat: string, forbidden: seq<string>, j: nat)
    requires j < |recipes| && Passes(recipes[j], Tagged(cat)) && Passes(recipes[j], Permitted(forbidden))
    ensures forall r :: r in Candidates(recipes, cat, forbidden) ==> Passes(r, Tagged(cat))
  {
    var tagged := Filter(recipes, Tagged(cat));
    FilterMember(recipes, Tagged(cat), recipes[j]);
    FilterMember(tagged, Permitted(forbidden), recipes[j]);
    assert Candidates(recipes, cat, forbidden) == Filter(tagged, Permitted(forbidden));
    forall r | r in Candidates(recipes, cat, forbidden) ensures Passes(r, Tagged(cat)) {
      FilterMember(tagged, Permitted(forbidden), r);
      FilterMember(recipes, Tagged(cat), r);
    }
  }

  // ---------------------------------------------------------------------
  // Ranking
  // ---------------------------------------------------------------------

  /** The planner's random sources: `diversity(k, i)` is the draw for the
      candidate at index `i` of slot `k`, and `random.choice(xs)` in slot
      `k` takes `xs[pick(k, |xs|) % |xs|]`. */
  datatype Draws = Draws(diversity: (nat, nat) -> real, pick: (nat, nat) -> nat)

  /** The `scored` list of slot `k` before sorting: a (rank value, recipe)
      entry for each candidate whose id is not used yet, in candidate order;
      the candidate at index `i` is scored with the draw `diversity(k, i)`. */
  function Scored(cands: seq<Recipe>, used: set<string>, mood: string, goal: string,
                  slotTarget: real, draws: Draws, k: nat): (s: seq<(real, Recipe)>)
    reads cands
    ensures |s| <= |cands|
    ensures forall j :: 0 <= j < |s| ==> s[j].1.id !in used
    decreases |cands|
  {
    if cands == [] then []
    else
      var i := |cands| - 1;
      var r := cands[i];
      assert cands == cands[..i] + [r];
      var rest := Scored(cands[..i], used, mood, goal, slotTarget, draws, k);
      if r.id in used then rest
      else rest + [(RankValue(r, mood, goal, slotTarget, draws.diversity(k, i)), r)]
  }

  /** The recipes of a scored list, in order. */
  function RecipesOf(s: seq<(real, Recipe)>): (rs: seq<Recipe>)
    ensures |rs| == |s|
    ensures forall j :: 0 <= j < |s| ==> rs[j] == s[j].1
  {
    seq(|s|, j requires 0 <= j < |s| => s[j].1)
  }

  /** The scored recipes are exactly the unused candidates, in candidate
      order. */
  lemma {:induction false} ScoredEntries(cands: seq<Recipe>, used: set<string>, mood: string, goal: string,
                                         slotTarget: real, draws: Draws, k: nat)
    ensures RecipesOf(Scored(cands, used, mood, goal, slotTarget, draws, k)) == Filter(cands, Unused(used))
    decreases |cands|
  {
    if cands != [] {
      var i := |cands| - 1;
      var r := cands[i];
      var rest := Scored(cands[..i], used, mood, goal, slotTarget, draws, k);
      ScoredEntries(cands[..i], used, mood, goal, slotTarget, draws, k);
      if r.id !in used {
        var out := rest + [(RankValue(r, mood, goal, slotTarget, draws.diversity(k, i)), r)];
        assert RecipesOf(out) == RecipesOf(rest) + [r];
      }
    }
  }

  predicate SortedDesc(s: seq<(real, Recipe)>)
  {
    forall i, j :: 0 <= i < j < |s| ==> s[i].0 >= s[j].0
  }

  /** Inserts `x` after every entry ranked at least as high, so that entries
      of equal rank keep their order. */
  function InsertDesc(s: seq<(real, Recipe)>, x: (real, Recipe)): seq<(real, Recipe)>
    decreases |s|
  {
    if s == [] then [x]
    else if s[0].0 >= x.0 then [s[0]] + InsertDesc(s[1..], x)
    else [x] + s
  }

  /** Insertion adds exactly `x` and keeps a list sorted. */
  lemma InsertDescSorted(s: seq<(real, Recipe)>, x: (real, Recipe))
    ensures |InsertDesc(s, x)| == |s| + 1
    ensures multiset(InsertDesc(s, x)) == multiset(s) + multiset{x}
    ensures SortedDesc(s) ==> SortedDesc(InsertDesc(s, x))
  {
    InsertDescPermutes(s, x);
    if SortedDesc(s) {
      InsertDescKeepsOrder(s, x);
    }
  }

  lemma {:induction false} InsertDescPermutes(s: seq<(real, Recipe)>, x: (real, Recipe))
    ensures |InsertDesc(s, x)| == |s| + 1
    ensures multiset(InsertDesc(s, x)) == multiset(s) + multiset{x}
    decreases |s|
  {
    if s != [] {
      assert s == [s[0]] + s[1..];
      if s[0].0 >= x.0 {
        InsertDescPermutes(s[1..], x);
      }
    }
  }

  /** Inserting an entry no higher than `v` into entries no higher than `v`
      gives entries no higher than `v`. */
  lemma {:induction false} InsertDescBelow(s: seq<(real, Recipe)>, x: (real, Recipe), v: real)
    requires forall i :: 0 <= i < |s| ==> s[i].0 <= v
    requires x.0 <= v
    ensures forall k :: 0 <= k < |InsertDesc(s, x)| ==> InsertDesc(s, x)[k].0 <= v
    decreases |s|
  {
    if s != [] && s[0].0 >= x.0 {
      InsertDescBelow(s[1..], x, v);
      var rest := InsertDesc(s[1..], x);
      forall k | 0 <= k < |[s[0]] + rest| ensures ([s[0]] + rest)[k].0 <= v {
        if k > 0 {
          assert ([s[0]] + rest)[k] == rest[k - 1];
        }
      }
    }
  }

  lemma {:induction false} InsertDescKeepsOrder(s: seq<(real, Recipe)>, x: (real, Recipe))
    requires SortedDesc(s)
    ensures SortedDesc(InsertDesc(s, x))
    decreases |s|
  {
    if s != [] {
      var tail := s[1..];
      assert SortedDesc(tail) by {
        forall i, j | 0 <= i < j < |tail| ensures tail[i].0 >= tail[j].0 {
          assert tail[i] == s[i + 1] && tail[j] == s[j + 1];
        }
      }
      if s[0].0 >= x.0 {
        InsertDescKeepsOrder(tail, x);
        var rest := InsertDesc(tail, x);
        assert forall i :: 0 <= i < |tail| ==> tail[i].0 <= s[0].0 by {
          forall i | 0 <= i < |tail| ensures tail[i].0 <= s[0].0 {
            assert tail[i] == s[i + 1];
          }
        }
        InsertDescBelow(tail, x, s[0].0);
        var out := [s[0]] + rest;
        forall i, j | 0 <= i < j < |out| ensures out[i].0 >= out[j].0 {
          assert out[j] == rest[j - 1];
          if i > 0 {
            assert out[i] == rest[i - 1];
          }
        }
      } else {
        var out := [x] + s;
        forall i, j | 0 <= i < j < |out| ensures out[i].0 >= out[j].0 {
          assert out[j] == s[j - 1];
          if i > 0 {
            assert out[i] == s[i - 1];
          } else if j > 1 {
            assert s[0].0 >= s[j - 1].0;
          }
        }
      }
    }
  }

  /** `scored.sort(key=lambda x: x[0], reverse=True)`: a sort by rank,
      highest first, by insertion from the end. */
  function SortDesc(s: seq<(real, Recipe)>): seq<(real, Recipe)>
    decreases |s|
  {
    if s == [] then [] else InsertDesc(SortDesc(s[..|s| - 1]), s[|s| - 1])
  }

  /** The sort is a permutation and its result is sorted highest first. */
  lemma {:induction false} SortDescSorted(s: seq<(real, Recipe)>)
    ensures |SortDesc(s)| == |s|
    ensures multiset(SortDesc(s)) == multiset(s)
    ensures SortedDesc(SortDesc(s))
    decreases |s|
  {
    if s != [] {
      var init := s[..|s| - 1];
      assert s == init + [s[|s| - 1]];
      SortDescSorted(init);
      InsertDescSorted(SortDesc(init), s[|s| - 1]);
    }
  }

  /** How many entries of `s` rank strictly above `v`. */
  function CountAbove(s: seq<(real, Recipe)>, v: real): (n: nat)
    ensures n <= |s|
    decreases |s|
  {
    if s == [] then 0 else (if s[0].0 > v then 1 else 0) + CountAbove(s[1..], v)
  }

  // ---------------------------------------------------------------------
  // One slot
  // ---------------------------------------------------------------------

  /** What one planning call works with: mood, goal, the daily calorie
      target and the normalized forbidden terms. */
  datatype Request = Request(mood: string, goal: string, target: int, forbidden: seq<string>)

  /** The unsorted `scored` list of slot `k` when the ids `used` are taken. */
  function Ranked(recipes: seq<Recipe>, req: Request, draws: Draws, k: nat, used: set<string>): (s: seq<(real, Recipe)>)
    requires k < |Categories|
    reads recipes
  {
    var cat := Categories[k];
    CandidatesSound(recipes, cat, req.forbidden);
    Scored(Candidates(recipes, cat, req.forbidden), used, req.mood, req.goal,
           SlotTarget(req.target, cat), draws, k)
  }

  /** The outcome of one slot: a pick from the ranked list, a last-resort
      pick from the unused recipes, or nothing. */
  datatype Pick = Best(recipe: Recipe) | Fallback(recipe: Recipe) | NoPick

  function SlotPick(recipes: seq<Recipe>, req: Request, draws: Draws, k: nat, used: set<string>): Pick
    requires k < |Categories|
    reads recipes
  {
    var scored := SortDesc(Ranked(recipes, req, draws, k, used));
    if scored != [] then
      var top := scored[..Min(5, |scored|)];
      Best(top[draws.pick(k, |top|) % |top|].1)
    else
      var available := Filter(recipes, Unused(used));
      if available != [] then Fallback(available[draws.pick(k, |available|) % |available|])
      else NoPick
  }

  /** The state `choose_meals` carries from slot to slot: the meals chosen so
      far in slot order, the ids in `used_ids`, and whether a last-resort
      pick has happened. */
  datatype State = State(meals: seq<(string, Recipe)>, used: set<string>, fellBack: bool)

  /** The state after slot `cat` is filled by `pick`: a ranked pick is
      recorded as used, a last-resort pick is not, and no pick leaves the
      state as it was. */
  function Advance(st: State, cat: string, pick: Pick): State
  {
    match pick
    case Best(r) => State(st.meals + [(cat, r)], st.used + {r.id}, st.fellBack)
    case Fallback(r) => State(st.meals + [(cat, r)], st.used, true)
    case NoPick => st
  }

  function Step(recipes: seq<Recipe>, req: Request, draws: Draws, k: nat, st: State): State
    requires k < |Categories|
    reads recipes
  {
    Advance(st, Categories[k], SlotPick(recipes, req, draws, k, st.used))
  }

  /** The state after the first `n` slots. */
  function Run(recipes: seq<Recipe>, req: Request, draws: Draws, n: nat): State
    requires n <= |Categories|
    reads recipes
    decreases n
  {
    if n == 0 then State([], {}, false)
    else Step(recipes, req, draws, n - 1, Run(recipes, req, draws, n - 1))
  }

  // ---------------------------------------------------------------------
  // Properties of one slot
  // ---------------------------------------------------------------------

  lemma {:induction false} CountAbovePermutation(a: seq<(real, Recipe)>, b: seq<(real, Recipe)>, v: real)
    requires multiset(a) == multiset(b)
    ensures CountAbove(a, v) == CountAbove(b, v)
    decreases |a|
  {
    if a == [] {
      assert |b| == |multiset(b)| == 0;
    } else {
      assert a[0] in multiset(b);
      var j := IndexOf(b, a[0]);
      PermutationTail(a, b, j);
      CountAbovePermutation(a[1..], b[..j] + b[j + 1..], v);
      CountAboveRemove(b, j, v);
    }
  }

  /** Taking out the entry at `j` takes its share out of the count. */
  lemma CountAboveRemove(b: seq<(real, Recipe)>, j: nat, v: real)
    requires j < |b|
    ensures CountAbove(b, v) == (if b[j].0 > v then 1 else 0) + CountAbove(b[..j] + b[j + 1..], v)
  {
    var pre, rest := b[..j], b[j + 1..];
    var mid := [b[j]] + rest;
    assert b == pre + mid;
    CountAboveSplit(pre, mid, v);
    assert mid[1..] == rest;
    CountAboveSplit(pre, rest, v);
  }

  lemma {:induction false} CountAboveSplit(a: seq<(real, Recipe)>, b: seq<(real, Recipe)>, v: real)
    ensures CountAbove(a + b, v) == CountAbove(a, v) + CountAbove(b, v)
    decreases |a|
  {
    if a == [] {
      assert a + b == b;
    } else {
      assert (a + b)[0] == a[0];
      assert (a + b)[1..] == a[1..] + b;
      CountAboveSplit(a[1..], b, v);
    }
  }

  /** In a list sorted highest first, only the entries before index `j` can
      rank above entry `j`. */
  lemma {:induction false} CountAboveSorted(s: seq<(real, Recipe)>, j: nat)
    requires SortedDesc(s) && j < |s|
    ensures CountAbove(s, s[j].0) <= j
    decreases |s|
  {
    if j == 0 {
      NoneAbove(s, s[0].0);
    } else {
      assert SortedDesc(s[1..]);
      assert s[1..][j - 1] == s[j];
      CountAboveSorted(s[1..], j - 1);
    }
  }

  lemma {:induction false} NoneAbove(s: seq<(real, Recipe)>, v: real)
    requires forall i :: 0 <= i < |s| ==> s[i].0 <= v
    ensures CountAbove(s, v) == 0
    decreases |s|
  {
    if s != [] {
      NoneAbove(s[1..], v);
    }
  }

  /** A pick from the ranked list is a permitted candidate whose id was not
      used, and fewer than five entries of the slot's `scored` list rank
      strictly above it: it is one of the five best, up to ties. */
  lemma BestPickSound(recipes: seq<Recipe>, req: Request, draws: Draws, k: nat, used: set<string>, r: Recipe)
    requires k < |Categories|
    requires SlotPick(recipes, req, draws, k, used) == Best(r)
    ensures r in recipes && r.id !in used
    ensures Passes(r, Permitted(req.forbidden))
    ensures exists e :: (e in Ranked(recipes, req, draws, k, used) && e.1 == r
      && CountAbove(Ranked(recipes, req, draws, k, used), e.0) < 5)
  {
    var unsorted := Ranked(recipes, req, draws, k, used);
    var scored := SortDesc(unsorted);
    var top := scored[..Min(5, |scored|)];
    SortDescSorted(unsorted);
    var j := draws.pick(k, |top|) % |top|;
    assert top[j] == scored[j] && scored[j].1 == r;
    TopPick(unsorted, j);
    var e := scored[j];
    assert e in unsorted && CountAbove(unsorted, e.0) < 5;
    RankedRecipes(recipes, req, draws, k, used, e);
  }

  /** An entry of the ranked list holds an unused, permitted candidate. */
  lemma RankedRecipes(recipes: seq<Recipe>, req: Request, draws: Draws, k: nat, used: set<string>,
                      e: (real, Recipe))
    requires k < |Categories|
    requires e in Ranked(recipes, req, draws, k, used)
    ensures e.1 in recipes && e.1.id !in used && Passes(e.1, Permitted(req.forbidden))
  {
    var cat := Categories[k];
    var cands := Candidates(recipes, cat, req.forbidden);
    var unsorted := Ranked(recipes, req, draws, k, used);
    var i :| 0 <= i < |unsorted| && unsorted[i] == e;
    ScoredEntries(cands, used, req.mood, req.goal, SlotTarget(req.target, cat), draws, k);
    assert RecipesOf(unsorted)[i] == e.1;
    FilterMember(cands, Unused(used), e.1);
    CandidateMember(recipes, cat, req.forbidden, e.1);
  }

  /** An entry among the first five of the sorted list comes from the
      unsorted list, and fewer than five entries of it rank strictly
      higher. */
  lemma TopPick(unsorted: seq<(real, Recipe)>, j: nat)
    requires j < Min(5, |unsorted|)
    ensures |SortDesc(unsorted)| == |unsorted|
    ensures SortDesc(unsorted)[j] in unsorted
    ensures CountAbove(unsorted, SortDesc(unsorted)[j].0) < 5
  {
    var scored := SortDesc(unsorted);
    SortDescSorted(unsorted);
    var e := scored[j];
    assert e in multiset(unsorted);
    CountAboveSorted(scored, j);
    CountAbovePermutation(unsorted, scored, e.0);
  }

  /** A slot gets no meal exactly when nothing was ranked and every recipe's
      id is already used. */
  lemma SlotSkippedIff(recipes: seq<Recipe>, req: Request, draws: Draws, k: nat, used: set<string>)
    requires k < |Categories|
    ensures SlotPick(recipes, req, draws, k, used) == NoPick
      <==> Ranked(recipes, req, draws, k, used) == [] && forall r :: r in recipes ==> r.id in used
  {
    var available := Filter(recipes, Unused(used));
    if Ranked(recipes, req, draws, k, used) == [] {
      if available != [] {
        FilterMember(recipes, Unused(used), available[0]);
      } else {
        forall r | r in recipes ensures r.id in used {
          FilterMember(recipes, Unused(used), r);
        }
      }
    }
  }

  /** The last-resort pick happens only when nothing was ranked; it takes an
      unused recipe, whatever its tags and ingredients. */
  lemma FallbackPickSound(recipes: seq<Recipe>, req: Request, draws: Draws, k: nat, used: set<string>, r: Recipe)
    requires k < |Categories|
    requires SlotPick(recipes, req, draws, k, used) == Fallback(r)
    ensures Ranked(recipes, req, draws, k, used) == []
    ensures r in recipes && r.id !in used
  {
    var available := Filter(recipes, Unused(used));
    FilterMember(recipes, Unused(used), available[draws.pick(k, |available|) % |available|]);
  }
}
