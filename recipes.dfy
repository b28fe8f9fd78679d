/** Recipe records and what a single recipe knows how to do: add nutrition
    vectors, score its tags against a mood and a goal, test its ingredient
    labels against forbidden terms, and take a crowd rating. */
module Recipes {
  import opened Seqs
  import opened Text

  /** Calories, protein, carbohydrates and fats of a dish. */
  datatype Nutrition = Nutrition(calories: real, protein: real, carbs: real, fats: real)
  {
    /** `Nutrition.__add__` */
    function Add(other: Nutrition): Nutrition
    {
      Nutrition(calories + other.calories, protein + other.protein,
                carbs + other.carbs, fats + other.fats)
    }
  }

  /** `Nutrition(0, 0, 0, 0)` */
  const Zero := Nutrition(0.0, 0.0, 0.0, 0.0)

  lemma AddCommutative(a: Nutrition, b: Nutrition)
    ensures a.Add(b) == b.Add(a)
  {
  }

  lemma AddAssociative(a: Nutrition, b: Nutrition, c: Nutrition)
    ensures a.Add(b).Add(c) == a.Add(b.Add(c))
  {
  }

  lemma ZeroIsIdentity(a: Nutrition)
    ensures a.Add(Zero) == a && Zero.Add(a) == a
  {
  }

  // ---------------------------------------------------------------------
  // Tag affinity
  // ---------------------------------------------------------------------

  /** Points the lower-cased tags `lts` earn one by one: 3 for each that
      occurs in the lower-cased mood `m`, 4 for each that occurs in the
      lower-cased goal `g`. */
  function TagHits(lts: seq<string>, m: string, g: string): (n: nat)
    ensures n <= 7 * |lts|
    decreases |lts|
  {
    if lts == [] then 0
    else
      var lt := lts[|lts| - 1];
      TagHits(lts[..|lts| - 1], m, g)
        + (if Contains(m, lt) then 3 else 0) + (if Contains(g, lt) then 4 else 0)
  }

  /** How many of `lts` occur in `s`. */
  function CountIn(lts: seq<string>, s: string): (n: nat)
    ensures n <= |lts|
    decreases |lts|
  {
    if lts == [] then 0
    else CountIn(lts[..|lts| - 1], s) + (if Contains(s, lts[|lts| - 1]) then 1 else 0)
  }

  /** The per-tag points are 3 per tag inside the mood plus 4 per tag inside
      the goal, whatever the order of the tags. */
  lemma {:induction false} TagHitsCounts(lts: seq<string>, m: string, g: string)
    ensures TagHits(lts, m, g) == 3 * CountIn(lts, m) + 4 * CountIn(lts, g)
    decreases |lts|
  {
    if lts != [] {
      TagHitsCounts(lts[..|lts| - 1], m, g);
    }
  }

  /** The two goal bonuses: +2 for a `light` tag when the goal mentions
      `lose`, +2 for a `hearty` tag when it mentions `gain` or `muscle`. */
  function GoalBonus(lts: seq<string>, g: string): (n: nat)
    ensures n <= 4
  {
    (if "light" in lts && Contains(g, "lose") then 2 else 0)
      + (if "hearty" in lts && (Contains(g, "gain") || Contains(g, "muscle")) then 2 else 0)
  }

  /** The value of `Recipe.matches(mood, goal)` for a recipe with `tags`. */
  function TagScore(tags: seq<string>, mood: string, goal: string): (n: nat)
    ensures n <= 7 * |tags| + 4
  {
    var lts := LowerAll(tags);
    TagHits(lts, Lower(mood), Lower(goal)) + GoalBonus(lts, Lower(goal))
  }

  /** The tag score ignores the letter case of mood and goal. */
  lemma TagScoreIgnoresCase(tags: seq<string>, mood: string, goal: string)
    ensures TagScore(tags, Lower(mood), Lower(goal)) == TagScore(tags, mood, goal)
  {
    LowerIdempotent(mood);
    LowerIdempotent(goal);
  }

  // ---------------------------------------------------------------------
  // Forbidden ingredients
  // ---------------------------------------------------------------------

  /** The labels of an ingredient table, in insertion order (`dict.keys()`). */
  function Labels(ingredients: seq<(string, real)>): (ls: seq<string>)
    ensures |ls| == |ingredients|
    ensures forall i :: 0 <= i < |ingredients| ==> ls[i] == ingredients[i].0
    decreases |ingredients|
  {
    if ingredients == [] then [] else [ingredients[0].0] + Labels(ingredients[1..])
  }

  /** What `Recipe.contains_forbidden(forbidden)` answers for a recipe whose
      ingredient labels are `labels`: some term that is not blank occurs,
      lower-cased, in the lower-cased labels joined by single spaces. */
  predicate ForbiddenIn(labels: seq<string>, forbidden: seq<string>)
  {
    exists f :: f in forbidden && Strip(f) != "" && Contains(Lower(Join(labels, " ")), Lower(f))
  }

  /** An empty list forbids nothing, and blank terms never count. */
  lemma ForbiddenBlankTerms(labels: seq<string>, forbidden: seq<string>)
    requires forall f :: f in forbidden ==> Strip(f) == ""
    ensures !ForbiddenIn(labels, forbidden)
  {
  }

  /** `[f.strip().lower() for f in forbidden if f.strip()]`: the terms the
      planner passes on, in order, with the blank ones dropped. */
  function NormalizeTerms(fs: seq<string>): (ts: seq<string>)
    ensures |ts| <= |fs|
    decreases |fs|
  {
    if fs == [] then []
    else
      var f := fs[|fs| - 1];
      var rest := NormalizeTerms(fs[..|fs| - 1]);
      if Strip(f) != "" then rest + [Lower(Strip(f))] else rest
  }

  /** The normalized terms are the stripped, lower-cased terms that are not
      blank. */
  lemma {:induction false} NormalizedTerms(fs: seq<string>)
    ensures forall t :: t in NormalizeTerms(fs) <==> exists f :: f in fs && Strip(f) != "" && t == Lower(Strip(f))
    decreases |fs|
  {
    if fs != [] {
      var init := fs[..|fs| - 1];
      assert fs == init + [fs[|fs| - 1]];
      NormalizedTerms(init);
    }
  }

  /** Normalized terms are not blank, and stripping or lower-casing them
      again changes nothing. */
  lemma NormalizedTermsClean(fs: seq<string>)
    ensures forall t :: t in NormalizeTerms(fs) ==> t != "" && Strip(t) == t && Lower(t) == t
  {
    NormalizedTerms(fs);
    forall t | t in NormalizeTerms(fs) ensures t != "" && Strip(t) == t && Lower(t) == t {
      var f :| f in fs && Strip(f) != "" && t == Lower(Strip(f));
      assert |t| == |Strip(f)|;
      StripLower(Strip(f));
      StripIdempotent(f);
      LowerIdempotent(Strip(f));
    }
  }

  /** The planner rejects a recipe exactly when some term of the caller's
      list, stripped of surrounding white space and not blank, occurs in
      its labels, ignoring case. */
  lemma NormalizedForbidden(labels: seq<string>, fs: seq<string>)
    ensures ForbiddenIn(labels, NormalizeTerms(fs))
      <==> exists f :: f in fs && Strip(f) != "" && Contains(Lower(Join(labels, " ")), Lower(Strip(f)))
  {
    NormalizedTerms(fs);
    NormalizedTermsClean(fs);
    var text := Lower(Join(labels, " "));
    if exists f :: f in fs && Strip(f) != "" && Contains(text, Lower(Strip(f))) {
      var f :| f in fs && Strip(f) != "" && Contains(text, Lower(Strip(f)));
      var t := Lower(Strip(f));
      assert t in NormalizeTerms(fs);
      assert Strip(t) != "" && Contains(text, Lower(t));
    }
  }

  /** Stripping a term first only widens what it forbids: a recipe the raw
      term rejects, the stripped term rejects too. */
  lemma NormalizeWidens(labels: seq<string>, fs: seq<string>)
    requires ForbiddenIn(labels, fs)
    ensures ForbiddenIn(labels, NormalizeTerms(fs))
  {
    var text := Lower(Join(labels, " "));
    var f :| f in fs && Strip(f) != "" && Contains(text, Lower(f));
    assert Contains(Lower(f), Lower(Strip(f))) by {
      StripIsTrimmedSlice(f);
      var i, j :| 0 <= i <= j <= |f| && Strip(f) == f[i..j];
      LowerSlice(f, i, j);
      assert OccursAt(Lower(f), Lower(Strip(f)), i);
      ContainsIff(Lower(f), Lower(Strip(f)));
    }
    assert Contains(text, Lower(Strip(f))) by {
      ContainsTransitive(text, Lower(f), Lower(Strip(f)));
    }
    NormalizedForbidden(labels, fs);
  }

  /** A term that occurs, ignoring case, in one of the labels is found. */
  lemma ForbiddenLabelHit(labels: seq<string>, forbidden: seq<string>, k: nat, f: string)
    requires k < |labels| && f in forbidden && Strip(f) != ""
    requires Contains(Lower(labels[k]), Lower(f))
    ensures ForbiddenIn(labels, forbidden)
  {
    JoinContainsPiece(labels, " ", k);
    ContainsLower(Join(labels, " "), labels[k]);
    ContainsTransitive(Lower(Join(labels, " ")), Lower(labels[k]), Lower(f));
  }

  /** The test runs over the joined text, not label by label: a term can be
      found across the space between two labels although no single label
      holds it. */
  lemma ForbiddenAcrossLabels()
    ensures ForbiddenIn(["ab", "cd"], ["b c"])
    ensures !Contains("ab", "b c") && !Contains("cd", "b c")
  {
    SpanningHit();
    ContainsTooLong("ab", "b c");
    ContainsTooLong("cd", "b c");
  }

  lemma SpanningHit()
    ensures ForbiddenIn(["ab", "cd"], ["b c"])
  {
    var text := Lower(Join(["ab", "cd"], " "));
    assert text == "ab cd" by {
      assert Join(["cd"], " ") == "cd";
      assert Join(["ab", "cd"], " ") == "ab cd";
      LowerFixed("ab cd");
    }
    assert Lower("b c") == "b c" by {
      LowerFixed("b c");
    }
    assert Strip("b c") != "" by {
      StripEmptyIff("b c");
      assert !IsSpace("b c"[0]);
    }
    assert Contains(text, "b c") by {
      assert OccursAt("ab cd", "b c", 1);
      ContainsIff("ab cd", "b c");
    }
  }

  /** A term is matched literally: the word form `яйце` (egg) is not found
      in the label `яйця (2 шт)` (eggs, 2 pcs), but is found in
      `яйце (1 шт)`. */
  lemma ForbiddenIsLiteral()
    ensures !ForbiddenIn(["яйця (2 шт)"], ["яйце"])
    ensures ForbiddenIn(["яйце (1 шт)"], ["яйце"])
  {
    EggsNotForbidden();
    EggForbidden();
  }

  lemma EggsNotForbidden()
    ensures !ForbiddenIn(["яйця (2 шт)"], ["яйце"])
  {
    var egg := "яйце";
    assert Lower(egg) == egg by { LowerFixed(egg); }
    var eggs := "яйця (2 шт)";
    assert Lower(Join([eggs], " ")) == eggs by { LowerFixed(eggs); }
    EggsHoldNoEgg();
  }

  lemma EggForbidden()
    ensures ForbiddenIn(["яйце (1 шт)"], ["яйце"])
  {
    var egg := "яйце";
    EggWord();
    var one := "яйце (1 шт)";
    assert Lower(Join([one], " ")) == one by { LowerFixed(one); }
    assert egg <= one;
  }

  lemma EggWord()
    ensures Lower("яйце") == "яйце" && Strip("яйце") == "яйце"
  {
    LowerFixed("яйце");
    assert LeadingSpaces("яйце") == 0 && TrailingSpaces("яйце") == 0;
  }

  lemma EggsHoldNoEgg()
    ensures !Contains("яйця (2 шт)", "яйце")
  {
    var s := "яйця (2 шт)";
    var p := "яйце";
    ContainsIff(s, p);
    forall i | 0 <= i <= |s| ensures !OccursAt(s, p, i) {
      if i == 0 {
        assert s[0..][3] == s[3] != p[3];
      } else if i == 3 {
        assert s[3..][1] == s[4] != p[1];
      } else if i + 4 <= |s| {
        assert s[i..][0] == s[i] != p[0];
      }
    }
  }

  // ---------------------------------------------------------------------
  // Rating
  // ---------------------------------------------------------------------

  /** The rating after one more vote `value` on `rating` over `votes` votes. */
  function RatingAfter(rating: real, votes: nat, value: real): real
  {
    (rating * votes as real + value) / (votes + 1) as real
  }

  /** `(rating, votes)` after the votes `vs`, in order, starting from
      `(rating, votes)`. */
  function Replay(rating: real, votes: nat, vs: seq<real>): (real, nat)
    decreases |vs|
  {
    if vs == [] then (rating, votes)
    else Replay(RatingAfter(rating, votes, vs[0]), votes + 1, vs[1..])
  }

  function Sum(vs: seq<real>): real
    decreases |vs|
  {
    if vs == [] then 0.0 else vs[0] + Sum(vs[1..])
  }

  /** Each vote adds one to the count and its value to `rating * votes`. */
  lemma {:induction false} ReplayTotal(rating: real, votes: nat, vs: seq<real>)
    ensures Replay(rating, votes, vs).1 == votes + |vs|
    ensures Replay(rating, votes, vs).0 * (votes + |vs|) as real == rating * votes as real + Sum(vs)
    decreases |vs|
  {
    if vs != [] {
      var r1 := RatingAfter(rating, votes, vs[0]);
      assert r1 * (votes + 1) as real == rating * votes as real + vs[0];
      ReplayTotal(r1, votes + 1, vs[1..]);
    }
  }

  /** From a fresh recipe, the rating after the votes `vs` is their mean. */
  lemma ReplayMean(vs: seq<real>)
    requires |vs| > 0
    ensures Replay(0.0, 0, vs) == (Sum(vs) / |vs| as real, |vs|)
  {
    ReplayTotal(0.0, 0, vs);
    var r := Replay(0.0, 0, vs).0;
    var n := |vs| as real;
    assert r * n == Sum(vs);
    assert r == (r * n) / n;
  }

  lemma {:induction false} SumSplit(a: seq<real>, b: seq<real>)
    ensures Sum(a + b) == Sum(a) + Sum(b)
    decreases |a|
  {
    if a == [] {
      assert a + b == b;
    } else {
      assert (a + b)[0] == a[0];
      assert (a + b)[1..] == a[1..] + b;
      SumSplit(a[1..], b);
    }
  }

  /** Taking out the entry at `j` takes its value out of the sum. */
  lemma SumRemove(b: seq<real>, j: nat)
    requires j < |b|
    ensures Sum(b) == b[j] + Sum(b[..j] + b[j + 1..])
  {
    var pre, rest := b[..j], b[j + 1..];
    var mid := [b[j]] + rest;
    assert b == pre + mid;
    SumSplit(pre, mid);
    assert mid[1..] == rest;
    assert Sum(mid) == b[j] + Sum(rest);
    SumSplit(pre, rest);
  }

  lemma {:induction false} SumPermutation(a: seq<real>, b: seq<real>)
    requires multiset(a) == multiset(b)
    ensures Sum(a) == Sum(b)
    decreases |a|
  {
    if a == [] {
      assert |b| == |multiset(b)| == 0;
    } else {
      assert a[0] in multiset(b);
      var j := IndexOf(b, a[0]);
      PermutationTail(a, b, j);
      SumPermutation(a[1..], b[..j] + b[j + 1..]);
      SumRemove(b, j);
    }
  }

  /** The rating of a fresh recipe depends on the multiset of votes it got,
      not on their order. */
  lemma ReplayOrderFree(vs: seq<real>, ws: seq<real>)
    requires multiset(vs) == multiset(ws)
    ensures Replay(0.0, 0, vs) == Replay(0.0, 0, ws)
  {
    assert |vs| == |multiset(vs)| == |multiset(ws)| == |ws|;
    if |vs| > 0 {
      ReplayMean(vs);
      ReplayMean(ws);
      SumPermutation(vs, ws);
    }
  }

  /** Three votes 4, 5 and 3 on a fresh recipe, in any order, give rating 4
      over 3 votes. */
  lemma ThreeVotes(vs: seq<real>)
    requires multiset(vs) == multiset{4.0, 5.0, 3.0}
    ensures Replay(0.0, 0, vs) == (4.0, 3)
  {
    ReplayOrderFree(vs, [4.0, 5.0, 3.0]);
    ReplayMean([4.0, 5.0, 3.0]);
  }

  // ---------------------------------------------------------------------
  // The recipe object
  // ---------------------------------------------------------------------

  /** A catalog recipe. Everything but the rating accumulator is fixed once
      the recipe is created. */
  class Recipe {
    const id: string
    const nameUk: string
    const tags: seq<string>
    /** The ingredient table: label (with its unit) to quantity, in order. */
    const ingredients: seq<(string, real)>
    const nutrition: Nutrition
    const stepsUk: seq<string>
    const image: string
    var rating: real
    var votes: nat

    constructor (id: string, nameUk: string, tags: seq<string>,
                 ingredients: seq<(string, real)>, nutrition: Nutrition,
                 stepsUk: seq<string>, image: string,
                 rating: real := 0.0, votes: nat := 0)
      ensures this.id == id && this.nameUk == nameUk && this.tags == tags
      ensures this.ingredients == ingredients && this.nutrition == nutrition
      ensures this.stepsUk == stepsUk && this.image == image
      ensures this.rating == rating && this.votes == votes
    {
      this.id := id;
      this.nameUk := nameUk;
      this.tags := tags;
      this.ingredients := ingredients;
      this.nutrition := nutrition;
      this.stepsUk := stepsUk;
      this.image := image;
      this.rating := rating;
      this.votes := votes;
    }

    /** `Recipe.matches`: the tag-affinity score for a mood and a goal. */
    method Matches(mood: string, goal: string) returns (score: nat)
      ensures score == TagScore(tags, mood, goal)
    {
      score := 0;
      var m := Lower(mood);
      var g := Lower(goal);
      var tagLowers := LowerAll(tags);
      var i := 0;
      while i < |tagLowers|
        invariant 0 <= i <= |tagLowers|
        invariant score == TagHits(tagLowers[..i], m, g)
      {
        var lt := tagLowers[i];
        assert tagLowers[..i + 1][..i] == tagLowers[..i];
        if Contains(m, lt) {
          score := score + 3;
        }
        if Contains(g, lt) {
          score := score + 4;
        }
        i := i + 1;
      }
      assert tagLowers[..i] == tagLowers;
      if "light" in tagLowers && Contains(g, "lose") {
        score := score + 2;
      }
      if "hearty" in tagLowers && (Contains(g, "gain") || Contains(g, "muscle")) {
        score := score + 2;
      }
    }

    /** `Recipe.contains_forbidden`: does a forbidden term occur in the
      ingredient labels? */
    method ContainsForbidden(forbidden: seq<string>) returns (found: bool)
      ensures found == ForbiddenIn(Labels(ingredients), forbidden)
    {
      if |forbidden| == 0 {
        return false;
      }
      var lowerKeys := Lower(Join(Labels(ingredients), " "));
      var i := 0;
      while i < |forbidden|
        invariant 0 <= i <= |forbidden|
        invariant forall j :: 0 <= j < i ==>
          Strip(forbidden[j]) == "" || !Contains(lowerKeys, Lower(forbidden[j]))
      {
        var f := forbidden[i];
        if Strip(f) == "" {
          i := i + 1;
          continue;
        }
        if Contains(lowerKeys, Lower(f)) {
          return true;
        }
        i := i + 1;
      }
      return false;
    }

    /** `Recipe.add_rating`: fold one more vote into the running mean. */
    method AddRating(value: real)
      modifies this
      ensures votes == old(votes) + 1
      ensures rating == RatingAfter(old(rating), old(votes), value)
    {
      var total := rating * votes as real;
      votes := votes + 1;
      total := total + value;
      rating := total / votes as real;
    }
  }
}
