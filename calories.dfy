/** The daily calorie target of a profile: the Mifflin-St Jeor basal
    metabolic rate with a floor of 1200 kcal, scaled by an activity
    multiplier and a goal modifier from fixed tables, then truncated. */
module Calories {
  import opened Text

  datatype Option<T> = None | Some(value: T)
  {
    /** `dict.get(key, default)` where `this` is what the key holds. */
    function GetOr(default: T): T
    {
      if Some? then value else default
    }
  }

  /** The profile dictionary: each key may be missing (`None`). */
  datatype Profile = Profile(
    age: Option<int>,
    sex: Option<string>,
    weightKg: Option<real>,
    heightCm: Option<real>,
    activity: Option<string>)

  const DefaultAge: int := 30
  const DefaultSex: string := "male"
  const DefaultWeightKg: real := 75.0
  const DefaultHeightCm: real := 175.0
  const DefaultActivity: string := "moderate"

  /** `DEFAULT_PROFILE` */
  const DefaultProfile := Profile(Some(DefaultAge), Some(DefaultSex), Some(DefaultWeightKg),
                                  Some(DefaultHeightCm), Some(DefaultActivity))

  const BmrFloor: real := 1200.0

  /** `ACTIVITY_MULTIPLIERS` */
  const ActivityMultipliers: map<string, real> := map[
    "sedentary" := 1.2,
    "office" := 1.25,
    "student" := 1.3,
    "light" := 1.375,
    "moderate" := 1.55,
    "daily-sport" := 1.65,
    "active" := 1.725,
    "extreme" := 1.9,
    "walk-many" := 1.35,
    "sport-twice" := 1.8,
    "sitting-stress" := 1.25,
    "poor-sleep" := 1.15]

  /** `GOAL_MODIFIERS` */
  const GoalModifiers: map<string, real> := map[
    "lose-weight" := 0.85,
    "maintain-weight" := 1.0,
    "gain-weight" := 1.15,
    "build-muscle" := 1.2,
    "healthier" := 0.98,
    "more-energy" := 1.02,
    "less-sugar" := 0.95,
    "cutting" := 0.8,
    "fast-muscle-gain" := 1.25,
    "better-sleep" := 0.97,
    "less-fat" := 0.94,
    "detox" := 0.9]

  /** `str(sex).lower().startswith('m')` */
  predicate MaleCoded(sex: string)
  {
    "m" <= Lower(sex)
  }

  /** The Mifflin-St Jeor equation: +5 for male-coded sex, -161 otherwise. */
  function MifflinStJeor(age: int, sex: string, weightKg: real, heightCm: real): real
  {
    10.0 * weightKg + 6.25 * heightCm - 5.0 * age as real
      + (if MaleCoded(sex) then 5.0 else -161.0)
  }

  /** The equation on the profile, each missing key taken from the default
      profile. */
  function RawBmr(p: Profile): real
  {
    MifflinStJeor(p.age.GetOr(DefaultAge), p.sex.GetOr(DefaultSex),
                  p.weightKg.GetOr(DefaultWeightKg), p.heightCm.GetOr(DefaultHeightCm))
  }

  /** `estimate_bmr`: the larger of the floor and the equation. */
  function EstimateBmr(p: Profile): (bmr: real)
    ensures bmr >= BmrFloor && bmr >= RawBmr(p)
    ensures bmr == BmrFloor || bmr == RawBmr(p)
  {
    if RawBmr(p) > BmrFloor then RawBmr(p) else BmrFloor
  }

  /** Male-coded sex adds exactly 166 kcal to the equation, all else equal;
      "Male", "man" and "m" are male-coded, "female", "other" and "" are
      not. */
  lemma SexCoding(age: int, weightKg: real, heightCm: real, male: string, other: string)
    requires MaleCoded(male) && !MaleCoded(other)
    ensures MifflinStJeor(age, male, weightKg, heightCm)
      == MifflinStJeor(age, other, weightKg, heightCm) + 166.0
    ensures MaleCoded("Male") && MaleCoded("man") && MaleCoded("m")
    ensures !MaleCoded("female") && !MaleCoded("other") && !MaleCoded("")
  {
    assert Lower("Male")[..1] == "m";
    assert Lower("man")[..1] == "m";
    assert Lower("m")[..1] == "m";
    assert Lower("female")[0] == 'f';
    assert Lower("other")[0] == 'o';
  }

  /** `ACTIVITY_MULTIPLIERS.get(activity, 1.55)` */
  function ActivityMultiplier(activity: string): (m: real)
    ensures 1.15 <= m <= 1.9
  {
    if activity in ActivityMultipliers then ActivityMultipliers[activity] else 1.55
  }

  /** `GOAL_MODIFIERS.get(goal, 1.0)` */
  function GoalModifier(goal: string): (g: real)
    ensures 0.8 <= g <= 1.25
  {
    if goal in GoalModifiers then GoalModifiers[goal] else 1.0
  }

  /** Python's `int(x)` on a float: truncation toward zero. */
  function Truncate(x: real): (n: int)
    ensures x >= 0.0 ==> n as real <= x < n as real + 1.0
    ensures x < 0.0 ==> n as real - 1.0 < x <= n as real
  {
    if x >= 0.0 then x.Floor else -((-x).Floor)
  }

  /** `daily_calorie_target` */
  function DailyCalorieTarget(p: Profile, goal: string): (target: int)
    ensures target >= 1104
  {
    var bmr := EstimateBmr(p);
    var multi := ActivityMultiplier(p.activity.GetOr(DefaultActivity));
    var base := bmr * multi;
    var goalMod := GoalModifier(goal);
    assert base >= 1380.0 by { Scale(bmr, BmrFloor, multi, 1.15); }
    assert base * goalMod >= 1104.0 by { Scale(base, 1380.0, goalMod, 0.8); }
    Truncate(base * goalMod)
  }

  /** Products of non-negative lower bounds are lower bounds of products. */
  lemma Scale(x: real, lo: real, y: real, ylo: real)
    requires 0.0 <= lo <= x && 0.0 <= ylo <= y
    ensures x * y >= lo * ylo
  {
    assert x * y >= lo * y;
  }

  /** An unknown or missing activity counts as `moderate`, whatever the
      goal. */
  lemma UnknownActivityDefault(p: Profile, goal: string)
    requires p.activity.None? || p.activity.value !in ActivityMultipliers
    ensures DailyCalorieTarget(p, goal) == DailyCalorieTarget(p.(activity := Some("moderate")), goal)
  {
    var q := p.(activity := Some("moderate"));
    assert EstimateBmr(q) == EstimateBmr(p) by { assert RawBmr(q) == RawBmr(p); }
    assert ActivityMultiplier(p.activity.GetOr(DefaultActivity)) == ActivityMultiplier("moderate") == 1.55;
  }

  /** An unknown goal counts as `maintain-weight`, whatever the profile. */
  lemma UnknownGoalDefault(p: Profile, goal: string)
    requires goal !in GoalModifiers
    ensures DailyCalorieTarget(p, goal) == DailyCalorieTarget(p, "maintain-weight")
  {
  }

  /** The default profile has a metabolic rate of 10 * 75 + 6.25 * 175 -
      5 * 30 + 5 = 1698.75 kcal, and with goal `maintain-weight` it gets
      2633 kcal: the product 1698.75 * 1.55 = 2633.0625 is truncated. A
      profile with no keys at all gets the same. */
  lemma DefaultTarget()
    ensures EstimateBmr(DefaultProfile) == 1698.75
    ensures DailyCalorieTarget(DefaultProfile, "maintain-weight") == 2633
    ensures DailyCalorieTarget(Profile(None, None, None, None, None), "maintain-weight") == 2633
  {
    assert MaleCoded("male") by { assert Lower("male")[..1] == "m"; }
  }

  /** The floor bounds the metabolic rate, not the target: a light profile
      with `poor-sleep` activity and the `cutting` goal gets 1200 * 1.15 *
      0.8 = 1104 kcal. */
  lemma TargetBelowFloor()
    ensures DailyCalorieTarget(Profile(Some(80), Some("female"), Some(40.0), Some(150.0),
                                       Some("poor-sleep")), "cutting") == 1104
  {
    assert !MaleCoded("female") by { assert Lower("female")[0] == 'f'; }
  }
}
