/** Nutrition arithmetic (src/lib/nutritionCalculator.ts): portion scaling,
    meal totals, Mifflin-St Jeor energy needs, macro goals, goal progress and
    the 0..100 quality score. */
module NutritionCalculator {
  import opened Types
  import opened JsMath

  const ZeroNutrition := NutritionInfo(0.0, 0.0, 0.0, 0.0, 0.0, 0.0, 0.0)

  /** `x` is a whole number. */
  predicate IsWhole(x: real)
  {
    x.Floor as real == x
  }

  /** `x` is a multiple of one tenth. */
  predicate IsTenths(x: real)
  {
    IsWhole(x * 10.0)
  }

  // ------------------------------------------------------ portion scaling

  /** `r` is a whole number within half a unit of `exact`. */
  predicate NearWhole(r: real, exact: real)
  {
    IsWhole(r) && exact - 1.0 / 2.0 < r <= exact + 1.0 / 2.0
  }

  /** `r` is a multiple of 0.1 within half a tenth of `exact`. */
  predicate NearTenth(r: real, exact: real)
  {
    IsTenths(r) && exact - 1.0 / 20.0 < r <= exact + 1.0 / 20.0
  }

  lemma RoundTenthNear(x: real)
    ensures NearTenth(RoundTenth(x), x)
  {
    var k := Round(x * 10.0);
    assert RoundTenth(x) * 10.0 == k as real;
  }

  /** A per-100 g value scaled to `grams` and rounded to a whole number. */
  function ScaleWhole(per100g: real, grams: real): (r: real)
    ensures NearWhole(r, per100g * grams / 100.0)
  {
    assert per100g * (grams / 100.0) == per100g * grams / 100.0;
    Round(per100g * (grams / 100.0)) as real
  }

  /** A per-100 g value scaled to `grams` and rounded to one decimal. */
  function ScaleTenth(per100g: real, grams: real): (r: real)
    ensures NearTenth(r, per100g * grams / 100.0)
  {
    assert per100g * (grams / 100.0) == per100g * grams / 100.0;
    RoundTenthNear(per100g * (grams / 100.0));
    RoundTenth(per100g * (grams / 100.0))
  }

  /** calculateNutrition: per-100 g values scaled to `grams`; calories and
      sodium rounded to integers, the other five to one decimal. Each value
      lies within its rounding step of the exact scaled value and on its grid. */
  function CalculateNutrition(food: FoodItem, grams: real): (n: NutritionInfo)
    ensures NearWhole(n.calories, food.caloriesPer100g * grams / 100.0)
    ensures NearTenth(n.protein, food.protein * grams / 100.0)
    ensures NearTenth(n.carbs, food.carbs * grams / 100.0)
    ensures NearTenth(n.fat, food.fat * grams / 100.0)
    ensures NearTenth(n.fiber, food.fiber * grams / 100.0)
    ensures NearTenth(n.sugar, food.sugar * grams / 100.0)
    ensures NearWhole(n.sodium, food.sodium * grams / 100.0)
  {
    NutritionInfo(
      ScaleWhole(food.caloriesPer100g, grams),
      ScaleTenth(food.protein, grams),
      ScaleTenth(food.carbs, grams),
      ScaleTenth(food.fat, grams),
      ScaleTenth(food.fiber, grams),
      ScaleTenth(food.sugar, grams),
      ScaleWhole(food.sodium, grams))
  }

  /** A portion of 0 g has no nutrients. */
  lemma CalculateNutritionZeroGrams(food: FoodItem)
    ensures CalculateNutrition(food, 0.0) == ZeroNutrition
  {
  }

  /** A non-negative per-100 g value scaled by a non-negative weight stays
      non-negative after either rounding. */
  lemma ScaleNonNegative(per100g: real, grams: real)
    requires per100g >= 0.0 && grams >= 0.0
    ensures ScaleWhole(per100g, grams) >= 0.0 && ScaleTenth(per100g, grams) >= 0.0
  {
    assert per100g * grams >= 0.0;
    var t := ScaleTenth(per100g, grams);
    assert (t * 10.0).Floor >= 0;
  }

  /** A non-negative food scaled by a non-negative weight has non-negative values. */
  lemma CalculateNutritionNonNegative(food: FoodItem, grams: real)
    requires food.caloriesPer100g >= 0.0 && food.protein >= 0.0 && food.carbs >= 0.0
    requires food.fat >= 0.0 && food.fiber >= 0.0 && food.sugar >= 0.0 && food.sodium >= 0.0
    requires grams >= 0.0
    ensures var n := CalculateNutrition(food, grams);
      n.calories >= 0.0 && n.protein >= 0.0 && n.carbs >= 0.0 && n.fat >= 0.0
      && n.fiber >= 0.0 && n.sugar >= 0.0 && n.sodium >= 0.0
  {
    ScaleNonNegative(food.caloriesPer100g, grams);
    ScaleNonNegative(food.protein, grams);
    ScaleNonNegative(food.carbs, grams);
    ScaleNonNegative(food.fat, grams);
    ScaleNonNegative(food.fiber, grams);
    ScaleNonNegative(food.sugar, grams);
    ScaleNonNegative(food.sodium, grams);
  }

  // ---------------------------------------------------------------- sums

  /** Component-wise addition without rounding. */
  function Add(a: NutritionInfo, b: NutritionInfo): NutritionInfo
  {
    NutritionInfo(a.calories + b.calories, a.protein + b.protein, a.carbs + b.carbs,
      a.fat + b.fat, a.fiber + b.fiber, a.sugar + b.sugar, a.sodium + b.sodium)
  }

  /** `items.reduce((total, x) => add(total, f(x)), zero)`: the unrounded
      component-wise sum used by the analysis aggregate and the dashboard. */
  function SumBy<T>(items: seq<T>, f: T -> NutritionInfo): NutritionInfo
  {
    if |items| == 0 then ZeroNutrition
    else Add(SumBy(items[..|items| - 1], f), f(items[|items| - 1]))
  }

  lemma {:induction false} SumByConcat<T>(a: seq<T>, b: seq<T>, f: T -> NutritionInfo)
    ensures SumBy(a + b, f) == Add(SumBy(a, f), SumBy(b, f))
  {
    if |b| == 0 {
      assert a + b == a;
    } else {
      var b' := b[..|b| - 1];
      assert (a + b)[..|a + b| - 1] == a + b';
      SumByConcat(a, b', f);
    }
  }

  lemma SumBySnoc<T>(s: seq<T>, x: T, f: T -> NutritionInfo)
    ensures SumBy(s + [x], f) == Add(SumBy(s, f), f(x))
  {
    assert (s + [x])[..|s + [x]| - 1] == s;
  }

  lemma AddSwap(a: NutritionInfo, b: NutritionInfo, c: NutritionInfo)
    ensures Add(Add(a, b), c) == Add(Add(a, c), b)
  {
  }

  /** Taking one item out of a sum and adding it back last. */
  lemma SumByRemove<T>(b: seq<T>, j: int, f: T -> NutritionInfo)
    requires 0 <= j < |b|
    ensures SumBy(b, f) == Add(SumBy(b[..j] + b[j + 1..], f), f(b[j]))
  {
    var front, x, back := b[..j], b[j], b[j + 1..];
    assert SumBy(b, f) == Add(SumBy(front + [x], f), SumBy(back, f)) by {
      assert front + [x] == b[..j + 1];
      assert b == (front + [x]) + back;
      SumByConcat(front + [x], back, f);
    }
    assert SumBy(front + [x], f) == Add(SumBy(front, f), f(x)) by {
      SumBySnoc(front, x, f);
    }
    assert SumBy(front + back, f) == Add(SumBy(front, f), SumBy(back, f)) by {
      SumByConcat(front, back, f);
    }
    AddSwap(SumBy(front, f), f(x), SumBy(back, f));
  }

  /** The unrounded sum does not depend on the order of the items. */
  lemma {:induction false} SumByPermutation<T>(a: seq<T>, b: seq<T>, f: T -> NutritionInfo)
    requires multiset(a) == multiset(b)
    ensures SumBy(a, f) == SumBy(b, f)
    decreases |a|
  {
    if |a| == 0 {
      assert |b| == |multiset(b)| == 0;
    } else {
      var x := a[|a| - 1];
      var a' := a[..|a| - 1];
      assert a == a' + [x];
      assert x in multiset(b);
      var j :| 0 <= j < |b| && b[j] == x;
      var b' := b[..j] + b[j + 1..];
      assert b == b[..j] + [x] + b[j + 1..];
      calc {
        multiset(a');
        multiset(a') + multiset{x} - multiset{x};
        { assert multiset(a) == multiset(a') + multiset{x}; }
        multiset(b) - multiset{x};
        { assert multiset(b) == multiset(b') + multiset{x}; }
        multiset(b');
      }
      SumByPermutation(a', b', f);
      SumByRemove(b, j, f);
    }
  }

  /** One step of calculateTotalNutrition: calories and sodium added as they
      are, the other five added and rounded to one decimal. */
  function AddRounded(total: NutritionInfo, n: NutritionInfo): NutritionInfo
  {
    NutritionInfo(
      total.calories + n.calories,
      RoundTenth(total.protein + n.protein),
      RoundTenth(total.carbs + n.carbs),
      RoundTenth(total.fat + n.fat),
      RoundTenth(total.fiber + n.fiber),
      RoundTenth(total.sugar + n.sugar),
      total.sodium + n.sodium)
  }

  /** calculateTotalNutrition: a left fold of AddRounded from all zeros. */
  function CalculateTotalNutrition(list: seq<NutritionInfo>): NutritionInfo
  {
    if |list| == 0 then ZeroNutrition
    else AddRounded(CalculateTotalNutrition(list[..|list| - 1]), list[|list| - 1])
  }

  /** The five decimal fields rounded to one decimal. */
  function RoundMacros(n: NutritionInfo): NutritionInfo
  {
    n.(protein := RoundTenth(n.protein), carbs := RoundTenth(n.carbs), fat := RoundTenth(n.fat),
       fiber := RoundTenth(n.fiber), sugar := RoundTenth(n.sugar))
  }

  lemma RoundTenthAfterTenths(t: real, v: real)
    requires IsTenths(t)
    ensures RoundTenth(t + v) == t + RoundTenth(v)
  {
    var k := (t * 10.0).Floor;
    assert (t + v) * 10.0 == k as real + v * 10.0;
    RoundShift(k, v * 10.0);
  }

  lemma TenthsAdd(a: real, b: real)
    requires IsTenths(a) && IsTenths(b)
    ensures IsTenths(a + b)
  {
    var m, n := (a * 10.0).Floor, (b * 10.0).Floor;
    assert (a + b) * 10.0 == (m + n) as real;
  }

  /** Because every running total is already a multiple of 0.1, rounding the
      running total is the same as rounding each item: the meal total is the
      exact sum of the items with their decimal fields rounded to 0.1. */
  lemma {:induction false} TotalIsSumOfRoundedItems(list: seq<NutritionInfo>)
    ensures CalculateTotalNutrition(list) == SumBy(list, RoundMacros)
    ensures var t := CalculateTotalNutrition(list);
      IsTenths(t.protein) && IsTenths(t.carbs) && IsTenths(t.fat) && IsTenths(t.fiber) && IsTenths(t.sugar)
  {
    if |list| == 0 {
      assert IsWhole(0.0);
    } else {
      var prefix := list[..|list| - 1];
      var n := list[|list| - 1];
      TotalIsSumOfRoundedItems(prefix);
      var t := CalculateTotalNutrition(prefix);
      RoundTenthAfterTenths(t.protein, n.protein);
      RoundTenthAfterTenths(t.carbs, n.carbs);
      RoundTenthAfterTenths(t.fat, n.fat);
      RoundTenthAfterTenths(t.fiber, n.fiber);
      RoundTenthAfterTenths(t.sugar, n.sugar);
      RoundTenthNear(t.protein + n.protein);
      RoundTenthNear(t.carbs + n.carbs);
      RoundTenthNear(t.fat + n.fat);
      RoundTenthNear(t.fiber + n.fiber);
      RoundTenthNear(t.sugar + n.sugar);
    }
  }

  /** calculateTotalNutrition([]) is all zeros, its calories and sodium are
      the exact sums of the inputs, and the whole total is independent of the
      order of the list. */
  lemma TotalNutritionProperties(a: seq<NutritionInfo>, b: seq<NutritionInfo>)
    requires multiset(a) == multiset(b)
    ensures CalculateTotalNutrition([]) == ZeroNutrition
    ensures CalculateTotalNutrition(a).calories == SumBy(a, (n: NutritionInfo) => n).calories
    ensures CalculateTotalNutrition(a).sodium == SumBy(a, (n: NutritionInfo) => n).sodium
    ensures CalculateTotalNutrition(a) == CalculateTotalNutrition(b)
  {
    TotalIsSumOfRoundedItems(a);
    TotalIsSumOfRoundedItems(b);
    SumByPermutation(a, b, RoundMacros);
    CaloriesAndSodiumUnrounded(a);
  }

  lemma {:induction false} CaloriesAndSodiumUnrounded(a: seq<NutritionInfo>)
    ensures SumBy(a, RoundMacros).calories == SumBy(a, (n: NutritionInfo) => n).calories
    ensures SumBy(a, RoundMacros).sodium == SumBy(a, (n: NutritionInfo) => n).sodium
  {
    if |a| > 0 {
      CaloriesAndSodiumUnrounded(a[..|a| - 1]);
    }
  }

  /** When the inputs are already at one-decimal granularity (as everything
      calculateNutrition returns is), the total is the exact sum. */
  lemma {:induction false} TotalOfTenthsIsExact(list: seq<NutritionInfo>)
    requires forall i :: 0 <= i < |list| ==> RoundMacros(list[i]) == list[i]
    ensures CalculateTotalNutrition(list) == SumBy(list, (n: NutritionInfo) => n)
  {
    TotalIsSumOfRoundedItems(list);
    SameSum(list);
  }

  lemma {:induction false} SameSum(list: seq<NutritionInfo>)
    requires forall i :: 0 <= i < |list| ==> RoundMacros(list[i]) == list[i]
    ensures SumBy(list, RoundMacros) == SumBy(list, (n: NutritionInfo) => n)
  {
    if |list| > 0 {
      SameSum(list[..|list| - 1]);
    }
  }

  /** What calculateNutrition returns is already on the 0.1 grid, so a total
      of such portions is exact. */
  lemma ScaledIsTenths(food: FoodItem, grams: real)
    ensures RoundMacros(CalculateNutrition(food, grams)) == CalculateNutrition(food, grams)
  {
    var n := CalculateNutrition(food, grams);
    TenthsRoundToThemselves(n.protein);
    TenthsRoundToThemselves(n.carbs);
    TenthsRoundToThemselves(n.fat);
    TenthsRoundToThemselves(n.fiber);
    TenthsRoundToThemselves(n.sugar);
  }

  lemma TenthsRoundToThemselves(x: real)
    requires IsTenths(x)
    ensures RoundTenth(x) == x
  {
    RoundOfInt((x * 10.0).Floor);
  }

  // ------------------------------------------------------- energy needs

  /** calculateBMR: Mifflin-St Jeor. */
  function CalculateBmr(p: UserProfile): real
  {
    if p.gender == Male then 10.0 * p.weight + 6.25 * p.height - 5.0 * p.age + 5.0
    else 10.0 * p.weight + 6.25 * p.height - 5.0 * p.age - 161.0
  }

  /** The male formula exceeds the female one by exactly 166 kcal. */
  lemma BmrGenderGap(p: UserProfile)
    ensures CalculateBmr(p.(gender := Male)) - CalculateBmr(p.(gender := Female)) == 166.0
  {
  }

  /** BMR grows with weight and height and falls with age. */
  lemma BmrMonotone(p: UserProfile, q: UserProfile)
    requires p.gender == q.gender
    requires p.weight <= q.weight && p.height <= q.height && p.age >= q.age
    ensures CalculateBmr(p) <= CalculateBmr(q)
  {
  }

  function ActivityMultiplier(level: ActivityLevel): real
  {
    match level
    case Sedentary => 1.2
    case LightlyActive => 1.375
    case ModeratelyActive => 1.55
    case VeryActive => 1.725
  }

  /** Position of an activity level from sedentary (0) to very active (3). */
  function LevelRank(level: ActivityLevel): nat
  {
    match level
    case Sedentary => 0
    case LightlyActive => 1
    case ModeratelyActive => 2
    case VeryActive => 3
  }

  /** calculateTDEE */
  function CalculateTdee(p: UserProfile): int
  {
    Round(CalculateBmr(p) * ActivityMultiplier(p.activityLevel))
  }

  /** For a non-negative BMR, TDEE never decreases as the activity level rises. */
  lemma TdeeMonotoneInActivity(p: UserProfile, lower: ActivityLevel, higher: ActivityLevel)
    requires CalculateBmr(p) >= 0.0
    requires LevelRank(lower) <= LevelRank(higher)
    ensures CalculateTdee(p.(activityLevel := lower)) <= CalculateTdee(p.(activityLevel := higher))
  {
    var b := CalculateBmr(p);
    assert ActivityMultiplier(lower) <= ActivityMultiplier(higher);
    assert b * ActivityMultiplier(lower) <= b * ActivityMultiplier(higher);
    RoundMonotone(b * ActivityMultiplier(lower), b * ActivityMultiplier(higher));
  }

  /** calculateCalorieGoal */
  function CalculateCalorieGoal(p: UserProfile): int
  {
    var tdee := CalculateTdee(p);
    match p.goal
    case Lose => Round(tdee as real - 500.0)
    case Gain => Round(tdee as real + 500.0)
    case Maintain => Round(tdee as real)
  }

  /** The goal is TDEE - 500 to lose, TDEE to maintain and TDEE + 500 to gain. */
  lemma CalorieGoalOffsets(p: UserProfile)
    ensures CalculateCalorieGoal(p.(goal := Lose)) == CalculateTdee(p) - 500
    ensures CalculateCalorieGoal(p.(goal := Maintain)) == CalculateTdee(p)
    ensures CalculateCalorieGoal(p.(goal := Gain)) == CalculateTdee(p) + 500
  {
    var t := CalculateTdee(p);
    assert CalculateTdee(p.(goal := Lose)) == t;
    assert CalculateTdee(p.(goal := Maintain)) == t;
    assert CalculateTdee(p.(goal := Gain)) == t;
    RoundOfInt(t - 500);
    RoundOfInt(t);
    RoundOfInt(t + 500);
  }

  /** The reference profile: a 30-year-old male of 70 kg and 175 cm. */
  const ExampleProfile := UserProfile("u", "Example", 30.0, Male, 70.0, 175.0, ModeratelyActive,
    Maintain, 0.0, En, 0)

  /** The worked example: BMR 1648.75, TDEE 2556 and goals 2056 / 2556 / 3056. */
  lemma EnergyExample()
    ensures CalculateBmr(ExampleProfile) == 1648.75
    ensures CalculateTdee(ExampleProfile) == 2556
    ensures CalculateCalorieGoal(ExampleProfile.(goal := Lose)) == 2056
    ensures CalculateCalorieGoal(ExampleProfile) == 2556
    ensures CalculateCalorieGoal(ExampleProfile.(goal := Gain)) == 3056
  {
    assert CalculateBmr(ExampleProfile) * 1.55 == 2555.5625;
    CalorieGoalOffsets(ExampleProfile);
  }

  // ---------------------------------------------------------- macro goals

  /** calculateMacroGoals: 25 % protein and 45 % carbs at 4 kcal/g, 30 % fat
      at 9 kcal/g, each as a band from 80 % to 120 %; fiber 14 g per 1000
      kcal; sodium 2300 mg. */
  function CalculateMacroGoals(dailyCalories: real): NutritionGoals
  {
    var proteinCalories := dailyCalories * 0.25;
    var carbCalories := dailyCalories * 0.45;
    var fatCalories := dailyCalories * 0.30;
    NutritionGoals(
      dailyCalories,
      Range(Round(proteinCalories * 0.8 / 4.0) as real, Round(proteinCalories * 1.2 / 4.0) as real),
      Range(Round(carbCalories * 0.8 / 4.0) as real, Round(carbCalories * 1.2 / 4.0) as real),
      Range(Round(fatCalories * 0.8 / 9.0) as real, Round(fatCalories * 1.2 / 9.0) as real),
      Round(dailyCalories / 1000.0 * 14.0) as real,
      2300.0)
  }

  /** The goals echo the calories, fix sodium at 2300 mg, and for a
      non-negative intake every band has min <= max. */
  lemma MacroGoalsShape(c: real)
    ensures var g := CalculateMacroGoals(c);
      g.calories == c && g.sodium == 2300.0 && g.fiber == Round(c / 1000.0 * 14.0) as real
    ensures c >= 0.0 ==> var g := CalculateMacroGoals(c);
      g.protein.min <= g.protein.max && g.carbs.min <= g.carbs.max && g.fat.min <= g.fat.max
  {
    if c >= 0.0 {
      RoundMonotone(c * 0.25 * 0.8 / 4.0, c * 0.25 * 1.2 / 4.0);
      RoundMonotone(c * 0.45 * 0.8 / 4.0, c * 0.45 * 1.2 / 4.0);
      RoundMonotone(c * 0.30 * 0.8 / 9.0, c * 0.30 * 1.2 / 9.0);
    }
  }

  /** At 2000 kcal the protein band is 100..150 g, carbs 180..270 g, fat 53..80 g, fiber 28 g. */
  lemma MacroGoalsExample()
    ensures var g := CalculateMacroGoals(2000.0);
      g.protein == Range(100.0, 150.0) && g.carbs == Range(180.0, 270.0)
      && g.fat == Range(53.0, 80.0) && g.fiber == 28.0
  {
    assert 2000.0 * 0.30 * 0.8 / 9.0 == 480.0 / 9.0;
  }

  // -------------------------------------------------------- goal progress

  datatype GoalProgress = GoalProgress(calories: int, protein: int, carbs: int, fat: int, fiber: int, sodium: int)

  function Midpoint(r: Range): real
  {
    (r.min + r.max) / 2.0
  }

  /** Every divisor of calculateGoalProgress is non-zero. */
  predicate GoalsDivisible(goals: NutritionGoals)
  {
    goals.calories != 0.0 && Midpoint(goals.protein) != 0.0 && Midpoint(goals.carbs) != 0.0
    && Midpoint(goals.fat) != 0.0 && goals.fiber != 0.0 && goals.sodium != 0.0
  }

  /** calculateGoalProgress: each intake as a rounded, unclamped percentage of
      its target; the target of a macro band is its midpoint. */
  function CalculateGoalProgress(consumed: NutritionInfo, goals: NutritionGoals): GoalProgress
    requires GoalsDivisible(goals)
  {
    GoalProgress(
      Round(consumed.calories / goals.calories * 100.0),
      Round(consumed.protein / Midpoint(goals.protein) * 100.0),
      Round(consumed.carbs / Midpoint(goals.carbs) * 100.0),
      Round(consumed.fat / Midpoint(goals.fat) * 100.0),
      Round(consumed.fiber / goals.fiber * 100.0),
      Round(consumed.sodium / goals.sodium * 100.0))
  }

  /** Each percentage is within half a percent of the exact ratio to its
      target (calories, fiber and sodium against the single target, the
      macros against the midpoint of their band). */
  lemma GoalProgressNearRatio(consumed: NutritionInfo, goals: NutritionGoals)
    requires GoalsDivisible(goals)
    ensures var p := CalculateGoalProgress(consumed, goals);
      && Abs(p.calories as real - 100.0 * consumed.calories / goals.calories) <= 1.0 / 2.0
      && Abs(p.protein as real - 100.0 * consumed.protein / Midpoint(goals.protein)) <= 1.0 / 2.0
      && Abs(p.carbs as real - 100.0 * consumed.carbs / Midpoint(goals.carbs)) <= 1.0 / 2.0
      && Abs(p.fat as real - 100.0 * consumed.fat / Midpoint(goals.fat)) <= 1.0 / 2.0
      && Abs(p.fiber as real - 100.0 * consumed.fiber / goals.fiber) <= 1.0 / 2.0
      && Abs(p.sodium as real - 100.0 * consumed.sodium / goals.sodium) <= 1.0 / 2.0
  {
    assert consumed.calories / goals.calories * 100.0 == 100.0 * consumed.calories / goals.calories;
    assert consumed.protein / Midpoint(goals.protein) * 100.0 == 100.0 * consumed.protein / Midpoint(goals.protein);
    assert consumed.carbs / Midpoint(goals.carbs) * 100.0 == 100.0 * consumed.carbs / Midpoint(goals.carbs);
    assert consumed.fat / Midpoint(goals.fat) * 100.0 == 100.0 * consumed.fat / Midpoint(goals.fat);
    assert consumed.fiber / goals.fiber * 100.0 == 100.0 * consumed.fiber / goals.fiber;
    assert consumed.sodium / goals.sodium * 100.0 == 100.0 * consumed.sodium / goals.sodium;
  }

  /** Intake exactly on every target (macro midpoints, calories, fiber and
      sodium) reads as 100 % everywhere; twice the calories reads as 200 %,
      so nothing is clamped. */
  lemma GoalProgressAtTargets(goals: NutritionGoals, sugar: real)
    requires GoalsDivisible(goals)
    ensures var on := NutritionInfo(goals.calories, Midpoint(goals.protein), Midpoint(goals.carbs),
        Midpoint(goals.fat), goals.fiber, sugar, goals.sodium);
      CalculateGoalProgress(on, goals) == GoalProgress(100, 100, 100, 100, 100, 100)
      && CalculateGoalProgress(on.(calories := 2.0 * goals.calories), goals).calories == 200
  {
    assert goals.calories / goals.calories == 1.0;
    assert Midpoint(goals.protein) / Midpoint(goals.protein) == 1.0;
    assert Midpoint(goals.carbs) / Midpoint(goals.carbs) == 1.0;
    assert Midpoint(goals.fat) / Midpoint(goals.fat) == 1.0;
    assert goals.fiber / goals.fiber == 1.0;
    assert goals.sodium / goals.sodium == 1.0;
    assert 2.0 * goals.calories / goals.calories * 100.0 == 200.0;
  }

  // -------------------------------------------------------- quality score

  /** The keys of calculateGoalProgress's result, in their object order. */
  datatype Nutrient = CaloriesKey | ProteinKey | CarbsKey | FatKey | FiberKey | SodiumKey

  /** `idealRanges` of getNutritionQualityScore. Every progress key has one. */
  function IdealRange(key: Nutrient): Range
  {
    match key
    case CaloriesKey => Range(90.0, 110.0)
    case ProteinKey => Range(80.0, 120.0)
    case CarbsKey => Range(80.0, 120.0)
    case FatKey => Range(80.0, 120.0)
    case FiberKey => Range(100.0, 150.0)
    case SodiumKey => Range(0.0, 80.0)
  }

  /** `Object.entries(progress)`. */
  function ProgressEntries(p: GoalProgress): (e: seq<(Nutrient, int)>)
    ensures |e| == 6
  {
    [(CaloriesKey, p.calories), (ProteinKey, p.protein), (CarbsKey, p.carbs),
     (FatKey, p.fat), (FiberKey, p.fiber), (SodiumKey, p.sodium)]
  }

  /** Score of one component: 100 inside the ideal band; below it the
      fraction of the band's minimum reached; above it 50 points lost per
      band-maximum of excess; sodium loses one point per percent above 80. */
  function ComponentScore(key: Nutrient, value: int): real
  {
    var range := IdealRange(key);
    var v := value as real;
    if key == SodiumKey then
      (if v <= range.max then 100.0 else Max(0.0, 100.0 - (v - range.max)))
    else if v >= range.min && v <= range.max then 100.0
    else if v < range.min then Max(0.0, v / range.min * 100.0)
    else Max(0.0, 100.0 - (v - range.max) / range.max * 50.0)
  }

  lemma ComponentScoreBounds(key: Nutrient, value: int)
    ensures 0.0 <= ComponentScore(key, value) <= 100.0
  {
    var range := IdealRange(key);
    var v := value as real;
    if key != SodiumKey && v < range.min {
      assert v / range.min * 100.0 < 100.0;
    }
  }

  /** Sum of the component scores of `entries`. */
  function SumScores(entries: seq<(Nutrient, int)>): real
  {
    if |entries| == 0 then 0.0
    else SumScores(entries[..|entries| - 1]) + ComponentScore(entries[|entries| - 1].0, entries[|entries| - 1].1)
  }

  lemma {:induction false} SumScoresBounds(entries: seq<(Nutrient, int)>)
    ensures 0.0 <= SumScores(entries) <= 100.0 * |entries| as real
  {
    if |entries| > 0 {
      var last := entries[|entries| - 1];
      SumScoresBounds(entries[..|entries| - 1]);
      ComponentScoreBounds(last.0, last.1);
    }
  }

  /** Every entry lies in its ideal band (sodium at most 80 %). */
  predicate AllIdeal(entries: seq<(Nutrient, int)>)
  {
    forall i :: 0 <= i < |entries| ==>
      IdealRange(entries[i].0).min <= entries[i].1 as real <= IdealRange(entries[i].0).max
  }

  lemma {:induction false} SumScoresAllIdeal(entries: seq<(Nutrient, int)>)
    requires AllIdeal(entries)
    ensures SumScores(entries) == 100.0 * |entries| as real
  {
    if |entries| > 0 {
      SumScoresAllIdeal(entries[..|entries| - 1]);
    }
  }

  /** The score the loop of getNutritionQualityScore computes: the rounded
      mean of the six component scores. */
  function QualityScore(nutrition: NutritionInfo, goals: NutritionGoals): int
    requires GoalsDivisible(goals)
  {
    Round(SumScores(ProgressEntries(CalculateGoalProgress(nutrition, goals))) / 6.0)
  }

  /** The quality score is in 0..100, and is 100 when every percentage lies in
      its ideal band; in particular intake exactly on every target with no
      sodium scores 100. */
  lemma QualityScoreProperties(nutrition: NutritionInfo, goals: NutritionGoals)
    requires GoalsDivisible(goals)
    ensures 0 <= QualityScore(nutrition, goals) <= 100
    ensures AllIdeal(ProgressEntries(CalculateGoalProgress(nutrition, goals))) ==> QualityScore(nutrition, goals) == 100
    ensures var on := NutritionInfo(goals.calories, Midpoint(goals.protein), Midpoint(goals.carbs),
        Midpoint(goals.fat), goals.fiber, nutrition.sugar, 0.0);
      QualityScore(on, goals) == 100
  {
    var e := ProgressEntries(CalculateGoalProgress(nutrition, goals));
    SumScoresBounds(e);
    RoundMonotone(0.0, SumScores(e) / 6.0);
    RoundMonotone(SumScores(e) / 6.0, 100.0);
    if AllIdeal(e) {
      SumScoresAllIdeal(e);
    }
    var on := NutritionInfo(goals.calories, Midpoint(goals.protein), Midpoint(goals.carbs),
      Midpoint(goals.fat), goals.fiber, nutrition.sugar, 0.0);
    GoalProgressAtTargets(goals, nutrition.sugar);
    var eOn := ProgressEntries(CalculateGoalProgress(on, goals));
    assert CalculateGoalProgress(on, goals) == GoalProgress(100, 100, 100, 100, 100, 0);
    assert AllIdeal(eOn);
    SumScoresAllIdeal(eOn);
  }

  /** getNutritionQualityScore: the `forEach` over the progress entries that
      accumulates `totalScore` and `components`. */
  method GetNutritionQualityScore(nutrition: NutritionInfo, goals: NutritionGoals) returns (score: int)
    requires GoalsDivisible(goals)
    ensures score == QualityScore(nutrition, goals)
    ensures 0 <= score <= 100
  {
    var progress := CalculateGoalProgress(nutrition, goals);
    var entries := ProgressEntries(progress);
    var totalScore := 0.0;
    var components := 0;
    var i := 0;
    while i < |entries|
      invariant 0 <= i <= |entries|
      invariant components == i
      invariant totalScore == SumScores(entries[..i])
    {
      var (key, value) := entries[i];
      var s := ComponentScore(key, value);
      assert entries[..i + 1][..i] == entries[..i];
      totalScore := totalScore + s;
      components := components + 1;
      i := i + 1;
    }
    assert entries[..i] == entries;
    score := if components > 0 then Round(totalScore / components as real) else 0;
    QualityScoreProperties(nutrition, goals);
  }

  // ------------------------------------------------------------- helpers

  /** calculateCaloriesToBurn: the excess over the goal, never negative. */
  function CalculateCaloriesToBurn(consumed: real, goal: real): (r: real)
    ensures r >= 0.0
    ensures consumed >= goal ==> r == consumed - goal
    ensures consumed <= goal ==> r == 0.0
  {
    Max(0.0, consumed - goal)
  }

  /** calculateExerciseCalories: MET x weight x hours, rounded. */
  function CalculateExerciseCalories(activityMet: real, weightKg: real, durationMinutes: real): int
  {
    Round(activityMet * weightKg * (durationMinutes / 60.0))
  }

  /** The estimate is within half a kilocalorie of MET x kg x minutes / 60,
      and non-negative for non-negative inputs. */
  lemma ExerciseCaloriesNearExact(activityMet: real, weightKg: real, durationMinutes: real)
    ensures var r := CalculateExerciseCalories(activityMet, weightKg, durationMinutes);
      Abs(r as real - activityMet * weightKg * durationMinutes / 60.0) <= 1.0 / 2.0
    ensures activityMet >= 0.0 && weightKg >= 0.0 && durationMinutes >= 0.0 ==>
      CalculateExerciseCalories(activityMet, weightKg, durationMinutes) >= 0
  {
    assert activityMet * weightKg * (durationMinutes / 60.0) == activityMet * weightKg * durationMinutes / 60.0;
    if activityMet >= 0.0 && weightKg >= 0.0 && durationMinutes >= 0.0 {
      assert activityMet * weightKg >= 0.0;
      assert activityMet * weightKg * (durationMinutes / 60.0) >= 0.0;
    }
  }

  datatype ColorKind = CaloriesColor | MacroColor | SodiumColor

  datatype TextColor = Green | Yellow | Red

  /** Red is worst, green best. */
  function Severity(c: TextColor): nat
  {
    match c
    case Green => 0
    case Yellow => 1
    case Red => 2
  }

  /** getNutritionColor: green/yellow/red from the percentage of the goal. */
  function GetNutritionColor(value: real, goal: real, kind: ColorKind): TextColor
    requires goal != 0.0
  {
    var percentage := value / goal * 100.0;
    match kind
    case SodiumColor =>
      if percentage <= 50.0 then Green else if percentage <= 75.0 then Yellow else Red
    case CaloriesColor =>
      if 90.0 <= percentage <= 110.0 then Green
      else if 80.0 <= percentage <= 120.0 then Yellow else Red
    case MacroColor =>
      if 80.0 <= percentage <= 120.0 then Green
      else if 60.0 <= percentage <= 140.0 then Yellow else Red
  }

  /** Sodium is green up to half the goal and red beyond three quarters, and
      more sodium never gets a better colour; for calories and macros green
      means within 10 % and 20 % of the goal, and red means beyond 20 % and 40 %. */
  lemma NutritionColorProperties(v1: real, v2: real, goal: real)
    requires goal > 0.0
    ensures GetNutritionColor(v1, goal, SodiumColor) == Green <==> v1 / goal * 100.0 <= 50.0
    ensures GetNutritionColor(v1, goal, SodiumColor) == Red <==> v1 / goal * 100.0 > 75.0
    ensures v1 <= v2 ==> Severity(GetNutritionColor(v1, goal, SodiumColor)) <= Severity(GetNutritionColor(v2, goal, SodiumColor))
    ensures GetNutritionColor(v1, goal, CaloriesColor) == Green <==> 90.0 <= v1 / goal * 100.0 <= 110.0
    ensures GetNutritionColor(v1, goal, CaloriesColor) == Red <==> !(80.0 <= v1 / goal * 100.0 <= 120.0)
    ensures GetNutritionColor(v1, goal, MacroColor) == Green <==> 80.0 <= v1 / goal * 100.0 <= 120.0
    ensures GetNutritionColor(v1, goal, MacroColor) == Red <==> !(60.0 <= v1 / goal * 100.0 <= 140.0)
  {
    if v1 <= v2 {
      assert v1 / goal <= v2 / goal;
    }
  }

  /** getWaterIntakeRecommendation: 1 ml per kcal, at least 2 l. */
  function GetWaterIntakeRecommendation(dailyCalories: real): (ml: real)
    ensures ml >= 2000.0 && ml >= dailyCalories
    ensures ml == 2000.0 || ml == dailyCalories
  {
    Max(2000.0, dailyCalories)
  }
}
