/** The non-rendering logic of the dashboard page (src/app/dashboard/page.tsx):
    reconciling the selected day's progress record with its meals, the week
    window, the quality label and the calorie figures. */
module Dashboard {
  import opened Types
  import opened JsMath
  import opened NutritionCalculator
  import opened Storage

  function MealNutrition(m: MealEntry): NutritionInfo
  {
    m.totalNutrition
  }

  /** The page's `reduce` over the day's meals: field-wise sums, unrounded. */
  function DayTotal(meals: seq<MealEntry>): NutritionInfo
  {
    SumBy(meals, MealNutrition)
  }

  /** No meals give all zeros, one more meal adds its nutrition, and the
      order of the meals does not matter. */
  lemma DayTotalProperties(meals: seq<MealEntry>, m: MealEntry, other: seq<MealEntry>)
    ensures DayTotal([]) == NutritionInfo(0.0, 0.0, 0.0, 0.0, 0.0, 0.0, 0.0)
    ensures DayTotal(meals + [m]) == Add(DayTotal(meals), m.totalNutrition)
    ensures multiset(meals) == multiset(other) ==> DayTotal(meals) == DayTotal(other)
  {
    assert (meals + [m])[..|meals + [m]| - 1] == meals;
    if multiset(meals) == multiset(other) {
      SumByPermutation(meals, other, MealNutrition);
    }
  }

  /** `profile ? calculateCalorieGoal(profile) : 2000`. */
  function CaloriesGoalFor(profile: Option<UserProfile>): (goal: real)
    ensures profile.None? ==> goal == 2000.0
    ensures profile.Some? ==> goal == CalculateCalorieGoal(profile.value) as real
  {
    if profile.Some? then CalculateCalorieGoal(profile.value) as real else 2000.0
  }

  /** The record loadDashboardData shows, and whether it writes it back. */
  datatype Reconciled = Reconciled(record: DailyProgress, write: bool)

  /** The reconciliation in loadDashboardData: a new record when none is
      stored; the stored one, with consumed calories, nutrition and meals
      overwritten, when its calories differ from the meals' sum; the stored
      one untouched otherwise. */
  function Reconcile(date: int, todaysMeals: seq<MealEntry>, existing: Option<DailyProgress>, profile: Option<UserProfile>): (r: Reconciled)
    ensures r.write <==> existing.None? || existing.value.caloriesConsumed != DayTotal(todaysMeals).calories
    ensures r.write ==> (r.record.caloriesConsumed == DayTotal(todaysMeals).calories
      && r.record.nutrition == DayTotal(todaysMeals) && r.record.meals == todaysMeals)
    ensures !r.write ==> r.record == existing.value
    ensures existing.None? ==> (r.record.date == date && r.record.caloriesGoal == CaloriesGoalFor(profile)
      && r.record.activitiesPerformed.None?)
    ensures existing.Some? ==> (r.record.date == existing.value.date
      && r.record.caloriesGoal == existing.value.caloriesGoal
      && r.record.activitiesPerformed == existing.value.activitiesPerformed)
  {
    var total := DayTotal(todaysMeals);
    if existing.None? then
      Reconciled(DailyProgress(date, total.calories, CaloriesGoalFor(profile), total, todaysMeals, None), true)
    else if existing.value.caloriesConsumed != total.calories then
      Reconciled(existing.value.(caloriesConsumed := total.calories, nutrition := total, meals := todaysMeals), true)
    else
      Reconciled(existing.value, false)
  }

  /** After the reconciliation the store holds a record of the day whose
      consumed calories are the meals' sum, unless 90 newer records push it
      out. `existing` is the first stored record of the day, if any. */
  lemma DayRecordMatchesMeals(all: seq<DailyProgress>, date: int, todaysMeals: seq<MealEntry>,
                              existing: Option<DailyProgress>, profile: Option<UserProfile>)
    requires DistinctDates(all)
    requires existing.None? <==> forall i :: 0 <= i < |all| ==> all[i].date != date
    requires existing.Some? ==> existing.value in all && existing.value.date == date
    requires NewerCount(all, date) < 90
    ensures var r := Reconcile(date, todaysMeals, existing, profile);
      var stored := if r.write then SavedProgress(all, r.record) else all;
      exists x :: x in stored && x.date == date && x.caloriesConsumed == DayTotal(todaysMeals).calories
  {
    var r := Reconcile(date, todaysMeals, existing, profile);
    if r.write {
      SavedProgressKeepsNew(all, r.record);
      assert r.record in SavedProgress(all, r.record);
    } else {
      assert existing.value in all;
    }
  }

  /** `new Date(d).getDay()` for a day number, in UTC: 1970-01-01 was a
      Thursday (4), Sunday is 0. */
  function Weekday(d: int): (w: int)
    ensures 0 <= w < 7
  {
    (d + 4) % 7
  }

  /** The day minus its weekday. */
  function WeekStart(d: int): int
  {
    d - Weekday(d)
  }

  /** The week start is the Sunday on or before the day, so the day falls in
      the seven-day window of getWeeklyProgress. */
  lemma WeekStartProperties(d: int)
    ensures Weekday(WeekStart(d)) == 0
    ensures WeekStart(d) <= d <= WeekStart(d) + 6
    ensures InWeek(WeekStart(d), d)
    ensures WeekStart(WeekStart(d)) == WeekStart(d)
  {
    var w := Weekday(d);
    assert (d - w + 4) % 7 == 0 by {
      assert d + 4 == 7 * ((d + 4) / 7) + w;
      assert d - w + 4 == 7 * ((d + 4) / 7);
    }
  }

  /** loadDashboardData on the store, with the selected day passed in. It
      returns the profile, the day's record as shown, and the week's records. */
  method LoadDashboardData(store: StorageService, selectedDate: int)
    returns (profile: Option<UserProfile>, progress: DailyProgress, weekly: seq<DailyProgress>)
    modifies store
    ensures profile == old(store.profile)
    ensures var r := Reconcile(selectedDate, old(store.GetMealEntriesByDate(selectedDate)),
                               old(store.GetDailyProgressByDate(selectedDate)), old(store.profile));
      && progress == r.record
      && store.State() == if r.write then old(store.State()).(progress := SavedProgress(old(store.progress), r.record))
                          else old(store.State())
    ensures weekly == store.GetWeeklyProgress(WeekStart(selectedDate))
  {
    profile := store.profile;
    var todaysMeals := store.GetMealEntriesByDate(selectedDate);
    var existingProgress := store.GetDailyProgressByDate(selectedDate);
    var totalNutrition := DayTotal(todaysMeals);
    var caloriesGoal := CaloriesGoalFor(profile);
    progress := if existingProgress.Some? then existingProgress.value
      else DailyProgress(selectedDate, totalNutrition.calories, caloriesGoal, totalNutrition, todaysMeals, None);
    if existingProgress.None? || existingProgress.value.caloriesConsumed != totalNutrition.calories {
      progress := progress.(caloriesConsumed := totalNutrition.calories, nutrition := totalNutrition, meals := todaysMeals);
      store.SaveDailyProgress(progress);
    }
    weekly := store.GetWeeklyProgress(WeekStart(selectedDate));
  }

  datatype QualityLabel = Excellent | Good | Fair | NeedsImprovement

  /** getQualityScoreLabel, without its text and colour classes. */
  function QualityScoreLabel(score: int): (l: QualityLabel)
    ensures l == Excellent <==> score >= 85
    ensures l == Good <==> 70 <= score < 85
    ensures l == Fair <==> 50 <= score < 70
    ensures l == NeedsImprovement <==> score < 50
  {
    if score >= 85 then Excellent
    else if score >= 70 then Good
    else if score >= 50 then Fair
    else NeedsImprovement
  }

  function LabelRank(l: QualityLabel): int
  {
    match l
    case NeedsImprovement => 0
    case Fair => 1
    case Good => 2
    case Excellent => 3
  }

  /** A higher score never gets a lower label. */
  lemma QualityLabelMonotone(a: int, b: int)
    requires a <= b
    ensures LabelRank(QualityScoreLabel(a)) <= LabelRank(QualityScoreLabel(b))
  {
  }

  /** `caloriesRemaining`: what is left of the goal, never negative; 0
      without a record. */
  function CaloriesRemaining(day: Option<DailyProgress>): (r: real)
    ensures r >= 0.0
    ensures day.Some? ==> r >= day.value.caloriesGoal - day.value.caloriesConsumed
    ensures day.Some? && day.value.caloriesConsumed <= day.value.caloriesGoal ==>
      r == day.value.caloriesGoal - day.value.caloriesConsumed
    ensures day.Some? && day.value.caloriesConsumed >= day.value.caloriesGoal ==> r == 0.0
    ensures day.None? ==> r == 0.0
  {
    if day.Some? then Max(0.0, day.value.caloriesGoal - day.value.caloriesConsumed) else 0.0
  }

  /** `caloriesProgress`: the percentage of the goal consumed, capped at 100;
      0 without a record. */
  function CaloriesProgress(day: Option<DailyProgress>): (r: real)
    requires day.Some? ==> day.value.caloriesGoal != 0.0
    ensures r <= 100.0
    ensures day.None? ==> r == 0.0
    ensures day.Some? && day.value.caloriesGoal > 0.0 && day.value.caloriesConsumed >= 0.0 ==> r >= 0.0
    ensures day.Some? && day.value.caloriesGoal > 0.0 ==>
      (r == 100.0 <==> day.value.caloriesConsumed >= day.value.caloriesGoal)
    ensures day.Some? && day.value.caloriesGoal > 0.0 && day.value.caloriesConsumed < day.value.caloriesGoal ==>
      r == day.value.caloriesConsumed / day.value.caloriesGoal * 100.0
  {
    if day.Some? then Min(100.0, (day.value.caloriesConsumed / day.value.caloriesGoal) * 100.0) else 0.0
  }
}
