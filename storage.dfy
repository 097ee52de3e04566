/** The local store (src/lib/storage.ts): a `StorageService` object whose
    sections live in fields instead of localStorage keys. A section that was
    never written, or was removed, reads as its default: no profile, no
    meals, no progress records, the default settings, onboarding not done.
    Calendar dates are day numbers and timestamps are milliseconds, both
    counted from 1970-01-01 UTC. */
module Storage {
  import opened Types
  import opened JsMath
  import opened SeqUtils

  const MsPerDay: int := 86400000

  /** Number of progress records saveDailyProgress keeps. */
  const RetainedDays: nat := 90

  /** `new Date(timestamp).toISOString().split('T')[0]` as a day number. */
  function DayOf(timestamp: int): (d: int)
    ensures d * MsPerDay <= timestamp < d * MsPerDay + MsPerDay
  {
    timestamp / MsPerDay
  }

  // ------------------------------------------------------- partial updates

  /** `Partial<UserProfile>`: a present field overrides, an absent one keeps. */
  datatype ProfileUpdate = ProfileUpdate(
    id: Option<string>,
    name: Option<string>,
    age: Option<real>,
    gender: Option<Gender>,
    weight: Option<real>,
    height: Option<real>,
    activityLevel: Option<ActivityLevel>,
    goal: Option<Goal>,
    dailyCalorieGoal: Option<real>,
    preferredLanguage: Option<Language>,
    createdAt: Option<int>)

  /** `Partial<MealEntry>`; `image` and `notes` are optional fields, so an
      update may also set them to absent. */
  datatype MealUpdate = MealUpdate(
    id: Option<string>,
    userId: Option<string>,
    timestamp: Option<int>,
    mealType: Option<MealType>,
    foods: Option<seq<RecognizedFood>>,
    totalNutrition: Option<NutritionInfo>,
    image: Option<Option<string>>,
    notes: Option<Option<string>>)

  /** `Partial<AppSettings>`. */
  datatype SettingsUpdate = SettingsUpdate(
    language: Option<Language>,
    theme: Option<Theme>,
    notifications: Option<bool>,
    autoAnalysis: Option<bool>,
    saveToHistory: Option<bool>,
    shareData: Option<bool>)

  function Pick<T>(update: Option<T>, current: T): T
  {
    if update.Some? then update.value else current
  }

  /** `{ ...current, ...updates }` on a profile. */
  function MergeProfile(current: UserProfile, u: ProfileUpdate): (r: UserProfile)
    ensures r.id == (if u.id.Some? then u.id.value else current.id)
    ensures r.name == (if u.name.Some? then u.name.value else current.name)
    ensures r.age == (if u.age.Some? then u.age.value else current.age)
    ensures r.gender == (if u.gender.Some? then u.gender.value else current.gender)
    ensures r.weight == (if u.weight.Some? then u.weight.value else current.weight)
    ensures r.height == (if u.height.Some? then u.height.value else current.height)
    ensures r.activityLevel == (if u.activityLevel.Some? then u.activityLevel.value else current.activityLevel)
    ensures r.goal == (if u.goal.Some? then u.goal.value else current.goal)
    ensures r.dailyCalorieGoal == (if u.dailyCalorieGoal.Some? then u.dailyCalorieGoal.value else current.dailyCalorieGoal)
    ensures r.preferredLanguage == (if u.preferredLanguage.Some? then u.preferredLanguage.value else current.preferredLanguage)
    ensures r.createdAt == (if u.createdAt.Some? then u.createdAt.value else current.createdAt)
  {
    UserProfile(
      Pick(u.id, current.id), Pick(u.name, current.name), Pick(u.age, current.age),
      Pick(u.gender, current.gender), Pick(u.weight, current.weight), Pick(u.height, current.height),
      Pick(u.activityLevel, current.activityLevel), Pick(u.goal, current.goal),
      Pick(u.dailyCalorieGoal, current.dailyCalorieGoal),
      Pick(u.preferredLanguage, current.preferredLanguage), Pick(u.createdAt, current.createdAt))
  }

  /** `{ ...current, ...updates }` on a meal entry. */
  function MergeMeal(current: MealEntry, u: MealUpdate): (r: MealEntry)
    ensures r.id == (if u.id.Some? then u.id.value else current.id)
    ensures r.userId == (if u.userId.Some? then u.userId.value else current.userId)
    ensures r.timestamp == (if u.timestamp.Some? then u.timestamp.value else current.timestamp)
    ensures r.mealType == (if u.mealType.Some? then u.mealType.value else current.mealType)
    ensures r.foods == (if u.foods.Some? then u.foods.value else current.foods)
    ensures r.totalNutrition == (if u.totalNutrition.Some? then u.totalNutrition.value else current.totalNutrition)
    ensures r.image == (if u.image.Some? then u.image.value else current.image)
    ensures r.notes == (if u.notes.Some? then u.notes.value else current.notes)
  {
    MealEntry(
      Pick(u.id, current.id), Pick(u.userId, current.userId), Pick(u.timestamp, current.timestamp),
      Pick(u.mealType, current.mealType), Pick(u.foods, current.foods),
      Pick(u.totalNutrition, current.totalNutrition), Pick(u.image, current.image),
      Pick(u.notes, current.notes))
  }

  /** `{ ...current, ...updates }` on the settings. */
  function MergeSettings(current: AppSettings, u: SettingsUpdate): (r: AppSettings)
    ensures r.language == (if u.language.Some? then u.language.value else current.language)
    ensures r.theme == (if u.theme.Some? then u.theme.value else current.theme)
    ensures r.notifications == (if u.notifications.Some? then u.notifications.value else current.notifications)
    ensures r.autoAnalysis == (if u.autoAnalysis.Some? then u.autoAnalysis.value else current.autoAnalysis)
    ensures r.saveToHistory == (if u.saveToHistory.Some? then u.saveToHistory.value else current.saveToHistory)
    ensures r.shareData == (if u.shareData.Some? then u.shareData.value else current.shareData)
  {
    AppSettings(
      Pick(u.language, current.language), Pick(u.theme, current.theme),
      Pick(u.notifications, current.notifications), Pick(u.autoAnalysis, current.autoAnalysis),
      Pick(u.saveToHistory, current.saveToHistory), Pick(u.shareData, current.shareData))
  }

  const NoProfileUpdate := ProfileUpdate(None, None, None, None, None, None, None, None, None, None, None)
  const NoMealUpdate := MealUpdate(None, None, None, None, None, None, None, None)
  const NoSettingsUpdate := SettingsUpdate(None, None, None, None, None, None)

  /** Spreading an empty update changes nothing, and spreading the same
      update twice is spreading it once. */
  lemma MergeLaws(p: UserProfile, pu: ProfileUpdate, m: MealEntry, mu: MealUpdate, s: AppSettings, su: SettingsUpdate)
    ensures MergeProfile(p, NoProfileUpdate) == p
    ensures MergeProfile(MergeProfile(p, pu), pu) == MergeProfile(p, pu)
    ensures MergeMeal(m, NoMealUpdate) == m
    ensures MergeMeal(MergeMeal(m, mu), mu) == MergeMeal(m, mu)
    ensures MergeSettings(s, NoSettingsUpdate) == s
    ensures MergeSettings(MergeSettings(s, su), su) == MergeSettings(s, su)
  {
  }

  // -------------------------------------------------------------- settings

  /** The settings getAppSettings falls back to. */
  const DefaultSettings := AppSettings(En, System, true, true, true, false)

  /** getAppSettings: the stored settings, or the defaults when none are stored. */
  function SettingsOrDefault(stored: Option<AppSettings>): (r: AppSettings)
    ensures stored.None? ==> r == AppSettings(En, System, true, true, true, false)
    ensures stored.Some? ==> r == stored.value
  {
    if stored.Some? then stored.value else DefaultSettings
  }

  // ----------------------------------------------------------------- meals

  /** updateMealEntry's list: the first entry with id `entryId` merged with
      `u`, every other entry untouched. */
  function UpdatedMeals(meals: seq<MealEntry>, entryId: string, u: MealUpdate): (r: seq<MealEntry>)
    ensures |r| == |meals|
    ensures (forall j :: 0 <= j < |meals| ==> meals[j].id != entryId) ==> r == meals
    ensures forall i :: 0 <= i < |meals| && meals[i].id == entryId && (forall j :: 0 <= j < i ==> meals[j].id != entryId) ==>
      r == meals[i := MergeMeal(meals[i], u)]
  {
    var index := FindIndex(meals, (e: MealEntry) => e.id == entryId);
    if index == -1 then meals else meals[index := MergeMeal(meals[index], u)]
  }

  /** deleteMealEntry's list: every entry with id `entryId` removed, the
      others kept with their multiplicity and order. */
  function DeletedMeals(meals: seq<MealEntry>, entryId: string): (r: seq<MealEntry>)
    ensures forall e :: e in r <==> e in meals && e.id != entryId
    ensures forall e :: multiset(r)[e] == if e.id != entryId then multiset(meals)[e] else 0
    ensures IsSubsequence(r, meals)
  {
    var keep := (e: MealEntry) => e.id != entryId;
    FilterMultiplicity(meals, keep);
    Filter(meals, keep)
  }

  // -------------------------------------------------------- daily progress

  function ProgressDate(p: DailyProgress): int
  {
    p.date
  }

  /** The sort key of `(a, b) => date(b) - date(a)`: descending dates. */
  function DateDesc(p: DailyProgress): int
  {
    -p.date
  }

  predicate DistinctDates(s: seq<DailyProgress>)
  {
    forall i, j :: 0 <= i < j < |s| ==> s[i].date != s[j].date
  }

  /** Number of records in `s` dated after day `d`. */
  function NewerCount(s: seq<DailyProgress>, d: int): nat
  {
    CountKeyBelow(s, DateDesc, -d)
  }

  /** The first record with `p`'s date replaced by `p`, or `p` appended. */
  function Upsert(all: seq<DailyProgress>, p: DailyProgress): (r: seq<DailyProgress>)
    ensures p in r
    ensures forall x :: x in r ==> x == p || x in all
  {
    var index := FindIndex(all, (x: DailyProgress) => x.date == p.date);
    if index == -1 then all + [p]
    else
      assert all[index := p][index] == p;
      all[index := p]
  }

  /** saveDailyProgress's list: upsert, sort by descending date, keep 90. */
  function SavedProgress(all: seq<DailyProgress>, p: DailyProgress): seq<DailyProgress>
  {
    TakeAtMost(SortByKey(Upsert(all, p), DateDesc), RetainedDays)
  }

  /** What saveDailyProgress promises on any list: at most 90 records, by
      descending date, each the new record or one that was stored. */
  lemma SavedProgressShape(all: seq<DailyProgress>, p: DailyProgress)
    ensures var r := SavedProgress(all, p);
      && |r| <= 90
      && (forall i, j :: 0 <= i < j < |r| ==> r[i].date >= r[j].date)
      && forall x :: x in r ==> x == p || x in all
  {
    var u := Upsert(all, p);
    var sorted := SortByKey(u, DateDesc);
    var r := SavedProgress(all, p);
    forall i, j | 0 <= i < j < |r| ensures r[i].date >= r[j].date {
      assert r[i] == sorted[i] && r[j] == sorted[j];
      assert DateDesc(sorted[i]) <= DateDesc(sorted[j]);
    }
    forall x | x in r ensures x == p || x in all {
      assert x in multiset(sorted);
      assert x in u;
    }
  }

  lemma UpsertDistinct(all: seq<DailyProgress>, p: DailyProgress)
    requires DistinctDates(all)
    ensures DistinctDates(Upsert(all, p))
    ensures DistinctKeys(Upsert(all, p), DateDesc)
    ensures forall x :: x in Upsert(all, p) ==> x == p || (x in all && x.date != p.date)
  {
    var index := FindIndex(all, (x: DailyProgress) => x.date == p.date);
    var u := Upsert(all, p);
    if index == -1 {
      assert u == all + [p];
      forall i, j | 0 <= i < j < |u| ensures u[i].date != u[j].date {
        if j == |all| {
          assert u[i] == all[i];
        } else {
          assert u[i] == all[i] && u[j] == all[j];
        }
      }
    } else {
      assert u == all[index := p];
      forall x | x in u ensures x == p || (x in all && x.date != p.date) {
        var k :| 0 <= k < |u| && u[k] == x;
        if k != index {
          assert x == all[k];
        }
      }
    }
  }

  /** Replacing a record by one of the same date, or appending one, keeps
      the number of newer records. */
  lemma UpsertNewerCount(all: seq<DailyProgress>, p: DailyProgress)
    ensures NewerCount(Upsert(all, p), p.date) == NewerCount(all, p.date)
  {
    var index := FindIndex(all, (x: DailyProgress) => x.date == p.date);
    if index == -1 {
      CountKeyBelowConcat(all, [p], DateDesc, -p.date);
    } else {
      CountKeyBelowUpdate(all, index, p, DateDesc, -p.date);
    }
  }

  /** With distinct stored dates, saveDailyProgress replaces rather than
      duplicates: the dates stay distinct, the only record of `p`'s date is
      `p`, and the other records are stored ones of other dates. */
  lemma SavedProgressReplaces(all: seq<DailyProgress>, p: DailyProgress)
    requires DistinctDates(all)
    ensures DistinctDates(SavedProgress(all, p))
    ensures forall x :: x in SavedProgress(all, p) ==> x == p || (x in all && x.date != p.date)
  {
    var u := Upsert(all, p);
    var sorted := SortByKey(u, DateDesc);
    var r := SavedProgress(all, p);
    UpsertDistinct(all, p);
    assert DistinctKeys(u, DateDesc);
    SortDistinct(u, DateDesc);
    forall i, j | 0 <= i < j < |r| ensures r[i].date != r[j].date {
      assert r[i] == sorted[i] && r[j] == sorted[j];
      assert DateDesc(sorted[i]) != DateDesc(sorted[j]);
    }
    forall x | x in r ensures x == p || (x in all && x.date != p.date) {
      assert x in multiset(sorted);
      assert x in u;
    }
  }

  /** With distinct stored dates, the saved record survives the retention
      exactly when fewer than 90 stored records are newer. */
  lemma SavedProgressKeepsNew(all: seq<DailyProgress>, p: DailyProgress)
    requires DistinctDates(all)
    ensures p in SavedProgress(all, p) <==> NewerCount(all, p.date) < 90
  {
    UpsertKeptInPrefix(all, p, RetainedDays);
  }

  /** With distinct stored dates, a stored record of another date survives
      the save exactly when fewer than 90 records of the upserted list are
      newer: the retention keeps the 90 newest days. */
  lemma SavedProgressKeepsOthers(all: seq<DailyProgress>, p: DailyProgress, x: DailyProgress)
    requires DistinctDates(all)
    requires x in all && x.date != p.date
    ensures x in SavedProgress(all, p) <==> NewerCount(Upsert(all, p), x.date) < 90
  {
    UpsertKeepsOther(all, p, x);
    UpsertDistinct(all, p);
    SortedMemberInPrefix(Upsert(all, p), DateDesc, x, -x.date, RetainedDays);
  }

  /** The upsert only replaces a record of `p`'s date. */
  lemma UpsertKeepsOther(all: seq<DailyProgress>, p: DailyProgress, x: DailyProgress)
    requires x in all && x.date != p.date
    ensures x in Upsert(all, p)
  {
    var index := FindIndex(all, (y: DailyProgress) => y.date == p.date);
    var k :| 0 <= k < |all| && all[k] == x;
    if index == -1 {
      assert Upsert(all, p) == all + [p];
    } else {
      assert Upsert(all, p) == all[index := p];
    }
    assert Upsert(all, p)[k] == x;
  }

  /** At most 90 records after the upsert: the save loses none of them. */
  lemma SavedProgressKeepsAllWhenFew(all: seq<DailyProgress>, p: DailyProgress)
    requires |Upsert(all, p)| <= 90
    ensures multiset(SavedProgress(all, p)) == multiset(Upsert(all, p))
  {
  }

  /** The same for a retention of any length `n`. */
  lemma UpsertKeptInPrefix(all: seq<DailyProgress>, p: DailyProgress, n: nat)
    requires DistinctDates(all)
    ensures p in TakeAtMost(SortByKey(Upsert(all, p), DateDesc), n) <==> NewerCount(all, p.date) < n
  {
    UpsertDistinct(all, p);
    UpsertNewerCount(all, p);
    SortedMemberInPrefix(Upsert(all, p), DateDesc, p, -p.date, n);
  }

  /** getWeeklyProgress's window: the seven days from `weekStart`. */
  predicate InWeek(weekStart: int, d: int)
  {
    weekStart <= d <= weekStart + 6
  }

  function InWeekOf(weekStart: int): DailyProgress -> bool
  {
    (x: DailyProgress) => InWeek(weekStart, x.date)
  }

  /** The filter-then-sort of getWeeklyProgress keeps exactly the records of
      the week, each as often as stored, by ascending date. */
  lemma WeekWindow(progress: seq<DailyProgress>, weekStart: int)
    ensures var r := SortByKey(Filter(progress, InWeekOf(weekStart)), ProgressDate);
      && (forall x :: multiset(r)[x] == if InWeek(weekStart, x.date) then multiset(progress)[x] else 0)
      && (forall x :: x in r <==> x in progress && InWeek(weekStart, x.date))
      && forall i, j :: 0 <= i < j < |r| ==> r[i].date <= r[j].date
  {
    var f := Filter(progress, InWeekOf(weekStart));
    var r := SortByKey(f, ProgressDate);
    assert forall x: DailyProgress :: multiset(r)[x] == if InWeek(weekStart, x.date) then multiset(progress)[x] else 0 by {
      FilterMultiplicity(progress, InWeekOf(weekStart));
    }
    assert forall x: DailyProgress :: x in r <==> x in progress && InWeek(weekStart, x.date) by {
      assert forall x :: x in r <==> x in multiset(f);
    }
    assert forall i, j :: 0 <= i < j < |r| ==> ProgressDate(r[i]) <= ProgressDate(r[j]);
  }

  // ------------------------------------------------------------ statistics

  datatype Statistics = Statistics(
    totalMeals: nat,
    totalDays: nat,
    averageCaloriesPerDay: int,
    mostLoggedMealType: MealType,
    streakDays: nat)

  /** `progress.reduce((sum, day) => sum + day.caloriesConsumed, 0)`. */
  function TotalConsumed(days: seq<DailyProgress>): real
  {
    if |days| == 0 then 0.0 else TotalConsumed(days[..|days| - 1]) + days[|days| - 1].caloriesConsumed
  }

  /** The rounded mean of the consumed calories, or 0 without records. */
  function AverageCalories(days: seq<DailyProgress>): int
  {
    if |days| > 0 then Round(TotalConsumed(days) / |days| as real) else 0
  }

  lemma {:induction false} TotalConsumedBounds(days: seq<DailyProgress>, lo: real, hi: real)
    requires forall i :: 0 <= i < |days| ==> lo <= days[i].caloriesConsumed <= hi
    ensures |days| as real * lo <= TotalConsumed(days) <= |days| as real * hi
  {
    if |days| > 0 {
      var init := days[..|days| - 1];
      forall i | 0 <= i < |init| ensures lo <= init[i].caloriesConsumed <= hi {
        assert init[i] == days[i];
      }
      TotalConsumedBounds(init, lo, hi);
      assert |days| as real * lo == |init| as real * lo + lo;
      assert |days| as real * hi == |init| as real * hi + hi;
    }
  }

  /** The average is 0 without records, and lies between the rounded least
      and greatest daily intake otherwise. */
  lemma AverageCaloriesBounds(days: seq<DailyProgress>, lo: real, hi: real)
    requires forall i :: 0 <= i < |days| ==> lo <= days[i].caloriesConsumed <= hi
    ensures |days| == 0 ==> AverageCalories(days) == 0
    ensures |days| > 0 ==> Round(lo) <= AverageCalories(days) <= Round(hi)
  {
    if |days| > 0 {
      var n := |days| as real;
      var t := TotalConsumed(days);
      TotalConsumedBounds(days, lo, hi);
      assert n * lo <= t <= n * hi;
      assert lo <= t / n by {
        assert (t / n) * n == t;
      }
      assert t / n <= hi by {
        assert (t / n) * n == t;
      }
      RoundMonotone(lo, t / n);
      RoundMonotone(t / n, hi);
    }
  }

  /** How many entries have meal type `t`. */
  function CountType(entries: seq<MealEntry>, t: MealType): (n: nat)
    ensures n <= |entries|
  {
    if |entries| == 0 then 0
    else CountType(entries[..|entries| - 1], t) + (if entries[|entries| - 1].mealType == t then 1 else 0)
  }

  /** The index of the first entry of type `t`, or `|entries|` without one. */
  function FirstIndexOf(entries: seq<MealEntry>, t: MealType): (i: nat)
    ensures i <= |entries|
    ensures forall j :: 0 <= j < i ==> entries[j].mealType != t
    ensures i < |entries| ==> entries[i].mealType == t
  {
    if |entries| == 0 then 0
    else if entries[0].mealType == t then 0
    else 1 + FirstIndexOf(entries[1..], t)
  }

  lemma {:induction false} CountTypePositive(entries: seq<MealEntry>, t: MealType)
    ensures CountType(entries, t) > 0 <==> exists j :: 0 <= j < |entries| && entries[j].mealType == t
  {
    if |entries| > 0 {
      var init := entries[..|entries| - 1];
      CountTypePositive(init, t);
      if exists j :: 0 <= j < |init| && init[j].mealType == t {
        var j :| 0 <= j < |init| && init[j].mealType == t;
        assert entries[j] == init[j];
      }
      if exists j :: 0 <= j < |entries| && entries[j].mealType == t {
        var j :| 0 <= j < |entries| && entries[j].mealType == t;
        if j < |init| {
          assert init[j] == entries[j];
        }
      }
    }
  }

  /** The dates of the records, in record order. */
  function Dates(days: seq<DailyProgress>): (r: seq<int>)
    ensures |r| == |days| && forall i :: 0 <= i < |days| ==> r[i] == days[i].date
  {
    if |days| == 0 then [] else [days[0].date] + Dates(days[1..])
  }

  function Negate(x: int): int
  {
    -x
  }

  /** `progress.map(p => p.date).sort(descending)`. */
  function SortedDatesDesc(days: seq<DailyProgress>): (r: seq<int>)
    ensures |r| == |days|
    ensures forall i, j :: 0 <= i < j < |r| ==> r[i] >= r[j]
    ensures multiset(r) == multiset(Dates(days))
  {
    var r := SortByKey(Dates(days), Negate);
    assert forall i, j :: 0 <= i < j < |r| ==> Negate(r[i]) <= Negate(r[j]);
    r
  }

  /** The streak counted from `day` backwards: how many leading dates are
      `day`, `day - 1`, `day - 2`, ..., stopping at the first that is not. */
  function Streak(dates: seq<int>, day: int): (r: nat)
    ensures r <= |dates|
    ensures forall j :: 0 <= j < r ==> dates[j] == day - j
    ensures r < |dates| ==> dates[r] != day - r
  {
    if |dates| == 0 || dates[0] != day then 0 else 1 + Streak(dates[1..], day - 1)
  }

  /** No record for today means no streak. */
  lemma StreakNeedsToday(days: seq<DailyProgress>, today: int)
    requires forall i :: 0 <= i < |days| ==> days[i].date != today
    ensures Streak(SortedDatesDesc(days), today) == 0
  {
    var dates := SortedDatesDesc(days);
    assert |dates| > 0 ==> dates[0] in multiset(Dates(days));
  }

  // ----------------------------------------------------- export and import

  /** The value of every section at once. */
  datatype Snapshot = Snapshot(
    profile: Option<UserProfile>,
    meals: seq<MealEntry>,
    progress: seq<DailyProgress>,
    settings: Option<AppSettings>,
    onboardingComplete: bool)

  /** The store after clearAllData: every key removed. */
  const EmptyStore := Snapshot(None, [], [], None, false)

  /** The object exportData serialises; `appSettings` goes through
      getAppSettings, so it is never absent. */
  datatype ExportDoc = ExportDoc(
    userProfile: Option<UserProfile>,
    mealEntries: seq<MealEntry>,
    dailyProgress: seq<DailyProgress>,
    appSettings: AppSettings,
    exportDate: int)

  /** A parsed import: a section is `None` when it is missing or falsy. */
  datatype ImportDoc = ImportDoc(
    userProfile: Option<UserProfile>,
    mealEntries: Option<seq<MealEntry>>,
    dailyProgress: Option<seq<DailyProgress>>,
    appSettings: Option<AppSettings>)

  function Exported(s: Snapshot, now: int): (doc: ExportDoc)
    ensures doc.userProfile == s.profile && doc.mealEntries == s.meals && doc.dailyProgress == s.progress
    ensures doc.appSettings == SettingsOrDefault(s.settings) && doc.exportDate == now
  {
    ExportDoc(s.profile, s.meals, s.progress, SettingsOrDefault(s.settings), now)
  }

  /** What `JSON.parse` gives back for exported text: a null profile is
      falsy, every array and the settings object are truthy. */
  function Reparsed(doc: ExportDoc): ImportDoc
  {
    ImportDoc(doc.userProfile, Some(doc.mealEntries), Some(doc.dailyProgress), Some(doc.appSettings))
  }

  /** importData on a parsed object: each present section overwrites its
      section as it stands (no sorting or retention), the others stay. */
  function Imported(s: Snapshot, doc: ImportDoc): (r: Snapshot)
    ensures r.profile == (if doc.userProfile.Some? then doc.userProfile else s.profile)
    ensures r.meals == (if doc.mealEntries.Some? then doc.mealEntries.value else s.meals)
    ensures r.progress == (if doc.dailyProgress.Some? then doc.dailyProgress.value else s.progress)
    ensures r.settings == (if doc.appSettings.Some? then doc.appSettings else s.settings)
    ensures r.onboardingComplete == s.onboardingComplete
  {
    Snapshot(
      if doc.userProfile.Some? then doc.userProfile else s.profile,
      Pick(doc.mealEntries, s.meals),
      Pick(doc.dailyProgress, s.progress),
      if doc.appSettings.Some? then doc.appSettings else s.settings,
      s.onboardingComplete)
  }

  /** Export, clear, import: meals, progress and the profile come back, the
      settings come back as getAppSettings saw them, onboarding is reset, and
      a second export equals the first. */
  lemma ExportClearImport(s: Snapshot, now: int)
    ensures var r := Imported(EmptyStore, Reparsed(Exported(s, now)));
      && r.profile == s.profile && r.meals == s.meals && r.progress == s.progress
      && SettingsOrDefault(r.settings) == SettingsOrDefault(s.settings)
      && r.settings == Some(SettingsOrDefault(s.settings))
      && !r.onboardingComplete
      && Exported(r, now) == Exported(s, now)
  {
  }

  // ----------------------------------------------------------- the store

  class StorageService {
    var profile: Option<UserProfile>
    var meals: seq<MealEntry>
    var progress: seq<DailyProgress>
    var settings: Option<AppSettings>
    var onboardingComplete: bool

    /** A store with nothing saved. */
    constructor()
      ensures State() == EmptyStore
    {
      profile := None;
      meals := [];
      progress := [];
      settings := None;
      onboardingComplete := false;
    }

    function State(): Snapshot
      reads this
    {
      Snapshot(profile, meals, progress, settings, onboardingComplete)
    }

    method SaveUserProfile(p: UserProfile)
      modifies this
      ensures State() == old(State()).(profile := Some(p))
    {
      profile := Some(p);
    }

    /** updateUserProfile: merges into an existing profile, does nothing without one. */
    method UpdateUserProfile(u: ProfileUpdate)
      modifies this
      ensures old(profile).None? ==> State() == old(State())
      ensures old(profile).Some? ==> State() == old(State()).(profile := Some(MergeProfile(old(profile).value, u)))
    {
      if profile.Some? {
        profile := Some(MergeProfile(profile.value, u));
      }
    }

    /** saveMealEntry: the entry goes at the end. */
    method SaveMealEntry(entry: MealEntry)
      modifies this
      ensures State() == old(State()).(meals := old(meals) + [entry])
    {
      meals := meals + [entry];
    }

    /** getMealEntriesByDate: the entries of UTC day `date`, in stored order. */
    function GetMealEntriesByDate(date: int): (r: seq<MealEntry>)
      reads this
      ensures forall e :: e in r <==> e in meals && DayOf(e.timestamp) == date
      ensures forall e :: multiset(r)[e] == if DayOf(e.timestamp) == date then multiset(meals)[e] else 0
      ensures IsSubsequence(r, meals)
    {
      var onDay := (e: MealEntry) => DayOf(e.timestamp) == date;
      FilterMultiplicity(meals, onDay);
      Filter(meals, onDay)
    }

    /** getMealEntriesByDateRange: the entries of the days `start` to `end`
        inclusive, in stored order. */
    function GetMealEntriesByDateRange(start: int, end: int): (r: seq<MealEntry>)
      reads this
      ensures forall e :: e in r <==> e in meals && start <= DayOf(e.timestamp) <= end
      ensures forall e :: multiset(r)[e] == if start <= DayOf(e.timestamp) <= end then multiset(meals)[e] else 0
      ensures IsSubsequence(r, meals)
    {
      var inRange := (e: MealEntry) => start <= DayOf(e.timestamp) <= end;
      FilterMultiplicity(meals, inRange);
      Filter(meals, inRange)
    }

    method UpdateMealEntry(entryId: string, u: MealUpdate)
      modifies this
      ensures State() == old(State()).(meals := UpdatedMeals(old(meals), entryId, u))
    {
      meals := UpdatedMeals(meals, entryId, u);
    }

    method DeleteMealEntry(entryId: string)
      modifies this
      ensures State() == old(State()).(meals := DeletedMeals(old(meals), entryId))
    {
      meals := DeletedMeals(meals, entryId);
    }

    /** saveDailyProgress: replace in place or push, then sort and truncate. */
    method SaveDailyProgress(p: DailyProgress)
      modifies this
      ensures State() == old(State()).(progress := SavedProgress(old(progress), p))
    {
      var all := progress;
      var existingIndex := FindIndex(all, (x: DailyProgress) => x.date == p.date);
      if existingIndex != -1 {
        all := all[existingIndex := p];
      } else {
        all := all + [p];
      }
      progress := TakeAtMost(SortByKey(all, DateDesc), RetainedDays);
    }

    /** getDailyProgressByDate: the first record of that date, if any. */
    function GetDailyProgressByDate(date: int): (r: Option<DailyProgress>)
      reads this
      ensures r.None? <==> forall i :: 0 <= i < |progress| ==> progress[i].date != date
      ensures r.Some? ==> r.value.date == date
      ensures r.Some? ==> exists i ::
        0 <= i < |progress| && progress[i] == r.value && forall j :: 0 <= j < i ==> progress[j].date != date
    {
      var index := FindIndex(progress, (x: DailyProgress) => x.date == date);
      if index == -1 then None else Some(progress[index])
    }

    /** getWeeklyProgress: the records of the seven days from `weekStart`,
        by ascending date. */
    function GetWeeklyProgress(weekStart: int): (r: seq<DailyProgress>)
      reads this
      ensures forall x :: x in r <==> x in progress && InWeek(weekStart, x.date)
      ensures forall x :: multiset(r)[x] == if InWeek(weekStart, x.date) then multiset(progress)[x] else 0
      ensures forall i, j :: 0 <= i < j < |r| ==> r[i].date <= r[j].date
    {
      WeekWindow(progress, weekStart);
      SortByKey(Filter(progress, InWeekOf(weekStart)), ProgressDate)
    }

    method SaveAppSettings(s: AppSettings)
      modifies this
      ensures State() == old(State()).(settings := Some(s))
    {
      settings := Some(s);
    }

    function GetAppSettings(): (r: AppSettings)
      reads this
      ensures r == SettingsOrDefault(settings)
    {
      SettingsOrDefault(settings)
    }

    /** updateAppSettings: merges into the settings getAppSettings reports,
        so it stores a full record even when none was stored. */
    method UpdateAppSettings(u: SettingsUpdate)
      modifies this
      ensures State() == old(State()).(settings := Some(MergeSettings(SettingsOrDefault(old(settings)), u)))
    {
      settings := Some(MergeSettings(GetAppSettings(), u));
    }

    method SetOnboardingComplete(complete: bool)
      modifies this
      ensures State() == old(State()).(onboardingComplete := complete)
    {
      onboardingComplete := complete;
    }

    /** getStatistics, with the current UTC day passed in as `today`. The
        most logged type has the highest count, and of the types sharing it
        the one logged first; it is breakfast when nothing is logged. */
    method GetStatistics(today: int) returns (stats: Statistics)
      ensures stats.totalMeals == |meals| && stats.totalDays == |progress|
      ensures stats.averageCaloriesPerDay == AverageCalories(progress)
      ensures |meals| == 0 ==> stats.mostLoggedMealType == Breakfast
      ensures |meals| > 0 ==> CountType(meals, stats.mostLoggedMealType) > 0
      ensures forall t :: CountType(meals, t) <= CountType(meals, stats.mostLoggedMealType)
      ensures forall t :: t != stats.mostLoggedMealType && CountType(meals, t) == CountType(meals, stats.mostLoggedMealType) && |meals| > 0 ==>
        FirstIndexOf(meals, stats.mostLoggedMealType) < FirstIndexOf(meals, t)
      ensures stats.streakDays == Streak(SortedDatesDesc(progress), today)
    {
      var mostLogged := MostLoggedMealType(meals);
      var streakDays := StreakDays(SortedDatesDesc(progress), today);
      stats := Statistics(|meals|, |progress|, AverageCalories(progress), mostLogged, streakDays);
    }

    method ExportData(now: int) returns (doc: ExportDoc)
      ensures doc == Exported(State(), now)
    {
      doc := ExportDoc(profile, meals, progress, GetAppSettings(), now);
    }

    /** importData on the outcome of `JSON.parse`. `None` stands for text
        that fails to parse or parses to `null` (reading a section of `null`
        throws): both are reported as `false` and change nothing. Any other
        value is `Some`, with every missing or falsy section `None`; a number
        or a string thus imports nothing and reports `true`. */
    method ImportData(data: Option<ImportDoc>) returns (ok: bool)
      modifies this
      ensures ok == data.Some?
      ensures data.None? ==> State() == old(State())
      ensures data.Some? ==> State() == Imported(old(State()), data.value)
    {
      if data.None? {
        return false;
      }
      var d := data.value;
      if d.userProfile.Some? {
        SaveUserProfile(d.userProfile.value);
      }
      if d.mealEntries.Some? {
        meals := d.mealEntries.value;
      }
      if d.dailyProgress.Some? {
        progress := d.dailyProgress.value;
      }
      if d.appSettings.Some? {
        SaveAppSettings(d.appSettings.value);
      }
      return true;
    }

    method ClearAllData()
      modifies this
      ensures State() == EmptyStore
    {
      profile := None;
      meals := [];
      progress := [];
      settings := None;
      onboardingComplete := false;
    }
  }

  // ------------------------------------------------ the statistics loops

  /** What the counting `forEach` leaves: `counts` holds, for each type
      logged, its count, and `order` lists those types by first appearance,
      the key order of the record. */
  predicate CountsOf(meals: seq<MealEntry>, counts: map<MealType, nat>, order: seq<MealType>)
  {
    && (forall t :: t in counts <==> t in order)
    && (forall t :: t in counts ==> counts[t] == CountType(meals, t) && counts[t] > 0)
    && (forall t :: t !in counts ==> CountType(meals, t) == 0)
    && (forall a, b :: 0 <= a < b < |order| ==> FirstIndexOf(meals, order[a]) < FirstIndexOf(meals, order[b]))
  }

  /** The counts after the first `i` entries. */
  predicate CountsAfter(meals: seq<MealEntry>, i: nat, counts: map<MealType, nat>, order: seq<MealType>)
    requires i <= |meals|
  {
    && (forall t :: t in counts <==> t in order)
    && (forall t :: t in counts ==> counts[t] == CountType(meals[..i], t) && counts[t] > 0)
    && (forall t :: t !in counts ==> CountType(meals[..i], t) == 0)
    && (forall a :: 0 <= a < |order| ==> FirstIndexOf(meals, order[a]) < i)
    && (forall a, b :: 0 <= a < b < |order| ==> FirstIndexOf(meals, order[a]) < FirstIndexOf(meals, order[b]))
  }

  /** One step of the counting loop keeps CountsAfter, whether the entry's
      type is already a key or becomes the last key. */
  lemma CountStep(meals: seq<MealEntry>, i: nat, counts: map<MealType, nat>, order: seq<MealType>)
    requires i < |meals| && CountsAfter(meals, i, counts, order)
    ensures var t := meals[i].mealType;
      t in counts ==> CountsAfter(meals, i + 1, counts[t := counts[t] + 1], order)
    ensures var t := meals[i].mealType;
      t !in counts ==> CountsAfter(meals, i + 1, counts[t := 1], order + [t])
  {
    assert meals[..i + 1][..i] == meals[..i];
    if meals[i].mealType !in counts {
      CountStepNew(meals, i, counts, order);
    }
  }

  lemma CountStepNew(meals: seq<MealEntry>, i: nat, counts: map<MealType, nat>, order: seq<MealType>)
    requires i < |meals| && CountsAfter(meals, i, counts, order)
    requires meals[i].mealType !in counts
    ensures CountsAfter(meals, i + 1, counts[meals[i].mealType := 1], order + [meals[i].mealType])
  {
    var t := meals[i].mealType;
    assert meals[..i + 1][..i] == meals[..i];
    assert forall j :: 0 <= j < i ==> meals[j].mealType != t by {
      CountTypePositive(meals[..i], t);
      forall j | 0 <= j < i ensures meals[j].mealType != t {
        assert meals[..i][j] == meals[j];
      }
    }
    assert FirstIndexOf(meals, t) == i;
  }

  /** `mealTypeCounts[type] = (mealTypeCounts[type] || 0) + 1` for every entry. */
  method CountMealTypes(meals: seq<MealEntry>) returns (counts: map<MealType, nat>, order: seq<MealType>)
    ensures CountsOf(meals, counts, order)
    ensures |meals| > 0 ==> meals[0].mealType in counts
  {
    counts := map[];
    order := [];
    var i := 0;
    while i < |meals|
      invariant 0 <= i <= |meals|
      invariant CountsAfter(meals, i, counts, order)
    {
      var t := meals[i].mealType;
      CountStep(meals, i, counts, order);
      if t in counts {
        counts := counts[t := counts[t] + 1];
      } else {
        counts := counts[t := 1];
        order := order + [t];
      }
      i := i + 1;
    }
    assert meals[..i] == meals;
    if |meals| > 0 {
      CountTypePositive(meals, meals[0].mealType);
    }
  }

  /** `Object.entries(counts).sort(by descending count)[0]`: the stable sort
      puts first the earliest key among those with the highest count;
      breakfast when there is no key. */
  method PickMostLogged(counts: map<MealType, nat>, order: seq<MealType>) returns (best: MealType, bestIndex: nat)
    requires forall t :: t in counts <==> t in order
    requires forall t :: t in counts ==> counts[t] > 0
    ensures |order| == 0 ==> best == Breakfast
    ensures |order| > 0 ==> bestIndex < |order| && best == order[bestIndex]
    ensures forall a :: 0 <= a < |order| ==> counts[order[a]] <= counts[best]
    ensures forall a :: 0 <= a < |order| && counts[order[a]] == counts[best] ==> bestIndex <= a
  {
    best := Breakfast;
    var bestCount := 0;
    bestIndex := 0;
    var j := 0;
    while j < |order|
      invariant 0 <= j <= |order|
      invariant j == 0 ==> best == Breakfast && bestCount == 0
      invariant j > 0 ==> bestIndex < j && best == order[bestIndex] && bestCount == counts[best]
      invariant forall a :: 0 <= a < j ==> counts[order[a]] <= bestCount
      invariant forall a :: 0 <= a < j && counts[order[a]] == bestCount ==> bestIndex <= a
    {
      if counts[order[j]] > bestCount {
        best := order[j];
        bestCount := counts[best];
        bestIndex := j;
      }
      j := j + 1;
    }
  }

  /** getStatistics' most logged meal type. */
  method MostLoggedMealType(meals: seq<MealEntry>) returns (best: MealType)
    ensures |meals| == 0 ==> best == Breakfast
    ensures |meals| > 0 ==> CountType(meals, best) > 0
    ensures forall t :: CountType(meals, t) <= CountType(meals, best)
    ensures forall t :: t != best && CountType(meals, t) == CountType(meals, best) && |meals| > 0 ==>
      FirstIndexOf(meals, best) < FirstIndexOf(meals, t)
  {
    var counts, order := CountMealTypes(meals);
    var bestIndex;
    best, bestIndex := PickMostLogged(counts, order);
    MostLoggedFacts(meals, counts, order, best, bestIndex);
  }

  /** The pick from the counts is the most logged type, ties going to the
      type logged first. */
  lemma MostLoggedFacts(meals: seq<MealEntry>, counts: map<MealType, nat>, order: seq<MealType>, best: MealType, bestIndex: nat)
    requires CountsOf(meals, counts, order)
    requires |meals| > 0 ==> meals[0].mealType in counts
    requires |order| == 0 ==> best == Breakfast
    requires |order| > 0 ==> bestIndex < |order| && best == order[bestIndex]
    requires forall a :: 0 <= a < |order| ==> counts[order[a]] <= counts[best]
    requires forall a :: 0 <= a < |order| && counts[order[a]] == counts[best] ==> bestIndex <= a
    ensures |meals| == 0 ==> best == Breakfast
    ensures |meals| > 0 ==> CountType(meals, best) > 0
    ensures forall t :: CountType(meals, t) <= CountType(meals, best)
    ensures forall t :: t != best && CountType(meals, t) == CountType(meals, best) && |meals| > 0 ==>
      FirstIndexOf(meals, best) < FirstIndexOf(meals, t)
  {
    if |meals| == 0 {
      if |order| > 0 {
        assert order[0] in counts;
      }
    } else {
      assert |order| > 0 by {
        assert meals[0].mealType in order;
      }
      MostLoggedIsMax(meals, counts, order, best);
      MostLoggedTie(meals, counts, order, best, bestIndex);
    }
  }

  lemma MostLoggedIsMax(meals: seq<MealEntry>, counts: map<MealType, nat>, order: seq<MealType>, best: MealType)
    requires CountsOf(meals, counts, order) && best in counts
    requires forall a :: 0 <= a < |order| ==> counts[order[a]] <= counts[best]
    ensures forall t :: CountType(meals, t) <= CountType(meals, best)
  {
    forall t ensures CountType(meals, t) <= CountType(meals, best) {
      if t in counts {
        var a :| 0 <= a < |order| && order[a] == t;
      }
    }
  }

  lemma MostLoggedTie(meals: seq<MealEntry>, counts: map<MealType, nat>, order: seq<MealType>, best: MealType, bestIndex: nat)
    requires CountsOf(meals, counts, order)
    requires bestIndex < |order| && best == order[bestIndex]
    requires forall a :: 0 <= a < |order| && counts[order[a]] == counts[best] ==> bestIndex <= a
    ensures forall t :: t != best && CountType(meals, t) == CountType(meals, best) ==>
      FirstIndexOf(meals, best) < FirstIndexOf(meals, t)
  {
    forall t | t != best && CountType(meals, t) == CountType(meals, best)
      ensures FirstIndexOf(meals, best) < FirstIndexOf(meals, t)
    {
      assert t in counts;
      var a :| 0 <= a < |order| && order[a] == t;
      assert bestIndex < a;
    }
  }

  /** The streak `for` loop over the descending dates. */
  method StreakDays(sortedDates: seq<int>, today: int) returns (streakDays: nat)
    ensures streakDays == Streak(sortedDates, today)
  {
    streakDays := 0;
    var currentDate := today;
    var k := 0;
    while k < |sortedDates|
      invariant 0 <= k <= |sortedDates|
      invariant streakDays == k && currentDate == today - k
      invariant Streak(sortedDates, today) == k + Streak(sortedDates[k..], currentDate)
    {
      if sortedDates[k] == currentDate {
        assert sortedDates[k..][1..] == sortedDates[k + 1..];
        streakDays := streakDays + 1;
        currentDate := currentDate - 1;
        k := k + 1;
      } else {
        break;
      }
    }
  }
}
