/** The activity matcher (src/lib/activitySuggestions.ts): a static catalog,
    weight-adjusted burn rates, a four-factor match score and the top-8
    ranking of activities that burn a calorie target. */
module ActivitySuggestions {
  import opened Types
  import opened JsMath
  import opened SeqUtils

  /** `activityDatabase`: twenty activities with their burn rate in kcal/min
      for a 70 kg person. */
  const Activities: seq<Activity> := [
    Activity("walking_moderate", "Brisk Walking", "المشي السريع", "cardio", 4.5, Low,
      "Walk at a brisk pace (3.5-4 mph) on flat terrain",
      "المشي بخطوة سريعة على أرض مستوية", None, None),
    Activity("jogging", "Jogging", "الهرولة", "cardio", 8.0, Medium,
      "Light jogging at 5-6 mph pace",
      "الهرولة الخفيفة بوتيرة معتدلة", None, None),
    Activity("running", "Running", "الجري", "cardio", 11.5, High,
      "Running at 7-8 mph pace",
      "الجري بوتيرة سريعة", None, None),
    Activity("cycling_leisure", "Leisure Cycling", "ركوب الدراجة الترفيهي", "cardio", 6.0, Low,
      "Cycling at a leisurely pace (10-12 mph)",
      "ركوب الدراجة بوتيرة مريحة", None, None),
    Activity("cycling_moderate", "Moderate Cycling", "ركوب الدراجة المعتدل", "cardio", 8.5, Medium,
      "Cycling at moderate pace (12-14 mph)",
      "ركوب الدراجة بوتيرة معتدلة", None, None),
    Activity("swimming", "Swimming", "السباحة", "cardio", 10.0, Medium,
      "General swimming, moderate pace",
      "السباحة العامة بوتيرة معتدلة", None, None),
    Activity("weight_training_light", "Light Weight Training", "تدريب الأوزان الخفيفة", "strength", 4.0, Low,
      "Light to moderate weight training",
      "تدريب الأوزان الخفيفة إلى المعتدلة", None, None),
    Activity("weight_training_heavy", "Heavy Weight Training", "تدريب الأوزان الثقيلة", "strength", 6.0, High,
      "Intense weight training with heavy weights",
      "تدريب الأوزان المكثف بأوزان ثقيلة", None, None),
    Activity("bodyweight_exercises", "Bodyweight Exercises", "تمارين بوزن الجسم", "strength", 5.5, Medium,
      "Push-ups, pull-ups, squats, burpees",
      "تمارين الضغط والعقلة والقرفصاء", None, None),
    Activity("football", "Football/Soccer", "كرة القدم", "sports", 9.0, High,
      "Playing football/soccer, general",
      "لعب كرة القدم بشكل عام", None, None),
    Activity("basketball", "Basketball", "كرة السلة", "sports", 8.5, High,
      "Playing basketball, general",
      "لعب كرة السلة بشكل عام", None, None),
    Activity("tennis", "Tennis", "التنس", "sports", 7.0, Medium,
      "Playing tennis, general",
      "لعب التنس بشكل عام", None, None),
    Activity("stairs_climbing", "Stair Climbing", "صعود الدرج", "daily", 9.0, Medium,
      "Climbing stairs at moderate pace",
      "صعود الدرج بوتيرة معتدلة", None, None),
    Activity("cleaning", "House Cleaning", "تنظيف المنزل", "daily", 3.5, Low,
      "General house cleaning activities",
      "أنشطة تنظيف المنزل العامة", None, None),
    Activity("gardening", "Gardening", "البستنة", "daily", 4.0, Low,
      "General gardening activities",
      "أنشطة البستنة العامة", None, None),
    Activity("yoga", "Yoga", "اليوغا", "fitness", 3.0, Low,
      "Hatha yoga, general",
      "يوغا هاثا عامة", None, None),
    Activity("pilates", "Pilates", "البيلاتس", "fitness", 4.5, Low,
      "Pilates, general",
      "البيلاتس بشكل عام", None, None),
    Activity("aerobics", "Aerobics", "الأيروبك", "fitness", 7.5, Medium,
      "Aerobics, general",
      "الأيروبك بشكل عام", None, None),
    Activity("hiit", "HIIT Training", "تدريب عالي الكثافة", "fitness", 12.0, High,
      "High-intensity interval training",
      "تدريب متقطع عالي الكثافة", None, None),
    Activity("dancing", "Dancing", "الرقص", "dance", 6.5, Medium,
      "Dancing, general",
      "الرقص بشكل عام", None, None)
  ]

  /** Every catalog burn rate is positive. */
  predicate PositiveRates(acts: seq<Activity>)
  {
    forall a :: a in acts ==> a.caloriesPerMinute > 0.0
  }

  lemma ActivitiesPositive()
    ensures |Activities| == 20 && PositiveRates(Activities)
  {
    assert forall i :: 0 <= i < |Activities| ==> Activities[i].caloriesPerMinute > 0.0;
    forall a | a in Activities ensures a.caloriesPerMinute > 0.0 {
      var i :| 0 <= i < |Activities| && Activities[i] == a;
    }
  }

  // ------------------------------------------------------ rates and times

  /** adjustCaloriesForWeight: the 70 kg rate scaled by weight / 70. */
  function AdjustCaloriesForWeight(baseCalories: real, weightKg: real): real
  {
    baseCalories * (weightKg / 70.0)
  }

  /** A 70 kg person burns the catalog rate; the rate is positive for a
      positive rate and weight, and grows with the weight. */
  lemma AdjustProperties(base: real, w1: real, w2: real)
    ensures AdjustCaloriesForWeight(base, 70.0) == base
    ensures base > 0.0 && w1 > 0.0 ==> AdjustCaloriesForWeight(base, w1) > 0.0
    ensures base >= 0.0 && w1 <= w2 ==> AdjustCaloriesForWeight(base, w1) <= AdjustCaloriesForWeight(base, w2)
  {
    if base > 0.0 && w1 > 0.0 {
      assert base * (w1 / 70.0) > 0.0;
    }
    if base >= 0.0 && w1 <= w2 {
      assert base * (w1 / 70.0) <= base * (w2 / 70.0);
    }
  }

  /** `Math.ceil(targetCalories / adjustedCaloriesPerMinute)` */
  function DurationFor(targetCalories: real, adjustedRate: real): int
    requires adjustedRate != 0.0
  {
    Ceil(targetCalories / adjustedRate)
  }

  /** At a positive rate the duration covers the target in under one extra
      minute, and never decreases as the target grows. */
  lemma DurationProperties(t1: real, t2: real, rate: real)
    requires rate > 0.0
    ensures DurationFor(t1, rate) as real * rate >= t1
    ensures (DurationFor(t1, rate) as real - 1.0) * rate < t1
    ensures t1 <= t2 ==> DurationFor(t1, rate) <= DurationFor(t2, rate)
  {
    var d := DurationFor(t1, rate) as real;
    var q := t1 / rate;
    assert q * rate == t1;
    assert q <= d;
    assert q * rate <= d * rate;
    var e := d - 1.0;
    assert e < q;
    assert e * rate < q * rate;
    assert e * rate < t1;
    if t1 <= t2 {
      assert t1 / rate <= t2 / rate;
      CeilMonotone(t1 / rate, t2 / rate);
    }
  }

  // --------------------------------------------------------- match score

  /** getPreferredIntensities */
  function GetPreferredIntensities(level: ActivityLevel): seq<Intensity>
  {
    match level
    case Sedentary => [Low]
    case LightlyActive => [Low, Medium]
    case ModeratelyActive => [Medium]
    case VeryActive => [Medium, High]
  }

  /** The preferred intensities of each activity level, as sets. */
  lemma PreferredIntensitiesByLevel()
    ensures forall x :: x in GetPreferredIntensities(Sedentary) <==> x == Low
    ensures forall x :: x in GetPreferredIntensities(LightlyActive) <==> x == Low || x == Medium
    ensures forall x :: x in GetPreferredIntensities(ModeratelyActive) <==> x == Medium
    ensures forall x :: x in GetPreferredIntensities(VeryActive) <==> x == Medium || x == High
  {
  }

  /** Duration factor: 30 for 10..45 min, 20 for 5..60 min, else 10. */
  function DurationPoints(duration: int): int
  {
    if 10 <= duration <= 45 then 30 else if 5 <= duration <= 60 then 20 else 10
  }

  /** Intensity factor: 25 when the intensity suits the activity level, else 10. */
  function IntensityPoints(intensity: Intensity, level: ActivityLevel): int
  {
    if intensity in GetPreferredIntensities(level) then 25 else 10
  }

  /** Accuracy factor: how close the unadjusted catalog rate x duration
      comes to the target: 25 within 10 %, 20 within 20 %, else 15. */
  function AccuracyPoints(caloriesPerMinute: real, duration: int, targetCalories: real): int
  {
    var accuracy := Abs(targetCalories - caloriesPerMinute * duration as real);
    if accuracy <= targetCalories * 0.1 then 25
    else if accuracy <= targetCalories * 0.2 then 20
    else 15
  }

  /** Category factor: the `categoryScores` table, 15 for any other category. */
  function CategoryPoints(category: string): int
  {
    if category == "cardio" then 20
    else if category == "sports" then 25
    else if category == "fitness" then 20
    else if category == "strength" then 18
    else if category == "dance" then 22
    else if category == "daily" then 15
    else 15
  }

  /** The sum of the four factor points. */
  function FactorSum(activity: Activity, duration: int, level: ActivityLevel, targetCalories: real): int
  {
    DurationPoints(duration) + IntensityPoints(activity.intensity, level)
    + AccuracyPoints(activity.caloriesPerMinute, duration, targetCalories) + CategoryPoints(activity.category)
  }

  /** The match percentage: the factor sum capped at 100 (the average of
      four factors times four is the sum). */
  function MatchPercentage(activity: Activity, duration: int, level: ActivityLevel, targetCalories: real): (m: int)
    ensures 50 <= m <= 100
    ensures m == 100 || m == FactorSum(activity, duration, level, targetCalories)
    ensures m <= FactorSum(activity, duration, level, targetCalories)
  {
    var s := FactorSum(activity, duration, level, targetCalories);
    if s <= 100 then s else 100
  }

  /** calculateMatchPercentage: adds each factor to `score` and counts it in
      `factors`, then returns `min(100, round(score / factors * 4))`. */
  method CalculateMatchPercentage(activity: Activity, duration: int, userProfile: UserProfile, targetCalories: real)
    returns (m: int)
    ensures m == MatchPercentage(activity, duration, userProfile.activityLevel, targetCalories)
    ensures 50 <= m <= 100
  {
    var score := 0;
    var factors := 0;

    if 10 <= duration <= 45 {
      score := score + 30;
    } else if 5 <= duration <= 60 {
      score := score + 20;
    } else {
      score := score + 10;
    }
    factors := factors + 1;

    var preferred := GetPreferredIntensities(userProfile.activityLevel);
    if activity.intensity in preferred {
      score := score + 25;
    } else {
      score := score + 10;
    }
    factors := factors + 1;

    var calorieAccuracy := Abs(targetCalories - activity.caloriesPerMinute * duration as real);
    if calorieAccuracy <= targetCalories * 0.1 {
      score := score + 25;
    } else if calorieAccuracy <= targetCalories * 0.2 {
      score := score + 20;
    } else {
      score := score + 15;
    }
    factors := factors + 1;

    score := score + CategoryPoints(activity.category);
    factors := factors + 1;

    assert score == FactorSum(activity, duration, userProfile.activityLevel, targetCalories);
    assert score as real / factors as real * 4.0 == score as real;
    RoundOfInt(score);
    var scaled := Round(score as real / factors as real * 4.0);
    m := if scaled <= 100 then scaled else 100;
  }

  // ----------------------------------------------------------- suggestions

  /** The optional `preferences` argument; an absent argument is all None. */
  datatype Preferences = Preferences(
    categories: Option<seq<string>>,
    intensity: Option<seq<Intensity>>,
    maxDuration: Option<real>)

  const NoPreferences := Preferences(None, None, None)

  /** The category filter applies only to a present, non-empty list. */
  predicate CategoryFilterOn(p: Preferences)
  {
    p.categories.Some? && |p.categories.value| > 0
  }

  predicate IntensityFilterOn(p: Preferences)
  {
    p.intensity.Some? && |p.intensity.value| > 0
  }

  /** `preferences?.maxDuration` is truthy: present and not 0. */
  predicate MaxDurationOn(p: Preferences)
  {
    p.maxDuration.Some? && p.maxDuration.value != 0.0
  }

  predicate PassesCategory(a: Activity, p: Preferences)
  {
    CategoryFilterOn(p) ==> a.category in p.categories.value
  }

  predicate PassesIntensity(a: Activity, p: Preferences)
  {
    IntensityFilterOn(p) ==> a.intensity in p.intensity.value
  }

  /** The category and intensity filters applied to `acts`, order kept. */
  function FilterByPreferences(acts: seq<Activity>, p: Preferences): (r: seq<Activity>)
    ensures forall a :: a in r <==> a in acts && PassesCategory(a, p) && PassesIntensity(a, p)
    ensures IsSubsequence(r, acts)
  {
    var byCategory :=
      if CategoryFilterOn(p) then Filter(acts, (a: Activity) => a.category in p.categories.value)
      else acts;
    SubsequenceOfSelf(acts);
    var byIntensity :=
      if IntensityFilterOn(p) then Filter(byCategory, (a: Activity) => a.intensity in p.intensity.value)
      else byCategory;
    SubsequenceOfSelf(byCategory);
    SubsequenceTransitive(byIntensity, byCategory, acts);
    byIntensity
  }

  /** The catalog after the category and intensity filters, in catalog order. */
  function FilteredActivities(p: Preferences): (r: seq<Activity>)
    ensures forall a :: a in r <==> a in Activities && PassesCategory(a, p) && PassesIntensity(a, p)
    ensures IsSubsequence(r, Activities)
    ensures PositiveRates(r)
  {
    ActivitiesPositive();
    FilterByPreferences(Activities, p)
  }

  /** With no (or empty) lists nothing is filtered out. */
  lemma NoFiltersKeepCatalog(p: Preferences)
    requires !CategoryFilterOn(p) && !IntensityFilterOn(p)
    ensures FilteredActivities(p) == Activities
  {
  }

  /** The suggestion for one activity, or nothing when it is over the
      maximum duration. */
  function Candidate(a: Activity, targetCalories: real, profile: UserProfile, p: Preferences): Option<ActivitySuggestion>
    requires a.caloriesPerMinute > 0.0 && profile.weight != 0.0
  {
    var adjusted := AdjustCaloriesForWeight(a.caloriesPerMinute, profile.weight);
    assert adjusted != 0.0 by {
      assert profile.weight / 70.0 != 0.0;
    }
    var duration := DurationFor(targetCalories, adjusted);
    if MaxDurationOn(p) && duration as real > p.maxDuration.value then None
    else Some(ActivitySuggestion(a, duration, Round(adjusted * duration as real),
      MatchPercentage(a, duration, profile.activityLevel, targetCalories)))
  }

  /** The `map` over the activities followed by `filter(Boolean)`. */
  function Candidates(acts: seq<Activity>, targetCalories: real, profile: UserProfile, p: Preferences): (r: seq<ActivitySuggestion>)
    requires PositiveRates(acts) && profile.weight != 0.0
    ensures |r| <= |acts|
    ensures forall s :: s in r ==> s.activity in acts
    ensures forall s :: s in r ==> Candidate(s.activity, targetCalories, profile, p) == Some(s)
    ensures forall a :: a in acts && Candidate(a, targetCalories, profile, p).Some? ==>
      Candidate(a, targetCalories, profile, p).value in r
  {
    if |acts| == 0 then []
    else
      var rest := Candidates(acts[1..], targetCalories, profile, p);
      assert forall a :: a in acts ==> a == acts[0] || a in acts[1..];
      match Candidate(acts[0], targetCalories, profile, p)
      case None => rest
      case Some(s) => [s] + rest
  }

  /** Descending by match percentage, stable: `sort((a, b) => b.matchPercentage - a.matchPercentage)`. */
  function MatchKey(s: ActivitySuggestion): int
  {
    -s.matchPercentage
  }

  /** The candidates from the filtered `catalog`, best match first. The
      ranking is stated for any catalog of positive rates so that its proofs
      do not unfold the twenty-entry table. */
  function Ranked(catalog: seq<Activity>, targetCalories: real, profile: UserProfile, p: Preferences): (r: seq<ActivitySuggestion>)
    requires PositiveRates(catalog) && profile.weight != 0.0
    ensures multiset(r) == multiset(Candidates(FilterByPreferences(catalog, p), targetCalories, profile, p))
    ensures forall i, j :: 0 <= i < j < |r| ==> r[i].matchPercentage >= r[j].matchPercentage
  {
    var r := SortByKey(Candidates(FilterByPreferences(catalog, p), targetCalories, profile, p), MatchKey);
    assert SortedByKey(r, MatchKey);
    r
  }

  /** Candidates with the same match keep their catalog order in the ranking:
      for every key `k` (a negated match percentage), the candidates ranked
      under `k` are those of the candidate list, in its order. */
  lemma RankedStable(catalog: seq<Activity>, targetCalories: real, profile: UserProfile, p: Preferences, k: int)
    requires PositiveRates(catalog) && profile.weight != 0.0
    ensures Filter(Ranked(catalog, targetCalories, profile, p), HasKey(MatchKey, k))
         == Filter(Candidates(FilterByPreferences(catalog, p), targetCalories, profile, p), HasKey(MatchKey, k))
  {
    SortStable(Candidates(FilterByPreferences(catalog, p), targetCalories, profile, p), MatchKey, k);
  }

  /** The eight best candidates from `catalog`. */
  function TopSuggestions(catalog: seq<Activity>, targetCalories: real, profile: UserProfile, p: Preferences): (r: seq<ActivitySuggestion>)
    requires PositiveRates(catalog) && profile.weight != 0.0
    ensures |r| == MinInt(8, |Ranked(catalog, targetCalories, profile, p)|)
    ensures r == Ranked(catalog, targetCalories, profile, p)[..|r|]
  {
    TakeAtMost(Ranked(catalog, targetCalories, profile, p), 8)
  }

  function MinInt(a: int, b: int): int
  {
    if a <= b then a else b
  }

  /** getSuggestionsForCalories: the eight best candidates from the catalog. */
  function GetSuggestionsForCalories(targetCalories: real, profile: UserProfile, p: Preferences): seq<ActivitySuggestion>
    requires profile.weight != 0.0
  {
    ActivitiesPositive();
    TopSuggestions(Activities, targetCalories, profile, p)
  }

  /** What each suggestion from `catalog` satisfies: an activity of the
      catalog passing the category and intensity filters and the maximum
      duration, the ceil duration for its weight-adjusted rate, the rounded
      total and a 50..100 match. */
  predicate ValidIn(s: ActivitySuggestion, catalog: seq<Activity>, targetCalories: real, profile: UserProfile, p: Preferences)
  {
    && s.activity in catalog
    && PassesCategory(s.activity, p) && PassesIntensity(s.activity, p)
    && (MaxDurationOn(p) ==> s.duration as real <= p.maxDuration.value)
    && AdjustCaloriesForWeight(s.activity.caloriesPerMinute, profile.weight) != 0.0
    && s.duration == Ceil(targetCalories / AdjustCaloriesForWeight(s.activity.caloriesPerMinute, profile.weight))
    && s.totalCalories == Round(AdjustCaloriesForWeight(s.activity.caloriesPerMinute, profile.weight) * s.duration as real)
    && 50 <= s.matchPercentage <= 100
  }

  /** ValidIn for the catalog itself. */
  predicate ValidSuggestion(s: ActivitySuggestion, targetCalories: real, profile: UserProfile, p: Preferences)
  {
    ValidIn(s, Activities, targetCalories, profile, p)
  }

  lemma CandidateFromCatalog(s: ActivitySuggestion, catalog: seq<Activity>, targetCalories: real, profile: UserProfile, p: Preferences)
    requires PositiveRates(catalog) && profile.weight != 0.0
    requires s in Candidates(FilterByPreferences(catalog, p), targetCalories, profile, p)
    ensures s.activity in catalog && PassesCategory(s.activity, p) && PassesIntensity(s.activity, p)
    ensures s.activity.caloriesPerMinute > 0.0
    ensures Candidate(s.activity, targetCalories, profile, p) == Some(s)
  {
    assert s.activity in FilterByPreferences(catalog, p);
  }

  /** A suggestion built by Candidate respects the maximum duration and has a 50..100 match. */
  lemma CandidateWithinLimits(s: ActivitySuggestion, targetCalories: real, profile: UserProfile, p: Preferences)
    requires profile.weight != 0.0 && s.activity.caloriesPerMinute > 0.0
    requires Candidate(s.activity, targetCalories, profile, p) == Some(s)
    ensures MaxDurationOn(p) ==> s.duration as real <= p.maxDuration.value
    ensures 50 <= s.matchPercentage <= 100
  {
  }

  /** A suggestion built by Candidate has the ceil duration and rounded total of its adjusted rate. */
  lemma CandidateDuration(s: ActivitySuggestion, targetCalories: real, profile: UserProfile, p: Preferences)
    requires profile.weight != 0.0 && s.activity.caloriesPerMinute > 0.0
    requires Candidate(s.activity, targetCalories, profile, p) == Some(s)
    ensures AdjustCaloriesForWeight(s.activity.caloriesPerMinute, profile.weight) != 0.0
    ensures s.duration == Ceil(targetCalories / AdjustCaloriesForWeight(s.activity.caloriesPerMinute, profile.weight))
    ensures s.totalCalories == Round(AdjustCaloriesForWeight(s.activity.caloriesPerMinute, profile.weight) * s.duration as real)
  {
    assert profile.weight / 70.0 != 0.0;
  }

  lemma CandidateValid(s: ActivitySuggestion, catalog: seq<Activity>, targetCalories: real, profile: UserProfile, p: Preferences)
    requires PositiveRates(catalog) && profile.weight != 0.0
    requires s in Candidates(FilterByPreferences(catalog, p), targetCalories, profile, p)
    ensures ValidIn(s, catalog, targetCalories, profile, p)
  {
    CandidateFromCatalog(s, catalog, targetCalories, profile, p);
    CandidateWithinLimits(s, targetCalories, profile, p);
    CandidateDuration(s, targetCalories, profile, p);
  }

  /** At most eight suggestions from `catalog`, every one valid, ordered by
      non-increasing match. */
  lemma TopSuggestionsProperties(catalog: seq<Activity>, targetCalories: real, profile: UserProfile, p: Preferences)
    requires PositiveRates(catalog) && profile.weight != 0.0
    ensures var r := TopSuggestions(catalog, targetCalories, profile, p);
      && |r| <= 8
      && (forall i, j :: 0 <= i < j < |r| ==> r[i].matchPercentage >= r[j].matchPercentage)
      && forall i :: 0 <= i < |r| ==> ValidIn(r[i], catalog, targetCalories, profile, p)
  {
    var ranked := Ranked(catalog, targetCalories, profile, p);
    var r := TopSuggestions(catalog, targetCalories, profile, p);
    forall i | 0 <= i < |r|
      ensures ValidIn(r[i], catalog, targetCalories, profile, p)
    {
      assert r[i] == ranked[i];
      assert ranked[i] in multiset(ranked);
      CandidateValid(r[i], catalog, targetCalories, profile, p);
    }
  }

  /** At most eight suggestions, every one valid, ordered by non-increasing match. */
  lemma SuggestionsProperties(targetCalories: real, profile: UserProfile, p: Preferences)
    requires profile.weight != 0.0
    ensures var r := GetSuggestionsForCalories(targetCalories, profile, p);
      && |r| <= 8
      && (forall i, j :: 0 <= i < j < |r| ==> r[i].matchPercentage >= r[j].matchPercentage)
      && forall i :: 0 <= i < |r| ==> ValidSuggestion(r[i], targetCalories, profile, p)
  {
    ActivitiesPositive();
    TopSuggestionsProperties(Activities, targetCalories, profile, p);
  }

  /** A prefix of a list ordered by non-increasing match: an element left
      out matches no better than any element kept. */
  lemma PrefixDominates(ranked: seq<ActivitySuggestion>, n: nat, c: ActivitySuggestion)
    requires n <= |ranked|
    requires forall i, j :: 0 <= i < j < |ranked| ==> ranked[i].matchPercentage >= ranked[j].matchPercentage
    requires c in ranked
    ensures c in ranked[..n] || forall i :: 0 <= i < n ==> ranked[i].matchPercentage >= c.matchPercentage
  {
    var j :| 0 <= j < |ranked| && ranked[j] == c;
    if j < n {
      assert ranked[..n][j] == c;
    }
  }

  /** From any catalog, a candidate left out matches no better than any
      suggestion kept. */
  lemma TopSuggestionsAreBest(catalog: seq<Activity>, targetCalories: real, profile: UserProfile, p: Preferences, c: ActivitySuggestion)
    requires PositiveRates(catalog) && profile.weight != 0.0
    requires c in Candidates(FilterByPreferences(catalog, p), targetCalories, profile, p)
    ensures var r := TopSuggestions(catalog, targetCalories, profile, p);
      c in r || forall i :: 0 <= i < |r| ==> r[i].matchPercentage >= c.matchPercentage
  {
    var ranked := Ranked(catalog, targetCalories, profile, p);
    var r := TopSuggestions(catalog, targetCalories, profile, p);
    assert c in ranked by {
      assert c in multiset(ranked);
    }
    PrefixDominates(ranked, |r|, c);
  }

  /** The result is the top of the ranking: a candidate left out matches no
      better than any suggestion kept. */
  lemma SuggestionsAreTopEight(targetCalories: real, profile: UserProfile, p: Preferences, c: ActivitySuggestion)
    requires profile.weight != 0.0
    requires c in Candidates(FilteredActivities(p), targetCalories, profile, p)
    ensures var r := GetSuggestionsForCalories(targetCalories, profile, p);
      c in r || forall i :: 0 <= i < |r| ==> r[i].matchPercentage >= c.matchPercentage
  {
    ActivitiesPositive();
    TopSuggestionsAreBest(Activities, targetCalories, profile, p, c);
  }

  // ------------------------------------------------------- catalog queries

  /** getActivitiesByCategory: the whole catalog for "all", otherwise the
      activities of that category in catalog order. */
  function GetActivitiesByCategory(category: string): (r: seq<Activity>)
    ensures category == "all" ==> r == Activities
    ensures category != "all" ==> forall a :: a in r <==> a in Activities && a.category == category
    ensures IsSubsequence(r, Activities)
  {
    if category == "all" then
      SubsequenceOfSelf(Activities);
      Activities
    else Filter(Activities, (a: Activity) => a.category == category)
  }

  /** searchActivities: name or description, in the chosen language,
      contains the query, all lower-cased. */
  predicate ActivityMatches(a: Activity, query: string, language: Language)
  {
    var name := if language == Ar then a.nameAr else a.name;
    var description := if language == Ar then a.descriptionAr else a.description;
    Contains(Lower(name), Lower(query)) || Contains(Lower(description), Lower(query))
  }

  function SearchActivities(query: string, language: Language): (r: seq<Activity>)
    ensures forall a :: a in r <==> a in Activities && ActivityMatches(a, query, language)
    ensures IsSubsequence(r, Activities)
  {
    Filter(Activities, (a: Activity) => ActivityMatches(a, query, language))
  }

  // ------------------------------------------------------ quick suggestions

  /** Decimal digits of a natural number. */
  function NatToString(n: nat): string
    decreases n
  {
    var digit := [(48 + n % 10) as char];
    if n < 10 then digit else NatToString(n / 10) + digit
  }

  /** The record key `${calories}cal`. */
  function QuickKey(calories: nat): string
  {
    NatToString(calories) + "cal"
  }

  const CalorieAmounts: seq<nat> := [100, 200, 300, 500]

  /** The four record keys. */
  const QuickKeys: seq<string> := ["100cal", "200cal", "300cal", "500cal"]

  /** The keys rendered from the amounts are the four literal keys, all distinct. */
  lemma QuickKeysRendered()
    ensures forall k :: 0 <= k < |CalorieAmounts| ==> QuickKey(CalorieAmounts[k]) == QuickKeys[k]
    ensures forall i, j :: 0 <= i < j < |QuickKeys| ==> QuickKeys[i] != QuickKeys[j]
  {
    assert QuickKey(100) == "100cal" && QuickKey(200) == "200cal";
    assert QuickKey(300) == "300cal" && QuickKey(500) == "500cal";
    forall i, j | 0 <= i < j < |QuickKeys| ensures QuickKeys[i] != QuickKeys[j] {
      assert QuickKeys[i][0] != QuickKeys[j][0];
    }
  }

  /** The preferences getQuickSuggestions passes. */
  const QuickPreferences := Preferences(Some(["cardio", "fitness", "sports"]), None, Some(60.0))


  /** The `forEach` of getQuickSuggestions, for any amounts, keys, catalog
      and preferences: one entry per amount, under that amount's key. */
  method FillEntries(amounts: seq<nat>, keys: seq<string>, userProfile: UserProfile, catalog: seq<Activity>, p: Preferences)
    returns (quick: map<string, seq<ActivitySuggestion>>)
    requires PositiveRates(catalog) && userProfile.weight != 0.0
    requires |keys| == |amounts|
    requires forall k :: 0 <= k < |amounts| ==> QuickKey(amounts[k]) == keys[k]
    requires forall i, j :: 0 <= i < j < |keys| ==> keys[i] != keys[j]
    ensures quick.Keys == PrefixElements(keys, |keys|)
    ensures forall k :: 0 <= k < |keys| ==>
      quick[keys[k]] == TakeAtMost(TopSuggestions(catalog, amounts[k] as real, userProfile, p), 3)
  {
    quick := map[];
    var i := 0;
    while i < |amounts|
      invariant 0 <= i <= |amounts|
      invariant quick.Keys == PrefixElements(keys, i)
      invariant forall k :: 0 <= k < i ==>
        quick[keys[k]] == TakeAtMost(TopSuggestions(catalog, amounts[k] as real, userProfile, p), 3)
    {
      var calories := amounts[i];
      var suggestions := TopSuggestions(catalog, calories as real, userProfile, p);
      PrefixElementsStep(keys, i);
      var key := QuickKey(calories);
      assert key == keys[i];
      ghost var before := quick;
      quick := quick[key := TakeAtMost(suggestions, 3)];
      forall k | 0 <= k < i
        ensures quick[keys[k]] == TakeAtMost(TopSuggestions(catalog, amounts[k] as real, userProfile, p), 3)
      {
        assert keys[k] != keys[i];
        assert quick[keys[k]] == before[keys[k]];
      }
      i := i + 1;
    }
  }

  /** getQuickSuggestions: the first three suggestions for 100, 200, 300 and
      500 calories, under the keys "100cal" .. "500cal". */
  method GetQuickSuggestions(userProfile: UserProfile) returns (quick: map<string, seq<ActivitySuggestion>>)
    requires userProfile.weight != 0.0
    ensures quick.Keys == {"100cal", "200cal", "300cal", "500cal"}
    ensures forall k :: 0 <= k < |QuickKeys| ==>
      quick[QuickKeys[k]] == TakeAtMost(GetSuggestionsForCalories(CalorieAmounts[k] as real, userProfile, QuickPreferences), 3)
    ensures forall key :: key in quick ==> QuickEntryOk(quick[key])
  {
    QuickKeysRendered();
    ActivitiesPositive();
    quick := FillEntries(CalorieAmounts, QuickKeys, userProfile, Activities, QuickPreferences);
    QuickKeySet();
    QuickEntriesOk(quick, userProfile, Activities);
  }

  /** The four keys as a set. */
  lemma QuickKeySet()
    ensures PrefixElements(QuickKeys, |QuickKeys|) == {"100cal", "200cal", "300cal", "500cal"}
  {
    assert QuickKeys[..|QuickKeys|] == QuickKeys;
  }

  /** Every value filled from the four amounts satisfies QuickEntryOk. */
  lemma QuickEntriesOk(quick: map<string, seq<ActivitySuggestion>>, userProfile: UserProfile, catalog: seq<Activity>)
    requires PositiveRates(catalog) && userProfile.weight != 0.0
    requires quick.Keys == PrefixElements(QuickKeys, |QuickKeys|)
    requires forall k :: 0 <= k < |QuickKeys| ==>
      quick[QuickKeys[k]] == TakeAtMost(TopSuggestions(catalog, CalorieAmounts[k] as real, userProfile, QuickPreferences), 3)
    ensures forall key :: key in quick ==> QuickEntryOk(quick[key])
  {
    forall key | key in quick ensures QuickEntryOk(quick[key]) {
      assert key in QuickKeys[..|QuickKeys|];
      var k :| 0 <= k < |QuickKeys| && key == QuickKeys[k];
      QuickEntry(CalorieAmounts[k] as real, userProfile, catalog);
    }
  }

  /** What every value of the quick-suggestion record satisfies. */
  predicate QuickEntryOk(entry: seq<ActivitySuggestion>)
  {
    |entry| <= 3 && forall j :: 0 <= j < |entry| ==>
      entry[j].duration <= 60 && entry[j].activity.category in ["cardio", "fitness", "sports"]
  }

  /** At most three suggestions of at most 60 minutes from the three
      categories asked for. */
  lemma QuickEntry(calories: real, userProfile: UserProfile, catalog: seq<Activity>)
    requires PositiveRates(catalog) && userProfile.weight != 0.0
    ensures QuickEntryOk(TakeAtMost(TopSuggestions(catalog, calories, userProfile, QuickPreferences), 3))
  {
    assert CategoryFilterOn(QuickPreferences) && MaxDurationOn(QuickPreferences);
    FirstSuggestionsFollowPreferences(calories, userProfile, catalog, QuickPreferences, 3);
  }

  /** The first `n` suggestions pass an active category filter and an active
      maximum duration. */
  lemma FirstSuggestionsFollowPreferences(calories: real, userProfile: UserProfile, catalog: seq<Activity>, p: Preferences, n: nat)
    requires PositiveRates(catalog) && userProfile.weight != 0.0
    requires CategoryFilterOn(p) && MaxDurationOn(p)
    ensures var entry := TakeAtMost(TopSuggestions(catalog, calories, userProfile, p), n);
      forall j :: 0 <= j < |entry| ==>
        entry[j].duration as real <= p.maxDuration.value && entry[j].activity.category in p.categories.value
  {
    var all := TopSuggestions(catalog, calories, userProfile, p);
    var entry := TakeAtMost(all, n);
    TopSuggestionsProperties(catalog, calories, userProfile, p);
    forall j | 0 <= j < |entry|
      ensures entry[j].duration as real <= p.maxDuration.value && entry[j].activity.category in p.categories.value
    {
      assert entry[j] == all[j];
      assert ValidIn(all[j], catalog, calories, userProfile, p);
    }
  }
}
