# Calorie tracker core, modelled in Dafny

This project models the non-UI logic of a bilingual (English/Arabic) calorie
tracking web application. The parts modelled are:

- **Nutrition arithmetic** (`NutritionCalculator`):
  - portion scaling of per-100 g values;
  - meal totals;
  - Mifflin-St Jeor BMR, TDEE and the calorie goal;
  - macro goal bands, goal-progress percentages and the 0–100 quality score;
  - calories to burn, exercise calories, colour thresholds and water intake.
- **Activity matcher** (`ActivitySuggestions`): a twenty-entry activity catalog and the engine that works on it:
  - filters by preferences;
  - adjusts burn rates for body weight and computes a ceiling duration;
  - scores four factors and keeps the eight best;
  - builds the quick suggestions for 100, 200, 300 and 500 kcal.
- **Recognition simulator** (`FoodAnalysis`):
  - confidence tiers and their display percentage;
  - the random generators, with every `Math.random()` draw passed in as a parameter in [0, 1);
  - aggregation of the recognised foods;
  - the four-stage progress sequence;
  - the barcode table.
- **Food catalog** (`FoodDatabase`): the sixteen-food table, its invariants, and lookup by id, category and name.
- **Local store** (`Storage`): a class `StorageService` whose fields stand for the five localStorage keys:
  - optional profile, meal list, progress list, optional settings and the onboarding flag;
  - its methods change those fields as the original's methods change the stored values;
  - saving daily progress does an upsert, a descending sort and keeps 90 records;
  - date and week queries, statistics, and export, import and clear.
- **Dashboard** (`Dashboard`):
  - `loadDashboardData` as a method over the store: it reconciles the day's record with its meals, writes it back when the calories differ, and reads the week;
  - the quality label;
  - the remaining-calories and progress figures.

Modelling conventions:

- **Numbers.** JavaScript numbers are exact `real`s. Values that come out of `Math.round` or `Math.ceil` are `int`. `Math.round` is `Floor(x + 1/2)`: it rounds half up, toward +infinity (`JsMath`).
- **Dates.**
  - Date strings are integer UTC day numbers.
  - A meal timestamp is integer milliseconds; its day is `timestamp / 86400000`, floored.
  - Day 0 (1970-01-01) is a Thursday, so the weekday of day `d` is `(d + 4) % 7`.
- **Sorting.** JavaScript's `sort` is stable, so it is modelled as a stable insertion sort by an integer key (`SeqUtils.SortByKey`). A descending comparator becomes an ascending sort on the negated key.
- **Randomness and the clock.**
  - Each random draw is a parameter with `0 <= r < 1`.
  - The random-comparator shuffle of `getRandomFoods` is any permutation of the catalog indices.
  - "Today" and "now" are parameters.

`calculateNutrition` does not check the sign of `grams`. The model accepts any weight, as the code does, and proves non-negativity of the result for non-negative inputs.

## Model

| member | source | states |
|---|---|---|
| JsMath.Round | src/lib/nutritionCalculator.ts:8 | `Math.round(x)` is the integer within half a unit of `x`, with halves rounded up |
| JsMath.Ceil | src/lib/activitySuggestions.ts:264 | `Math.ceil(x)` is the least integer not below `x` |
| JsMath.Abs | src/lib/activitySuggestions.ts:331 | `Math.abs` is non-negative and equals `x` or `-x` |
| JsMath.Max | src/lib/nutritionCalculator.ts:171 | `Math.max(a, b)` is an upper bound of both and equals one of them |
| JsMath.Min | src/lib/activitySuggestions.ts:353 | `Math.min(a, b)` is a lower bound of both and equals one of them |
| JsMath.RoundOfInt | src/lib/nutritionCalculator.ts:74 | rounding an integer gives it back, so `Math.round(tdee)` is `tdee` |
| JsMath.RoundShift | src/lib/nutritionCalculator.ts:70-72 | rounding commutes with adding an integer, so `Math.round(tdee ± 500)` is `tdee ± 500` |
| JsMath.RoundMonotone | src/lib/nutritionCalculator.ts:87-101 | `Math.round` never decreases |
| JsMath.CeilMonotone | src/lib/activitySuggestions.ts:264 | `Math.ceil` never decreases |
| SeqUtils.Filter | src/lib/storage.ts:145-147 | `filter` keeps exactly the satisfying elements, in their order |
| SeqUtils.FilterMultiplicity | src/lib/storage.ts:107 | `filter` keeps every satisfying element as often as it occurs and drops the rest |
| SeqUtils.TakeAtMost | src/lib/storage.ts:125 | `slice(0, n)` is the prefix of length `min(n, length)` |
| SeqUtils.FindIndex | src/lib/storage.ts:114 | `findIndex` is the first satisfying index, and is -1 exactly when no element satisfies |
| SeqUtils.SortByKey | src/lib/storage.ts:123-124 | the sort returns a permutation of its input, ordered by the key; its stability is stated by SortStable |
| SeqUtils.InsertStable | src/lib/storage.ts:123-124 | an inserted element goes in front of every element of its own key and changes the order of no other key |
| SeqUtils.SortStable | src/lib/storage.ts:123-124 | the sort is stable: for every key, the elements with that key keep their relative order |
| SeqUtils.SortedMemberInPrefix | src/lib/storage.ts:123-125 | after a sort by distinct keys, an element is among the first `n` exactly when fewer than `n` elements have a smaller key |
| SeqUtils.Lower | src/data/foodDatabase.ts:332 | `toLowerCase` maps each character, and only A–Z change |
| FoodDatabase.FoodsWellFormed | src/data/foodDatabase.ts:4-295 | the table has sixteen foods, each with non-negative nutrition values and at least one portion, all portions with grams > 0 |
| FoodDatabase.FoodIdsDistinct | src/data/foodDatabase.ts:4-295 | no two foods share an id |
| FoodDatabase.FindById | src/data/foodDatabase.ts:326-328 | `find` by id gives nothing exactly when no entry has the id, and otherwise the first entry with it |
| FoodDatabase.GetFoodById | src/data/foodDatabase.ts:326-328 | getFoodById gives the first catalog entry with the id, or nothing when there is none |
| FoodDatabase.FoundFoodWellFormed | src/data/foodDatabase.ts:326-328 | whatever getFoodById finds has non-negative values and a positive portion |
| FoodDatabase.GetFoodByIdFindsEveryEntry | src/data/foodDatabase.ts:326-328 | every catalog entry is found by its own id |
| FoodDatabase.GetFoodsByCategory | src/data/foodDatabase.ts:340-342 | "all" gives the whole table; any other category gives exactly its entries, in table order |
| FoodDatabase.SearchFoods | src/data/foodDatabase.ts:331-337 | the result is exactly the entries whose lower-cased name, in the chosen language, contains the lower-cased query, in table order |
| FoodDatabase.SearchEmptyQuery | src/data/foodDatabase.ts:331-337 | an empty query returns the whole table |
| NutritionCalculator.RoundTenthNear | src/lib/nutritionCalculator.ts:9 | `Math.round(x * 10) / 10` is a multiple of 0.1 within half a tenth of `x` |
| NutritionCalculator.ScaleWhole | src/lib/nutritionCalculator.ts:8 | a value scaled to `grams` and rounded is the whole number nearest `v * grams / 100` |
| NutritionCalculator.ScaleTenth | src/lib/nutritionCalculator.ts:9-13 | a value scaled to `grams` and rounded is the tenth nearest `v * grams / 100` |
| NutritionCalculator.CalculateNutrition | src/lib/nutritionCalculator.ts:4-16 | calories and sodium are the whole numbers, and the five macros the tenths, nearest to the per-100 g value times grams / 100 |
| NutritionCalculator.CalculateNutritionZeroGrams | src/lib/nutritionCalculator.ts:4-16 | a portion of 0 g is all zeros |
| NutritionCalculator.ScaleNonNegative | src/lib/nutritionCalculator.ts:8-14 | a non-negative value scaled by a non-negative weight stays non-negative after either rounding |
| NutritionCalculator.CalculateNutritionNonNegative | src/lib/nutritionCalculator.ts:4-16 | a non-negative food at a non-negative weight has no negative field |
| NutritionCalculator.SumByConcat | src/lib/foodAnalysis.ts:35-46 | the unrounded reduce over a concatenation is the sum of the two reduces |
| NutritionCalculator.SumBySnoc | src/lib/foodAnalysis.ts:35-46 | one more item adds its nutrition to the unrounded reduce |
| NutritionCalculator.AddSwap | src/lib/foodAnalysis.ts:35-46 | adding two records in either order gives the same total |
| NutritionCalculator.SumByRemove | src/lib/foodAnalysis.ts:35-46 | taking an item out of the unrounded reduce and adding it last gives the same total |
| NutritionCalculator.SumByPermutation | src/lib/foodAnalysis.ts:35-46 | the unrounded reduce does not depend on the order of the items |
| NutritionCalculator.RoundTenthAfterTenths | src/lib/nutritionCalculator.ts:22-26 | rounding to a tenth after adding a multiple of 0.1 equals adding it after rounding |
| NutritionCalculator.TenthsAdd | src/lib/nutritionCalculator.ts:22-26 | the sum of two multiples of 0.1 is one |
| NutritionCalculator.TotalIsSumOfRoundedItems | src/lib/nutritionCalculator.ts:19-37 | the fold that rounds at every step equals the exact sum of the items with their macros rounded to a tenth, and every macro of the total is a multiple of 0.1 |
| NutritionCalculator.TotalNutritionProperties | src/lib/nutritionCalculator.ts:19-37 | an empty list totals all zeros; calories and sodium are the exact sums; the total does not depend on the order of the list |
| NutritionCalculator.CaloriesAndSodiumUnrounded | src/lib/nutritionCalculator.ts:19-37 | calories and sodium of the total are not rounded |
| NutritionCalculator.TotalOfTenthsIsExact | src/lib/nutritionCalculator.ts:19-37 | for inputs already on the 0.1 grid, the rounding fold is the exact sum |
| NutritionCalculator.SameSum | src/lib/nutritionCalculator.ts:19-37 | rounding macros that are already multiples of 0.1 leaves the sum unchanged |
| NutritionCalculator.ScaledIsTenths | src/lib/nutritionCalculator.ts:4-16 | calculateNutrition's macros are already on the 0.1 grid, so totalling its results rounds nothing away |
| NutritionCalculator.TenthsRoundToThemselves | src/lib/nutritionCalculator.ts:22-26 | a multiple of 0.1 rounds to itself |
| NutritionCalculator.BmrGenderGap | src/lib/nutritionCalculator.ts:40-48 | the male formula exceeds the female one by exactly 166 kcal |
| NutritionCalculator.BmrMonotone | src/lib/nutritionCalculator.ts:40-48 | BMR grows with weight and height and falls with age |
| NutritionCalculator.TdeeMonotoneInActivity | src/lib/nutritionCalculator.ts:51-62 | for a non-negative BMR, TDEE never decreases as the activity level rises |
| NutritionCalculator.CalorieGoalOffsets | src/lib/nutritionCalculator.ts:65-77 | the goal is TDEE - 500 to lose, TDEE to maintain and TDEE + 500 to gain |
| NutritionCalculator.EnergyExample | src/lib/nutritionCalculator.ts:40-77 | a 30-year-old male of 70 kg and 175 cm, moderately active: BMR 1648.75, TDEE 2556, goals 2056, 2556 and 3056 |
| NutritionCalculator.MacroGoalsShape | src/lib/nutritionCalculator.ts:80-103 | the goals echo the calories, sodium is 2300 and fiber is round(c / 1000 * 14); for c >= 0 every band has min <= max |
| NutritionCalculator.MacroGoalsExample | src/lib/nutritionCalculator.ts:80-103 | at 2000 kcal: protein 100..150 g, carbs 180..270 g, fat 53..80 g, fiber 28 g |
| NutritionCalculator.GoalProgressNearRatio | src/lib/nutritionCalculator.ts:106-122 | each percentage is within half a percent of the intake's exact ratio to its target: a single target for calories, fiber and sodium, the band midpoint for the macros |
| NutritionCalculator.GoalProgressAtTargets | src/lib/nutritionCalculator.ts:106-122 | intake on every target reads 100 % everywhere, and twice the calories reads 200 %, so nothing is clamped |
| NutritionCalculator.ProgressEntries | src/lib/nutritionCalculator.ts:144 | `Object.entries(progress)` has six entries |
| NutritionCalculator.ComponentScoreBounds | src/lib/nutritionCalculator.ts:145-160 | each component score lies in 0..100 |
| NutritionCalculator.SumScoresBounds | src/lib/nutritionCalculator.ts:144-164 | the summed scores lie between 0 and 100 per component |
| NutritionCalculator.SumScoresAllIdeal | src/lib/nutritionCalculator.ts:144-164 | components that are all in their ideal bands sum to 100 each |
| NutritionCalculator.QualityScoreProperties | src/lib/nutritionCalculator.ts:125-167 | the score is in 0..100, and is 100 when every percentage lies in its ideal band, in particular when intake is on every target |
| NutritionCalculator.GetNutritionQualityScore | src/lib/nutritionCalculator.ts:125-167 | the `forEach` accumulation returns the rounded mean of the six component scores, which lies in 0..100 |
| NutritionCalculator.CalculateCaloriesToBurn | src/lib/nutritionCalculator.ts:170-172 | the excess of consumed over goal, and 0 when there is none |
| NutritionCalculator.ExerciseCaloriesNearExact | src/lib/nutritionCalculator.ts:175-182 | the estimate is within half a kcal of MET × kg × minutes / 60, and is non-negative for non-negative inputs |
| NutritionCalculator.NutritionColorProperties | src/lib/nutritionCalculator.ts:185-204 | sodium is green exactly up to 50 % of the goal and red exactly above 75 %, and more sodium never gets a better colour; calories are green exactly within 90–110 % of the goal and red exactly outside 80–120 %; macros are green exactly within 80–120 % and red exactly outside 60–140 % |
| NutritionCalculator.GetWaterIntakeRecommendation | src/lib/nutritionCalculator.ts:219-221 | 1 ml per kcal, at least 2000 ml |
| NutritionCalculator.CalculateTotalNutrition | src/lib/nutritionCalculator.ts:19-37 | the rounding `reduce`; its properties are stated by TotalIsSumOfRoundedItems and TotalNutritionProperties |
| NutritionCalculator.CalculateBmr | src/lib/nutritionCalculator.ts:40-48 | Mifflin-St Jeor; its properties are stated by BmrGenderGap, BmrMonotone and EnergyExample |
| NutritionCalculator.CalculateTdee | src/lib/nutritionCalculator.ts:51-62 | round(BMR × multiplier); its properties are stated by TdeeMonotoneInActivity and EnergyExample |
| NutritionCalculator.CalculateCalorieGoal | src/lib/nutritionCalculator.ts:65-77 | the goal by objective; its properties are stated by CalorieGoalOffsets and EnergyExample |
| NutritionCalculator.CalculateMacroGoals | src/lib/nutritionCalculator.ts:80-103 | the macro bands; their properties are stated by MacroGoalsShape and MacroGoalsExample |
| NutritionCalculator.CalculateGoalProgress | src/lib/nutritionCalculator.ts:106-122 | the six percentages; their properties are stated by GoalProgressNearRatio and GoalProgressAtTargets |
| NutritionCalculator.ComponentScore | src/lib/nutritionCalculator.ts:145-160 | the score of one component; its range is stated by ComponentScoreBounds |
| NutritionCalculator.QualityScore | src/lib/nutritionCalculator.ts:125-167 | the rounded mean of the component scores; stated by QualityScoreProperties, and GetNutritionQualityScore computes it |
| NutritionCalculator.CalculateExerciseCalories | src/lib/nutritionCalculator.ts:175-182 | round(MET × kg × hours); stated by ExerciseCaloriesNearExact |
| NutritionCalculator.GetNutritionColor | src/lib/nutritionCalculator.ts:185-204 | the sodium, calorie and macro colour thresholds; stated as if-and-only-ifs by NutritionColorProperties |
| ActivitySuggestions.ActivitiesPositive | src/lib/activitySuggestions.ts:4-216 | the catalog has twenty activities, all with a positive burn rate |
| ActivitySuggestions.AdjustProperties | src/lib/activitySuggestions.ts:294-299 | at 70 kg the rate is the catalog rate; a positive rate and weight give a positive rate; the rate grows with weight |
| ActivitySuggestions.DurationProperties | src/lib/activitySuggestions.ts:264 | at a positive rate the duration covers the target, one minute less does not, and the duration never decreases as the target grows |
| ActivitySuggestions.PreferredIntensitiesByLevel | src/lib/activitySuggestions.ts:357-370 | sedentary prefers {low}, lightly active {low, medium}, moderately active {medium}, very active {medium, high} |
| ActivitySuggestions.MatchPercentage | src/lib/activitySuggestions.ts:302-354 | with four factors, `round(score / 4 * 4)` is the factor sum, so the match is that sum capped at 100 and lies in 50..100 |
| ActivitySuggestions.CalculateMatchPercentage | src/lib/activitySuggestions.ts:302-354 | the method adding up the four factors returns MatchPercentage, in 50..100 |
| ActivitySuggestions.FilterByPreferences | src/lib/activitySuggestions.ts:240-253 | exactly the activities passing an active category filter and an active intensity filter, in catalog order |
| ActivitySuggestions.FilteredActivities | src/lib/activitySuggestions.ts:240-253 | the same filters on the catalog; every activity kept has a positive rate |
| ActivitySuggestions.NoFiltersKeepCatalog | src/lib/activitySuggestions.ts:243-253 | absent or empty category and intensity lists filter nothing |
| ActivitySuggestions.Candidates | src/lib/activitySuggestions.ts:256-285 | the `map` and `filter(Boolean)`: one suggestion for each activity whose duration is within the maximum, and nothing else |
| ActivitySuggestions.Ranked | src/lib/activitySuggestions.ts:288-289 | the sorted suggestions are a permutation of the candidates, ordered by non-increasing match |
| ActivitySuggestions.RankedStable | src/lib/activitySuggestions.ts:288-289 | suggestions of equal match keep their catalog order in the ranking, which decides which of them make the first eight |
| ActivitySuggestions.TopSuggestions | src/lib/activitySuggestions.ts:288-290 | the result is the first `min(8, n)` of the ranking |
| ActivitySuggestions.CandidateFromCatalog | src/lib/activitySuggestions.ts:240-285 | every candidate's activity is in the catalog and passes the filters |
| ActivitySuggestions.CandidateWithinLimits | src/lib/activitySuggestions.ts:267-277 | a suggestion respects an active maximum duration and has a match in 50..100 |
| ActivitySuggestions.CandidateDuration | src/lib/activitySuggestions.ts:258-284 | a suggestion's duration is the ceiling of target / adjusted rate, and its total is round(adjusted rate × duration) |
| ActivitySuggestions.CandidateValid | src/lib/activitySuggestions.ts:256-285 | every candidate satisfies all of the above |
| ActivitySuggestions.TopSuggestionsProperties | src/lib/activitySuggestions.ts:231-291 | from any catalog: at most 8 suggestions, ordered by non-increasing match, each valid |
| ActivitySuggestions.SuggestionsProperties | src/lib/activitySuggestions.ts:231-291 | getSuggestionsForCalories gives at most 8 valid suggestions, ordered by non-increasing match |
| ActivitySuggestions.PrefixDominates | src/lib/activitySuggestions.ts:288-290 | in a prefix of a list ordered by match, an element left out matches no better than any element kept |
| ActivitySuggestions.TopSuggestionsAreBest | src/lib/activitySuggestions.ts:288-290 | from any catalog, a candidate is either returned or matches no better than every returned suggestion |
| ActivitySuggestions.SuggestionsAreTopEight | src/lib/activitySuggestions.ts:231-291 | a candidate left out of getSuggestionsForCalories matches no better than any suggestion returned |
| ActivitySuggestions.GetActivitiesByCategory | src/lib/activitySuggestions.ts:373-376 | "all" gives the catalog; any other category gives exactly its activities, in catalog order |
| ActivitySuggestions.SearchActivities | src/lib/activitySuggestions.ts:379-387 | exactly the activities whose lower-cased name or description contains the lower-cased query, in catalog order |
| ActivitySuggestions.QuickKeysRendered | src/lib/activitySuggestions.ts:391-395 | `${calories}cal` of 100, 200, 300 and 500 gives the four distinct keys |
| ActivitySuggestions.FillEntries | src/lib/activitySuggestions.ts:394-400 | the `forEach` fills one key per amount, each with the first three suggestions for that amount |
| ActivitySuggestions.GetQuickSuggestions | src/lib/activitySuggestions.ts:390-403 | the keys are exactly 100cal, 200cal, 300cal and 500cal; each value is the first three suggestions for its amount, with at most 60 minutes and category cardio, fitness or sports |
| ActivitySuggestions.QuickEntriesOk | src/lib/activitySuggestions.ts:394-400 | every filled value has at most three suggestions within the quick limits |
| ActivitySuggestions.QuickEntry | src/lib/activitySuggestions.ts:395-399 | the first three suggestions under the quick preferences last at most 60 minutes and are cardio, fitness or sports |
| ActivitySuggestions.FirstSuggestionsFollowPreferences | src/lib/activitySuggestions.ts:243-269 | under an active category filter and maximum duration, any prefix of the suggestions keeps both |
| ActivitySuggestions.AdjustCaloriesForWeight | src/lib/activitySuggestions.ts:294-299 | rate × weight / 70; stated by AdjustProperties |
| ActivitySuggestions.DurationFor | src/lib/activitySuggestions.ts:264 | the ceiling duration; stated by DurationProperties |
| ActivitySuggestions.GetPreferredIntensities | src/lib/activitySuggestions.ts:357-370 | the switch; stated by PreferredIntensitiesByLevel |
| ActivitySuggestions.Candidate | src/lib/activitySuggestions.ts:256-285 | the suggestion for one activity, or nothing over the maximum duration; stated by CandidateWithinLimits and CandidateDuration |
| ActivitySuggestions.GetSuggestionsForCalories | src/lib/activitySuggestions.ts:231-291 | the filter, map, sort and slice pipeline; stated by SuggestionsProperties and SuggestionsAreTopEight |
| FoodAnalysis.ConfidenceLevelBands | src/lib/foodAnalysis.ts:133-138 | very high exactly for >= 0.90, high for [0.75, 0.90), medium for [0.60, 0.75), low below 0.60; the tier is monotone in confidence |
| FoodAnalysis.GetConfidenceDisplay | src/lib/foodAnalysis.ts:141-165 | the display's tier is getConfidenceLevel and its percentage is round(c × 100) |
| FoodAnalysis.ConfidenceDisplayBounds | src/lib/foodAnalysis.ts:141-143 | a confidence in [0, 1] displays as 0..100 %, monotone in confidence |
| FoodAnalysis.RealisticConfidenceRange | src/lib/foodAnalysis.ts:89-106 | for draws in [0, 1) the confidence lies in [0.45, 0.98), and its tier is the branch the first draw took |
| FoodAnalysis.RecognitionCountRange | src/lib/foodAnalysis.ts:63 | `1 + floor(r × 3)` is 1..3 |
| FoodAnalysis.GetRandomFoods | src/lib/foodAnalysis.ts:83-86 | the first `min(count, 16)` catalog entries in the shuffled order |
| FoodAnalysis.RandomFoodsDistinct | src/lib/foodAnalysis.ts:83-86 | the chosen foods are distinct catalog entries with distinct ids |
| FoodAnalysis.DrawIndex | src/lib/foodAnalysis.ts:113-115 | `floor(r × n)` is a valid index into `n` portions |
| FoodAnalysis.VariedPortion | src/lib/foodAnalysis.ts:113-119 | the result is `Math.round(p.grams * v)` for one of the food's declared portions `p` and some `v` in [0.8, 1.2); it lies between round(0.8 × p.grams) and round(1.2 × p.grams) and is non-negative |
| FoodAnalysis.GeneratePortionSize | src/lib/foodAnalysis.ts:109-120 | 100 g for an unknown id; otherwise `Math.round(p.grams * v)` for a declared portion `p` of that food and some `v` in [0.8, 1.2); never negative |
| FoodAnalysis.BoundingBoxRange | src/lib/foodAnalysis.ts:123-130 | x and y lie in [0, 0.3), width and height in [0.2, 0.7) |
| FoodAnalysis.Recognize | src/lib/foodAnalysis.ts:65-79 | a record carries the food's id and names, and nutrition computed for its estimated grams |
| FoodAnalysis.GenerateMockRecognition | src/lib/foodAnalysis.ts:62-80 | one record for each of the one to three foods chosen, in order |
| FoodAnalysis.SumConfidenceBounds | src/lib/foodAnalysis.ts:50 | the sum of confidences within [lo, hi) lies within the count times those bounds |
| FoodAnalysis.AggregateProperties | src/lib/foodAnalysis.ts:35-58 | with no foods the total is all zeros and confidence 0; otherwise the mean confidence lies within the items' bounds |
| FoodAnalysis.AggregateOrderIndependent | src/lib/foodAnalysis.ts:35-46 | the unrounded total does not depend on the order of the foods |
| FoodAnalysis.AnalyzeFoodImageProperties | src/lib/foodAnalysis.ts:27-59 | one to three foods with distinct ids, non-negative weights and an overall confidence in [0.45, 0.98) |
| FoodAnalysis.AnalyzeWithProgress | src/lib/foodAnalysis.ts:168-207 | four states, uploading, processing, analyzing and complete, with progress 20, 40, 80 and 100, strictly increasing; isAnalyzing is true for all but the last |
| FoodAnalysis.ScanBarcode | src/lib/foodAnalysis.ts:210-252 | a product exactly for the two known codes, carrying the scanned code; nothing otherwise |
| FoodAnalysis.ScanBarcodeProducts | src/lib/foodAnalysis.ts:214-249 | the two products' names and sample nutrition values, and nothing for an unknown code |
| FoodAnalysis.GetConfidenceLevel | src/lib/foodAnalysis.ts:133-138 | the confidence tier; stated by ConfidenceLevelBands |
| FoodAnalysis.GenerateRealisticConfidence | src/lib/foodAnalysis.ts:89-106 | the weighted confidence draw; stated by RealisticConfidenceRange |
| FoodAnalysis.RecognitionCount | src/lib/foodAnalysis.ts:63 | `1 + Math.floor(r * 3)`; stated by RecognitionCountRange |
| FoodAnalysis.GenerateBoundingBox | src/lib/foodAnalysis.ts:123-130 | the box from four draws; stated by BoundingBoxRange |
| FoodAnalysis.AggregateAnalysis | src/lib/foodAnalysis.ts:35-58 | the unrounded total and mean confidence; stated by AggregateProperties and AggregateOrderIndependent |
| FoodAnalysis.AnalyzeFoodImage | src/lib/foodAnalysis.ts:27-59 | recognition followed by aggregation; stated by AnalyzeFoodImageProperties |
| Storage.DayOf | src/lib/storage.ts:83 | a timestamp's UTC day is the day whose 86 400 000 ms interval contains it |
| Storage.MergeProfile | src/lib/storage.ts:64 | `{ ...current, ...updates }`: a present field overrides, an absent one is kept |
| Storage.MergeMeal | src/lib/storage.ts:100 | the same spread on a meal entry |
| Storage.MergeSettings | src/lib/storage.ts:169 | the same spread on the settings |
| Storage.MergeLaws | src/lib/storage.ts:61-67 | an empty update changes nothing, and applying the same update twice equals applying it once |
| Storage.SettingsOrDefault | src/lib/storage.ts:156-165 | the stored settings, or {en, system, true, true, true, false} when none are stored |
| Storage.UpdatedMeals | src/lib/storage.ts:96-103 | same length; unchanged without the id; otherwise only the first entry with the id is merged |
| Storage.DeletedMeals | src/lib/storage.ts:105-109 | every entry with the id removed; the others kept with their multiplicity and order |
| Storage.Upsert | src/lib/storage.ts:114-120 | the record is present, and every other element was already stored |
| Storage.SavedProgressShape | src/lib/storage.ts:112-128 | at most 90 records, sorted by descending date, all drawn from the old list plus the new record |
| Storage.UpsertDistinct | src/lib/storage.ts:114-120 | with distinct dates, the upsert keeps the dates distinct and drops only the old record of the same date |
| Storage.UpsertNewerCount | src/lib/storage.ts:114-120 | the upsert does not change how many records are newer than the saved one |
| Storage.SavedProgressReplaces | src/lib/storage.ts:112-128 | with distinct dates, a same-date record is replaced, not duplicated |
| Storage.SavedProgressKeepsNew | src/lib/storage.ts:112-128 | with distinct dates, the saved record is kept exactly when fewer than 90 stored records are newer |
| Storage.SavedProgressKeepsOthers | src/lib/storage.ts:122-125 | with distinct dates, a stored record of another date is kept exactly when fewer than 90 records of the upserted list are newer, so the 90 newest days survive |
| Storage.SavedProgressKeepsAllWhenFew | src/lib/storage.ts:122-125 | with at most 90 records after the upsert, the saved list holds exactly the upserted records, each as often |
| Storage.UpsertKeepsOther | src/lib/storage.ts:114-120 | a stored record of another date survives the upsert |
| Storage.UpsertKeptInPrefix | src/lib/storage.ts:114-125 | the same statement for a retention of any length |
| Storage.WeekWindow | src/lib/storage.ts:139-149 | filter then sort keeps exactly the records of the seven days, as often as stored, in ascending date order |
| Storage.TotalConsumedBounds | src/lib/storage.ts:194 | the total of consumed calories lies between the count times the least and the greatest |
| Storage.AverageCaloriesBounds | src/lib/storage.ts:194-229 | the average is 0 without records, and otherwise lies between the rounded least and greatest |
| Storage.FirstIndexOf | src/lib/storage.ts:203-204 | the first index of a type, or the length without one |
| Storage.CountType | src/lib/storage.ts:198-201 | the number of entries of the given type, at most the number of entries |
| Storage.CountTypePositive | src/lib/storage.ts:198-201 | a type's count is positive exactly when some entry has it |
| Storage.Dates | src/lib/storage.ts:208-209 | the record dates in record order, one per record |
| Storage.SortedDatesDesc | src/lib/storage.ts:208-210 | the dates sorted in descending order, a permutation of the record dates |
| Storage.Streak | src/lib/storage.ts:207-224 | the number of leading dates that equal today, yesterday and so on; the next date breaks the run |
| Storage.StreakNeedsToday | src/lib/storage.ts:207-224 | without a record for today the streak is 0 |
| Storage.Exported | src/lib/storage.ts:236-246 | the export holds the profile, meals and progress as stored, and the settings as getAppSettings reports them |
| Storage.Imported | src/lib/storage.ts:248-262 | each present section overwrites its store section and the others are untouched |
| Storage.ExportClearImport | src/lib/storage.ts:236-269 | export, clear and import give back meals, progress and the profile, and the settings as reported; a second export equals the first |
| Storage.CountStep | src/lib/storage.ts:199-201 | one loop step increments the entry type's count, adding the type in first-appearance order when it is new |
| Storage.CountStepNew | src/lib/storage.ts:199-201 | the step for a type not counted yet |
| Storage.CountMealTypes | src/lib/storage.ts:198-201 | the `forEach` leaves each type's number of entries, with the types in order of first appearance |
| Storage.PickMostLogged | src/lib/storage.ts:203-204 | the head of the stable descending sort: the first type with the largest count, or breakfast without one |
| Storage.MostLoggedMealType | src/lib/storage.ts:198-204 | breakfast without entries; otherwise a type with the largest count, with ties going to the type logged first |
| Storage.MostLoggedFacts | src/lib/storage.ts:198-204 | the pick from the counts is the most logged meal type |
| Storage.MostLoggedIsMax | src/lib/storage.ts:203-204 | no type has a larger count than the pick |
| Storage.MostLoggedTie | src/lib/storage.ts:203-204 | a type tied with the pick first appears after it |
| Storage.StreakDays | src/lib/storage.ts:207-224 | the `for` loop with `break` counts Streak |
| Storage.StorageService.constructor | src/lib/storage.ts:16 | the store starts empty |
| Storage.StorageService.SaveUserProfile | src/lib/storage.ts:53-55 | the profile is set; nothing else changes |
| Storage.StorageService.UpdateUserProfile | src/lib/storage.ts:61-67 | merges into an existing profile; a no-op without one |
| Storage.StorageService.SaveMealEntry | src/lib/storage.ts:70-74 | the meal list becomes the old list followed by the entry |
| Storage.StorageService.GetMealEntriesByDate | src/lib/storage.ts:80-86 | exactly the entries of that UTC day, as often as stored, in stored order |
| Storage.StorageService.GetMealEntriesByDateRange | src/lib/storage.ts:88-94 | exactly the entries whose day lies in [start, end], in stored order |
| Storage.StorageService.UpdateMealEntry | src/lib/storage.ts:96-103 | the meal list becomes UpdatedMeals; nothing else changes |
| Storage.StorageService.DeleteMealEntry | src/lib/storage.ts:105-109 | the meal list becomes DeletedMeals; nothing else changes |
| Storage.StorageService.SaveDailyProgress | src/lib/storage.ts:112-128 | the progress list becomes SavedProgress; nothing else changes |
| Storage.StorageService.GetDailyProgressByDate | src/lib/storage.ts:134-137 | the first record of the date, or nothing exactly when there is none |
| Storage.StorageService.GetWeeklyProgress | src/lib/storage.ts:139-149 | exactly the records dated in [s, s + 6], as often as stored, in ascending date order |
| Storage.StorageService.SaveAppSettings | src/lib/storage.ts:152-154 | the settings are set; nothing else changes |
| Storage.StorageService.GetAppSettings | src/lib/storage.ts:156-165 | the stored settings or the defaults |
| Storage.StorageService.UpdateAppSettings | src/lib/storage.ts:167-171 | the updated fields are set on the settings as reported; the others are kept |
| Storage.StorageService.SetOnboardingComplete | src/lib/storage.ts:174-176 | the flag is set; nothing else changes |
| Storage.StorageService.GetStatistics | src/lib/storage.ts:183-233 | meal and day counts, rounded average, most logged type with its tie rule, and the streak from today |
| Storage.StorageService.ExportData | src/lib/storage.ts:236-246 | the export document of the current state |
| Storage.StorageService.ImportData | src/lib/storage.ts:248-262 | false with no change when the text fails to parse or parses to `null`; otherwise true, with every present (truthy) section overwriting its store section and the others untouched |
| Storage.StorageService.ClearAllData | src/lib/storage.ts:265-269 | every section is removed |
| Storage.SavedProgress | src/lib/storage.ts:112-128 | upsert, descending sort, first 90; stated by SavedProgressShape, SavedProgressReplaces, SavedProgressKeepsNew, SavedProgressKeepsOthers and SavedProgressKeepsAllWhenFew |
| Storage.TotalConsumed | src/lib/storage.ts:194 | the sum of consumed calories; stated by TotalConsumedBounds |
| Storage.AverageCalories | src/lib/storage.ts:194-229 | the rounded mean, 0 without records; stated by AverageCaloriesBounds |
| Dashboard.DayTotalProperties | src/app/dashboard/page.tsx:111-122 | no meals give all zeros; each meal adds its nutrition unrounded; the total does not depend on the meals' order |
| Dashboard.CaloriesGoalFor | src/app/dashboard/page.tsx:124 | calculateCalorieGoal of the profile, or 2000 without one |
| Dashboard.Reconcile | src/app/dashboard/page.tsx:126-140 | a write happens exactly when no record exists or its calories differ from the meals' sum; a write sets consumed calories, nutrition and meals; no write returns the stored record; a new record gets the date and the profile's goal, while an existing one keeps its date, goal and activities |
| Dashboard.DayRecordMatchesMeals | src/app/dashboard/page.tsx:126-140 | afterwards the store holds a record of the day whose calories are the meals' sum, unless 90 newer records push it out |
| Dashboard.Weekday | src/app/dashboard/page.tsx:146 | `getDay()` lies in 0..6 |
| Dashboard.WeekStartProperties | src/app/dashboard/page.tsx:145-147 | the week start is the Sunday on or before the day, its window holds the day, and it is its own week start |
| Dashboard.LoadDashboardData | src/app/dashboard/page.tsx:102-150 | returns the stored profile and the reconciled record; the store changes by saveDailyProgress exactly when Reconcile asks for a write; the weekly data are the records of the day's week |
| Dashboard.QualityScoreLabel | src/app/dashboard/page.tsx:168-173 | excellent exactly for >= 85, good for 70..84, fair for 50..69, needs improvement below 50 |
| Dashboard.QualityLabelMonotone | src/app/dashboard/page.tsx:168-173 | a higher score never gets a lower label |
| Dashboard.CaloriesRemaining | src/app/dashboard/page.tsx:192-194 | goal minus consumed when that is positive, 0 otherwise and without a record |
| Dashboard.CaloriesProgress | src/app/dashboard/page.tsx:196-198 | 0 without a record; at most 100; for a positive goal, consumed / goal × 100 below the goal and exactly 100 from the goal on, and non-negative for non-negative intake |
| Dashboard.DayTotal | src/app/dashboard/page.tsx:111-122 | the unrounded reduce over the day's meals; stated by DayTotalProperties |
| Dashboard.WeekStart | src/app/dashboard/page.tsx:145-147 | the day minus its weekday; stated by WeekStartProperties |

## Left out

- The React components, JSX, hooks, state setters, display text and colour classes are not modelled. This includes the `useMemo` computations of the dashboard's goals, goal progress and quality score (src/app/dashboard/page.tsx:153-166). Those are calls of functions that are modelled.
- The singleton `getInstance` accessors of the three services and the module-level helper functions that forward to them are not modelled. The helpers are `saveUserProfile`, `getUserProfile`, `analyzeFoodImage`, `getSuggestionsForCalories` and `getQuickSuggestions`.
- `getUserProfile`, `getMealEntries`, `getDailyProgress` and `isOnboardingComplete` read the fields of `StorageService` directly. An absent key is an empty list, no profile, or `false`.
- localStorage and JSON text are not modelled. Each key is a field. `setItem`, `getItem` and `removeItem` always succeed, so their caught exceptions are not modelled. In `importData`, text that fails to parse or parses to `null` is the input `None`; any other parsed value is an `ImportDoc` whose missing or falsy sections are `None` (so a number or a string imports nothing and reports `true`). A truthy section of the wrong shape (say `mealEntries: 5`) is outside the types and is not modelled.
- `delay`, the random delays, `processTime`, `generateId` and `getTodayDateString` are not modelled: they are time or randomness. `processTime` is a parameter, and today's date is passed to `GetStatistics`.
- Time zones are not modelled. All dates are UTC day numbers, and the local `setDate` arithmetic of getWeeklyProgress, the streak loop and the dashboard week start becomes exact day arithmetic; comparing date strings becomes comparing day numbers. This matches the source only in a browser running in UTC. West of UTC, `new Date('2024-01-17')` falls on the previous local evening, so the dashboard week starts on a Monday. Across a daylight-saving change, the seven-day window of getWeeklyProgress can miss its last day and the streak loop can step over a day and end the streak early.
- Floating point is not modelled: arithmetic is exact. Division by zero, which JavaScript turns into Infinity or NaN, is excluded by requires. This affects a weight of 0 (ActivitySuggestions), zero goal targets (`GoalsDivisible`), a goal of 0 (`GetNutritionColor`) and a record whose calorie goal is 0 (`Dashboard.CaloriesProgress`).
- Dashboard.CaloriesProgress: does not model a record whose calorie goal is 0, because JavaScript gives Infinity or NaN there.
- ActivitySuggestions.GetSuggestionsForCalories: states no contract of its own. Its properties are SuggestionsProperties and SuggestionsAreTopEight.
- Lower-casing covers A–Z only. Arabic letters have no case, but other non-ASCII letters are not folded as `toLowerCase` would fold them.
- `formatNutritionValue` (`toFixed` text) and the display text of `getConfidenceDisplay` are not modelled. The `activityCategories` and `foodCategories` label tables are not modelled either.
- Default arguments are not modelled as defaults: callers pass them explicitly. These are `complete = true` of `setOnboardingComplete`, `type = 'macro'` of `getNutritionColor` and `language = 'en'` of `searchFoods` and `searchActivities`.
- `scanBarcode` is a lookup in its two-entry table. Keys inherited by a JavaScript object (such as `constructor`) would also be found there; the model does not capture that.
- The random-comparator sort of `getRandomFoods` is modelled as an arbitrary permutation. Its actual (biased) distribution is not.
- The dashboard overwrites the fields of the progress object in place. The model builds the updated record as a value; nothing else holds the object.
- A failure of `loadDashboardData` has no error path in the model, because no modelled step can fail.

Types used throughout mirror src/types/index.ts. The entity datatypes are in `types.dfy` and the store state is in `Storage`.
