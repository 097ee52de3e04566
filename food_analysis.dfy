/** The food-recognition simulator (src/lib/foodAnalysis.ts). Every
    `Math.random()` draw is an explicit parameter; the property that a draw
    lies in [0, 1) is `IsDraw`. The artificial delays are not modelled. */
module FoodAnalysis {
  import opened Types
  import opened JsMath
  import opened NutritionCalculator
  import opened FoodDatabase

  // ------------------------------------------------------ confidence tiers

  /** CONFIDENCE_THRESHOLDS */
  const VeryHighThreshold := 0.90
  const HighThreshold := 0.75
  const MediumThreshold := 0.60
  const LowThreshold := 0.45

  /** getConfidenceLevel */
  function GetConfidenceLevel(confidence: real): ConfidenceLevel
  {
    if confidence >= VeryHighThreshold then VeryHighConfidence
    else if confidence >= HighThreshold then HighConfidence
    else if confidence >= MediumThreshold then MediumConfidence
    else LowConfidence
  }

  /** The tiers in increasing order of confidence. */
  function LevelRank(level: ConfidenceLevel): nat
  {
    match level
    case LowConfidence => 0
    case MediumConfidence => 1
    case HighConfidence => 2
    case VeryHighConfidence => 3
  }

  /** Each tier is exactly its band of confidences, and a higher confidence
      never gets a lower tier. */
  lemma ConfidenceLevelBands(c: real, d: real)
    ensures GetConfidenceLevel(c) == VeryHighConfidence <==> c >= 0.90
    ensures GetConfidenceLevel(c) == HighConfidence <==> 0.75 <= c < 0.90
    ensures GetConfidenceLevel(c) == MediumConfidence <==> 0.60 <= c < 0.75
    ensures GetConfidenceLevel(c) == LowConfidence <==> c < 0.60
    ensures c <= d ==> LevelRank(GetConfidenceLevel(c)) <= LevelRank(GetConfidenceLevel(d))
  {
  }

  /** The language-independent part of getConfidenceDisplay. */
  datatype ConfidenceDisplay = ConfidenceDisplay(percentage: int, level: ConfidenceLevel)

  /** getConfidenceDisplay: the tier and the confidence as a whole percentage. */
  function GetConfidenceDisplay(confidence: real): (d: ConfidenceDisplay)
    ensures d.level == GetConfidenceLevel(confidence)
    ensures confidence * 100.0 - 1.0 / 2.0 < d.percentage as real <= confidence * 100.0 + 1.0 / 2.0
  {
    ConfidenceDisplay(Round(confidence * 100.0), GetConfidenceLevel(confidence))
  }

  /** A confidence in [0, 1] displays as 0..100 %, and the percentage never
      decreases with the confidence. */
  lemma ConfidenceDisplayBounds(c: real, d: real)
    requires 0.0 <= c <= d <= 1.0
    ensures 0 <= GetConfidenceDisplay(c).percentage <= GetConfidenceDisplay(d).percentage <= 100
  {
    RoundMonotone(c * 100.0, d * 100.0);
    RoundMonotone(0.0, c * 100.0);
    RoundMonotone(d * 100.0, 100.0);
  }

  // ----------------------------------------------------- random generators

  /** What `Math.random()` guarantees of a draw. */
  predicate IsDraw(r: real)
  {
    0.0 <= r < 1.0
  }

  /** generateRealisticConfidence: the first draw picks a tier with weights
      30/30/25/15 %, the second places the value inside it. */
  function GenerateRealisticConfidence(rand: real, spread: real): real
  {
    if rand < 0.3 then 0.90 + spread * 0.08
    else if rand < 0.6 then 0.75 + spread * 0.14
    else if rand < 0.85 then 0.60 + spread * 0.14
    else 0.45 + spread * 0.14
  }

  /** The tier the first draw selects. */
  function DrawnTier(rand: real): ConfidenceLevel
  {
    if rand < 0.3 then VeryHighConfidence
    else if rand < 0.6 then HighConfidence
    else if rand < 0.85 then MediumConfidence
    else LowConfidence
  }

  /** For draws in [0, 1) the confidence lies in [0.45, 0.98) and
      getConfidenceLevel puts it in the tier the first draw selected. */
  lemma RealisticConfidenceRange(rand: real, spread: real)
    requires IsDraw(rand) && IsDraw(spread)
    ensures LowThreshold <= GenerateRealisticConfidence(rand, spread) < 0.98
    ensures GetConfidenceLevel(GenerateRealisticConfidence(rand, spread)) == DrawnTier(rand)
  {
  }

  /** The number of foods generateMockRecognition asks for. */
  function RecognitionCount(r: real): int
  {
    1 + (r * 3.0).Floor
  }

  lemma RecognitionCountRange(r: real)
    requires IsDraw(r)
    ensures 1 <= RecognitionCount(r) <= 3
  {
  }

  /** `order` lists each catalog index exactly once: the outcome of the
      random shuffle in getRandomFoods. */
  predicate IsShuffle(order: seq<int>, n: int)
  {
    && |order| == n
    && (forall i :: 0 <= i < |order| ==> 0 <= order[i] < n)
    && (forall i, j :: 0 <= i < j < |order| ==> order[i] != order[j])
  }

  function MinInt(a: int, b: int): int
  {
    if a <= b then a else b
  }

  /** getRandomFoods: the first `count` catalog entries in shuffled order. */
  function GetRandomFoods(count: nat, order: seq<int>): (r: seq<FoodItem>)
    requires IsShuffle(order, |Foods|)
    ensures |r| == MinInt(count, |Foods|)
    ensures forall i :: 0 <= i < |r| ==> r[i] == Foods[order[i]]
  {
    seq(MinInt(count, |Foods|), (i: int) requires 0 <= i < MinInt(count, |Foods|) => Foods[order[i]])
  }

  /** The chosen foods are distinct catalog entries, with distinct ids. */
  lemma RandomFoodsDistinct(count: nat, order: seq<int>)
    requires IsShuffle(order, |Foods|)
    ensures var r := GetRandomFoods(count, order);
      (forall i :: 0 <= i < |r| ==> r[i] in Foods)
      && forall i, j :: 0 <= i < j < |r| ==> r[i].id != r[j].id
  {
    FoodIdsDistinct();
    var r := GetRandomFoods(count, order);
    forall i, j | 0 <= i < j < |r| ensures r[i].id != r[j].id {
      assert r[i] == Foods[order[i]] && r[j] == Foods[order[j]];
      if order[i] < order[j] {
      } else {
        assert order[j] < order[i];
      }
    }
  }

  /** `Math.floor(r * n)` for a draw `r` is a valid index into `n` items. */
  lemma DrawIndex(r: real, n: int)
    requires IsDraw(r) && n > 0
    ensures 0 <= (r * n as real).Floor < n
  {
    assert r * n as real < n as real;
  }

  /** `Math.round(grams * variation)` */
  function Vary(grams: real, variation: real): int
  {
    Round(grams * variation)
  }

  /** A declared portion of `food` picked by `rIndex`, varied by a factor of
      0.8 + 0.4 x `rVariation`, rounded. */
  function VariedPortion(food: FoodItem, rIndex: real, rVariation: real): (grams: int)
    requires IsDraw(rIndex) && IsDraw(rVariation) && WellFormedFood(food)
    ensures exists k ::
      0 <= k < |food.commonPortions|
      && Round(food.commonPortions[k].grams * 0.8) <= grams <= Round(food.commonPortions[k].grams * 1.2)
    ensures exists k, v ::
      0 <= k < |food.commonPortions| && 0.8 <= v < 1.2 && grams == Vary(food.commonPortions[k].grams, v)
    ensures grams >= 0
  {
    var n := |food.commonPortions|;
    DrawIndex(rIndex, n);
    var k := (rIndex * n as real).Floor;
    var g := food.commonPortions[k].grams;
    var v := 0.8 + rVariation * 0.4;
    assert g * 0.8 <= g * v <= g * 1.2;
    RoundMonotone(g * 0.8, g * v);
    RoundMonotone(g * v, g * 1.2);
    RoundMonotone(0.0, g * 0.8);
    assert 0.8 <= v < 1.2 && Vary(food.commonPortions[k].grams, v) == Round(g * v);
    Vary(g, v)
  }

  /** generatePortionSize: 100 g for an unknown id, otherwise a varied
      declared portion of the food with that id. */
  function GeneratePortionSize(foodId: string, rIndex: real, rVariation: real): (grams: int)
    requires IsDraw(rIndex) && IsDraw(rVariation)
    ensures GetFoodById(foodId).None? ==> grams == 100
    ensures GetFoodById(foodId).Some? ==>
      var food := GetFoodById(foodId).value;
      exists k :: 0 <= k < |food.commonPortions|
        && Round(food.commonPortions[k].grams * 0.8) <= grams <= Round(food.commonPortions[k].grams * 1.2)
    ensures GetFoodById(foodId).Some? ==>
      var food := GetFoodById(foodId).value;
      exists k, v ::
        0 <= k < |food.commonPortions| && 0.8 <= v < 1.2 && grams == Vary(food.commonPortions[k].grams, v)
    ensures grams >= 0
  {
    match GetFoodById(foodId)
    case None => 100
    case Some(food) =>
      FoundFoodWellFormed(foodId);
      VariedPortion(food, rIndex, rVariation)
  }

  /** generateBoundingBox */
  function GenerateBoundingBox(rx: real, ry: real, rw: real, rh: real): BoundingBox
  {
    BoundingBox(rx * 0.3, ry * 0.3, 0.2 + rw * 0.5, 0.2 + rh * 0.5)
  }

  /** The box starts in the top-left 30 % and covers 20 % to 70 % each way. */
  lemma BoundingBoxRange(rx: real, ry: real, rw: real, rh: real)
    requires IsDraw(rx) && IsDraw(ry) && IsDraw(rw) && IsDraw(rh)
    ensures var b := GenerateBoundingBox(rx, ry, rw, rh);
      0.0 <= b.x < 0.3 && 0.0 <= b.y < 0.3 && 0.2 <= b.width < 0.7 && 0.2 <= b.height < 0.7
  {
  }

  // ----------------------------------------------------------- recognition

  /** The eight draws consumed for one recognised food, in source order. */
  datatype FoodDraws = FoodDraws(
    confidenceTier: real, confidenceSpread: real,
    portionIndex: real, portionVariation: real,
    boxX: real, boxY: real, boxWidth: real, boxHeight: real)

  predicate ValidDraws(d: FoodDraws)
  {
    IsDraw(d.confidenceTier) && IsDraw(d.confidenceSpread) && IsDraw(d.portionIndex)
    && IsDraw(d.portionVariation) && IsDraw(d.boxX) && IsDraw(d.boxY)
    && IsDraw(d.boxWidth) && IsDraw(d.boxHeight)
  }

  /** The record built for one food in generateMockRecognition. */
  function Recognize(food: FoodItem, d: FoodDraws): (r: RecognizedFood)
    requires ValidDraws(d)
    ensures r.foodId == food.id && r.name == food.name && r.nameAr == food.nameAr
    ensures r.nutrition == CalculateNutrition(food, r.estimatedGrams as real)
  {
    var confidence := GenerateRealisticConfidence(d.confidenceTier, d.confidenceSpread);
    var grams := GeneratePortionSize(food.id, d.portionIndex, d.portionVariation);
    RecognizedFood(food.id, food.name, food.nameAr, confidence, grams,
      Some(GenerateBoundingBox(d.boxX, d.boxY, d.boxWidth, d.boxHeight)),
      CalculateNutrition(food, grams as real))
  }

  /** generateMockRecognition: one record per food chosen by getRandomFoods,
      the count drawn by `rCount`. */
  function GenerateMockRecognition(rCount: real, order: seq<int>, draws: seq<FoodDraws>): (r: seq<RecognizedFood>)
    requires IsDraw(rCount) && IsShuffle(order, |Foods|)
    requires |draws| >= 3 && forall i :: 0 <= i < |draws| ==> ValidDraws(draws[i])
    ensures 1 <= |r| <= 3
    ensures |r| == |GetRandomFoods(RecognitionCount(rCount), order)|
    ensures forall i :: 0 <= i < |r| ==> r[i] == Recognize(GetRandomFoods(RecognitionCount(rCount), order)[i], draws[i])
  {
    RecognitionCountRange(rCount);
    var foods := GetRandomFoods(RecognitionCount(rCount), order);
    assert forall i :: 0 <= i < |foods| ==> ValidDraws(draws[i]);
    seq(|foods|, (i: int) requires 0 <= i < |foods| => Recognize(foods[i], draws[i]))
  }

  /** Sum of the confidences, left to right. */
  function SumConfidence(foods: seq<RecognizedFood>): real
  {
    if |foods| == 0 then 0.0 else SumConfidence(foods[..|foods| - 1]) + foods[|foods| - 1].confidence
  }

  /** The aggregation of analyzeFoodImage: the unrounded component-wise sum of
      the items' nutrition and the mean confidence, 0 when nothing was found. */
  function AggregateAnalysis(foods: seq<RecognizedFood>, processTime: real): FoodAnalysisResult
  {
    FoodAnalysisResult(
      foods,
      SumBy(foods, (f: RecognizedFood) => f.nutrition),
      if |foods| > 0 then SumConfidence(foods) / |foods| as real else 0.0,
      processTime)
  }

  lemma {:induction false} SumConfidenceBounds(foods: seq<RecognizedFood>, lo: real, hi: real)
    requires forall i :: 0 <= i < |foods| ==> lo <= foods[i].confidence < hi
    ensures lo * |foods| as real <= SumConfidence(foods)
    ensures |foods| > 0 ==> SumConfidence(foods) < hi * |foods| as real
  {
    if |foods| > 0 {
      SumConfidenceBounds(foods[..|foods| - 1], lo, hi);
    }
  }

  /** With no items the result is all zeros; the overall confidence lies
      between the lowest and highest item confidences bounds; the total does
      not depend on the order of the items. */
  lemma AggregateProperties(foods: seq<RecognizedFood>, lo: real, hi: real, processTime: real)
    requires forall i :: 0 <= i < |foods| ==> lo <= foods[i].confidence < hi
    ensures |foods| == 0 ==>
      AggregateAnalysis(foods, processTime).totalNutrition == ZeroNutrition
      && AggregateAnalysis(foods, processTime).confidence == 0.0
    ensures |foods| > 0 ==> lo <= AggregateAnalysis(foods, processTime).confidence < hi
  {
    SumConfidenceBounds(foods, lo, hi);
    if |foods| > 0 {
      var n := |foods| as real;
      var s := SumConfidence(foods);
      assert lo * n <= s < hi * n;
      assert s / n * n == s;
      if s / n < lo {
        assert s / n * n < lo * n;
      }
      if s / n >= hi {
        assert s / n * n >= hi * n;
      }
    }
  }

  /** The summed nutrition is the same for any reordering of the items. */
  lemma AggregateOrderIndependent(a: seq<RecognizedFood>, b: seq<RecognizedFood>, processTime: real)
    requires multiset(a) == multiset(b)
    ensures AggregateAnalysis(a, processTime).totalNutrition == AggregateAnalysis(b, processTime).totalNutrition
  {
    SumByPermutation(a, b, (f: RecognizedFood) => f.nutrition);
  }

  /** analyzeFoodImage without its delay: recognition followed by aggregation. */
  function AnalyzeFoodImage(rCount: real, order: seq<int>, draws: seq<FoodDraws>, processTime: real): FoodAnalysisResult
    requires IsDraw(rCount) && IsShuffle(order, |Foods|)
    requires |draws| >= 3 && forall i :: 0 <= i < |draws| ==> ValidDraws(draws[i])
  {
    assert forall i :: 0 <= i < |draws| ==> IsDraw(draws[i].portionIndex) by {
      forall i | 0 <= i < |draws| ensures IsDraw(draws[i].portionIndex) {
        assert ValidDraws(draws[i]);
      }
    }
    AggregateAnalysis(GenerateMockRecognition(rCount, order, draws), processTime)
  }

  /** The analysis reports one to three distinct catalog foods, each with
      nutrition computed for its estimated weight, a non-negative weight, and
      an overall confidence in [0.45, 0.98). */
  lemma AnalyzeFoodImageProperties(rCount: real, order: seq<int>, draws: seq<FoodDraws>, processTime: real)
    requires IsDraw(rCount) && IsShuffle(order, |Foods|)
    requires |draws| >= 3 && forall i :: 0 <= i < |draws| ==> ValidDraws(draws[i])
    ensures var r := AnalyzeFoodImage(rCount, order, draws, processTime);
      && 1 <= |r.foods| <= 3
      && (forall i, j :: 0 <= i < j < |r.foods| ==> r.foods[i].foodId != r.foods[j].foodId)
      && (forall i :: 0 <= i < |r.foods| ==> r.foods[i].estimatedGrams >= 0)
      && LowThreshold <= r.confidence < 0.98
  {
    RecognitionCountRange(rCount);
    var foods := GetRandomFoods(RecognitionCount(rCount), order);
    RandomFoodsDistinct(RecognitionCount(rCount), order);
    var items := GenerateMockRecognition(rCount, order, draws);
    forall i | 0 <= i < |items| ensures LowThreshold <= items[i].confidence < 0.98 && items[i].estimatedGrams >= 0 {
      RealisticConfidenceRange(draws[i].confidenceTier, draws[i].confidenceSpread);
    }
    AggregateProperties(items, LowThreshold, 0.98, processTime);
  }

  // --------------------------------------------------- progressive analysis

  /** One entry of the `stages` table of analyzeWithProgress (its delay is
      not modelled). */
  datatype StageStep = StageStep(stage: Stage, progress: int, message: string, messageAr: string)

  const Stages: seq<StageStep> := [
    StageStep(Uploading, 20, "Uploading image...", "جاري رفع الصورة..."),
    StageStep(Processing, 40, "Processing image...", "جاري معالجة الصورة..."),
    StageStep(Analyzing, 80, "Recognizing foods...", "جاري التعرف على الأطعمة..."),
    StageStep(Complete, 100, "Analysis complete!", "تم التحليل بنجاح!")
  ]

  /** analyzeWithProgress: the states it yields, in order; the loop is the
      generator's `for (const stage of stages)`. */
  method AnalyzeWithProgress() returns (states: seq<AnalysisState>)
    ensures |states| == 4
    ensures states[0].stage == Uploading && states[1].stage == Processing
    ensures states[2].stage == Analyzing && states[3].stage == Complete
    ensures states[0].progress == 20 && states[1].progress == 40
    ensures states[2].progress == 80 && states[3].progress == 100
    ensures forall i, j :: 0 <= i < j < |states| ==> states[i].progress < states[j].progress
    ensures forall i :: 0 <= i < |states| ==> (states[i].isAnalyzing <==> i < 3)
    ensures forall i :: 0 <= i < |states| ==>
      states[i].message == Stages[i].message && states[i].messageAr == Stages[i].messageAr
  {
    states := [];
    var i := 0;
    while i < |Stages|
      invariant 0 <= i <= |Stages|
      invariant |states| == i
      invariant forall k :: 0 <= k < i ==>
        states[k] == AnalysisState(Stages[k].stage != Complete, Stages[k].progress, Stages[k].stage,
          Stages[k].message, Stages[k].messageAr)
    {
      var step := Stages[i];
      states := states + [AnalysisState(step.stage != Complete, step.progress, step.stage, step.message, step.messageAr)];
      i := i + 1;
    }
  }

  // ---------------------------------------------------------------- barcode

  /** scanBarcode without its delay: the two known products, or nothing. */
  function ScanBarcode(barcode: string): (r: Option<BarcodeProduct>)
    ensures r.Some? <==> barcode == "1234567890123" || barcode == "9876543210987"
    ensures r.Some? ==> r.value.barcode == barcode
  {
    if barcode == "1234567890123" then
      Some(BarcodeProduct(barcode, "Almarai Milk", "حليب المراعي", "Almarai",
        NutritionInfo(42.0, 3.4, 5.0, 1.0, 0.0, 5.0, 44.0), 100.0, "ml", None))
    else if barcode == "9876543210987" then
      Some(BarcodeProduct(barcode, "Pringles Original", "برينجلز أصلي", "Pringles",
        NutritionInfo(536.0, 4.0, 49.0, 35.0, 2.0, 2.0, 1042.0), 100.0, "g", None))
    else None
  }

  /** The two catalogue products, with their nutrition per 100 ml or 100 g. */
  lemma ScanBarcodeProducts()
    ensures ScanBarcode("1234567890123").value.name == "Almarai Milk"
    ensures ScanBarcode("1234567890123").value.nutrition.calories == 42.0
    ensures ScanBarcode("9876543210987").value.name == "Pringles Original"
    ensures ScanBarcode("9876543210987").value.nutrition.sodium == 1042.0
    ensures ScanBarcode("0000000000000").None?
  {
  }
}
