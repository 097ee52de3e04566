/** The records and enumerations of the application (src/types/index.ts).
    Every JavaScript `number` is a `real`, except where the core only ever
    stores an integer (a duration, a percentage); calendar dates are day
    numbers counted from 1970-01-01 and timestamps are milliseconds since
    the same instant, both in UTC. */
module Types {

  datatype Option<T> = None | Some(value: T)

  datatype Portion = Portion(name: string, nameAr: string, grams: real)

  datatype FoodItem = FoodItem(
    id: string,
    name: string,
    nameAr: string,
    category: string,
    caloriesPer100g: real,
    protein: real,
    carbs: real,
    fat: real,
    fiber: real,
    sugar: real,
    sodium: real,
    image: Option<string>,
    commonPortions: seq<Portion>)

  datatype NutritionInfo = NutritionInfo(
    calories: real,
    protein: real,
    carbs: real,
    fat: real,
    fiber: real,
    sugar: real,
    sodium: real)

  datatype BoundingBox = BoundingBox(x: real, y: real, width: real, height: real)

  datatype RecognizedFood = RecognizedFood(
    foodId: string,
    name: string,
    nameAr: string,
    confidence: real,
    estimatedGrams: int,
    boundingBox: Option<BoundingBox>,
    nutrition: NutritionInfo)

  datatype FoodAnalysisResult = FoodAnalysisResult(
    foods: seq<RecognizedFood>,
    totalNutrition: NutritionInfo,
    confidence: real,
    processTime: real)

  datatype Intensity = Low | Medium | High

  datatype Activity = Activity(
    id: string,
    name: string,
    nameAr: string,
    category: string,
    caloriesPerMinute: real,
    intensity: Intensity,
    description: string,
    descriptionAr: string,
    equipment: Option<string>,
    duration: Option<real>)

  datatype ActivitySuggestion = ActivitySuggestion(
    activity: Activity,
    duration: int,
    totalCalories: int,
    matchPercentage: int)

  datatype Gender = Male | Female

  datatype ActivityLevel = Sedentary | LightlyActive | ModeratelyActive | VeryActive

  datatype Goal = Maintain | Lose | Gain

  datatype Language = En | Ar

  datatype UserProfile = UserProfile(
    id: string,
    name: string,
    age: real,
    gender: Gender,
    weight: real,
    height: real,
    activityLevel: ActivityLevel,
    goal: Goal,
    dailyCalorieGoal: real,
    preferredLanguage: Language,
    createdAt: int)

  datatype MealType = Breakfast | Lunch | Dinner | Snack

  datatype MealEntry = MealEntry(
    id: string,
    userId: string,
    timestamp: int,
    mealType: MealType,
    foods: seq<RecognizedFood>,
    totalNutrition: NutritionInfo,
    image: Option<string>,
    notes: Option<string>)

  datatype DailyProgress = DailyProgress(
    date: int,
    caloriesConsumed: real,
    caloriesGoal: real,
    nutrition: NutritionInfo,
    meals: seq<MealEntry>,
    activitiesPerformed: Option<seq<ActivitySuggestion>>)

  datatype Stage = Uploading | Processing | Analyzing | Complete | Error

  datatype AnalysisState = AnalysisState(
    isAnalyzing: bool,
    progress: int,
    stage: Stage,
    message: string,
    messageAr: string)

  datatype BarcodeProduct = BarcodeProduct(
    barcode: string,
    name: string,
    nameAr: string,
    brand: string,
    nutrition: NutritionInfo,
    servingSize: real,
    servingSizeUnit: string,
    image: Option<string>)

  datatype Theme = Light | Dark | System

  datatype AppSettings = AppSettings(
    language: Language,
    theme: Theme,
    notifications: bool,
    autoAnalysis: bool,
    saveToHistory: bool,
    shareData: bool)

  datatype ConfidenceLevel = VeryHighConfidence | HighConfidence | MediumConfidence | LowConfidence

  datatype Range = Range(min: real, max: real)

  datatype NutritionGoals = NutritionGoals(
    calories: real,
    protein: Range,
    carbs: Range,
    fat: Range,
    fiber: real,
    sodium: real)
}
