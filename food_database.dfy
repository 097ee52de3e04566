/** The static food catalog (src/data/foodDatabase.ts) and its lookup,
    category and search helpers. */
module FoodDatabase {
  import opened Types
  import opened SeqUtils

  /** `foodDatabase`: sixteen foods, Middle Eastern first. */
  const Foods: seq<FoodItem> := [
    FoodItem("hummus", "Hummus", "حمص", "appetizer",
      166.0, 8.0, 14.3, 9.6, 6.0, 0.3, 379.0, None,
      [Portion("1 tablespoon", "ملعقة كبيرة واحدة", 15.0), Portion("1/4 cup", "ربع كوب", 60.0), Portion("Small bowl", "وعاء صغير", 100.0)]),
    FoodItem("falafel", "Falafel", "فلافل", "main_dish",
      333.0, 13.3, 31.8, 17.8, 4.9, 1.9, 294.0, None,
      [Portion("1 piece", "قطعة واحدة", 30.0), Portion("3 pieces", "3 قطع", 90.0), Portion("5 pieces", "5 قطع", 150.0)]),
    FoodItem("tabbouleh", "Tabbouleh", "تبولة", "salad",
      36.0, 2.2, 7.1, 0.4, 2.8, 1.8, 11.0, None,
      [Portion("Small bowl", "وعاء صغير", 100.0), Portion("Large serving", "طبق كبير", 200.0)]),
    FoodItem("kabsa", "Kabsa", "كبسة", "main_dish",
      195.0, 12.4, 22.1, 6.8, 1.2, 2.1, 458.0, None,
      [Portion("Small plate", "طبق صغير", 200.0), Portion("Regular serving", "طبق عادي", 300.0), Portion("Large plate", "طبق كبير", 400.0)]),
    FoodItem("shawarma", "Chicken Shawarma", "شاورما دجاج", "main_dish",
      215.0, 16.0, 15.2, 11.5, 2.1, 3.4, 512.0, None,
      [Portion("Small wrap", "لفة صغيرة", 150.0), Portion("Regular wrap", "لفة عادية", 200.0), Portion("Large wrap", "لفة كبيرة", 250.0)]),
    FoodItem("manakish", "Manakish Zaatar", "مناقيش زعتر", "breakfast",
      284.0, 7.2, 45.1, 9.3, 3.2, 1.8, 623.0, None,
      [Portion("1 small piece", "قطعة صغيرة", 80.0), Portion("1 regular piece", "قطعة عادية", 120.0), Portion("1 large piece", "قطعة كبيرة", 160.0)]),
    FoodItem("chicken_breast", "Grilled Chicken Breast", "صدر دجاج مشوي", "protein",
      165.0, 31.0, 0.0, 3.6, 0.0, 0.0, 74.0, None,
      [Portion("Small piece", "قطعة صغيرة", 100.0), Portion("Medium piece", "قطعة متوسطة", 150.0), Portion("Large piece", "قطعة كبيرة", 200.0)]),
    FoodItem("white_rice", "White Rice", "أرز أبيض", "grain",
      130.0, 2.7, 28.0, 0.3, 0.4, 0.1, 1.0, None,
      [Portion("1/2 cup cooked", "نصف كوب مطبوخ", 90.0), Portion("1 cup cooked", "كوب مطبوخ", 180.0), Portion("1.5 cups cooked", "كوب ونصف مطبوخ", 270.0)]),
    FoodItem("salmon", "Grilled Salmon", "سلمون مشوي", "protein",
      206.0, 25.4, 0.0, 11.0, 0.0, 0.0, 52.0, None,
      [Portion("Small fillet", "شريحة صغيرة", 100.0), Portion("Regular fillet", "شريحة عادية", 150.0), Portion("Large fillet", "شريحة كبيرة", 200.0)]),
    FoodItem("pasta", "Spaghetti with Tomato Sauce", "معكرونة بصلصة الطماطم", "main_dish",
      158.0, 5.8, 30.9, 1.1, 2.5, 5.3, 325.0, None,
      [Portion("Small bowl", "وعاء صغير", 150.0), Portion("Regular serving", "طبق عادي", 200.0), Portion("Large bowl", "وعاء كبير", 300.0)]),
    FoodItem("greek_salad", "Greek Salad", "سلطة يونانية", "salad",
      85.0, 2.1, 7.2, 5.8, 2.3, 4.1, 312.0, None,
      [Portion("Side salad", "سلطة جانبية", 100.0), Portion("Regular serving", "طبق عادي", 200.0), Portion("Large bowl", "وعاء كبير", 300.0)]),
    FoodItem("avocado", "Avocado", "أفوكادو", "fruit",
      160.0, 2.0, 8.5, 14.7, 6.7, 0.7, 7.0, None,
      [Portion("Half avocado", "نصف حبة أفوكادو", 75.0), Portion("1 whole avocado", "حبة أفوكادو كاملة", 150.0), Portion("1/4 avocado", "ربع حبة أفوكادو", 40.0)]),
    FoodItem("banana", "Banana", "موز", "fruit",
      89.0, 1.1, 22.8, 0.3, 2.6, 12.2, 1.0, None,
      [Portion("Small banana", "موزة صغيرة", 90.0), Portion("Medium banana", "موزة متوسطة", 118.0), Portion("Large banana", "موزة كبيرة", 136.0)]),
    FoodItem("apple", "Apple", "تفاحة", "fruit",
      52.0, 0.3, 13.8, 0.2, 2.4, 10.4, 1.0, None,
      [Portion("Small apple", "تفاحة صغيرة", 130.0), Portion("Medium apple", "تفاحة متوسطة", 180.0), Portion("Large apple", "تفاحة كبيرة", 220.0)]),
    FoodItem("yogurt", "Greek Yogurt", "زبادي يوناني", "dairy",
      97.0, 10.0, 3.6, 5.0, 0.0, 3.6, 36.0, None,
      [Portion("Small cup", "كوب صغير", 100.0), Portion("Regular cup", "كوب عادي", 170.0), Portion("Large container", "علبة كبيرة", 200.0)]),
    FoodItem("bread", "Whole Wheat Bread", "خبز قمح كامل", "grain",
      247.0, 13.2, 41.0, 4.2, 6.8, 5.9, 400.0, None,
      [Portion("1 slice", "شريحة واحدة", 28.0), Portion("2 slices", "شريحتان", 56.0), Portion("3 slices", "3 شرائح", 84.0)])
  ]

  /** The invariant the recognition simulator relies on: non-negative values
      and at least one declared portion, every portion of positive weight. */
  predicate WellFormedFood(f: FoodItem)
  {
    && f.caloriesPer100g >= 0.0 && f.protein >= 0.0 && f.carbs >= 0.0 && f.fat >= 0.0
    && f.fiber >= 0.0 && f.sugar >= 0.0 && f.sodium >= 0.0
    && |f.commonPortions| >= 1
    && forall k :: 0 <= k < |f.commonPortions| ==> f.commonPortions[k].grams > 0.0
  }

  /** Every catalog entry is well formed. */
  lemma FoodsWellFormed()
    ensures |Foods| == 16
    ensures forall i :: 0 <= i < |Foods| ==> WellFormedFood(Foods[i])
  {
  }

  /** No two catalog entries share an id. */
  lemma FoodIdsDistinct()
    ensures forall i, j :: 0 <= i < j < |Foods| ==> Foods[i].id != Foods[j].id
  {
  }

  /** The first entry of `table` with the given id, or nothing. */
  function FindById(table: seq<FoodItem>, id: string): (r: Option<FoodItem>)
    ensures r.None? <==> forall i :: 0 <= i < |table| ==> table[i].id != id
    ensures r.Some? ==>
      exists k :: 0 <= k < |table| && table[k] == r.value && r.value.id == id
        && forall j :: 0 <= j < k ==> table[j].id != id
  {
    var k := FindIndex(table, (f: FoodItem) => f.id == id);
    if k < 0 then None else Some(table[k])
  }

  /** getFoodById: `find` by id, so the first entry with that id, or nothing. */
  function GetFoodById(id: string): (r: Option<FoodItem>)
    ensures r.None? <==> forall i :: 0 <= i < |Foods| ==> Foods[i].id != id
    ensures r.Some? ==>
      exists k :: 0 <= k < |Foods| && Foods[k] == r.value && r.value.id == id
        && forall j :: 0 <= j < k ==> Foods[j].id != id
  {
    FindById(Foods, id)
  }

  /** Whatever getFoodById finds satisfies the catalog invariant. */
  lemma FoundFoodWellFormed(id: string)
    ensures GetFoodById(id).Some? ==> WellFormedFood(GetFoodById(id).value)
  {
    FoodsWellFormed();
  }

  /** Since ids are distinct, every entry is found by its own id. */
  lemma GetFoodByIdFindsEveryEntry(i: int)
    requires 0 <= i < |Foods|
    ensures GetFoodById(Foods[i].id) == Some(Foods[i])
  {
    FoodIdsDistinct();
    var r := GetFoodById(Foods[i].id);
    var k :| 0 <= k < |Foods| && Foods[k] == r.value && r.value.id == Foods[i].id
      && forall j :: 0 <= j < k ==> Foods[j].id != Foods[i].id;
    assert !(i < k);
    assert !(k < i);
  }

  /** getFoodsByCategory: the whole table for "all", otherwise the entries of
      that category in table order. */
  function GetFoodsByCategory(category: string): (r: seq<FoodItem>)
    ensures category == "all" ==> r == Foods
    ensures category != "all" ==> forall f :: f in r <==> f in Foods && f.category == category
    ensures IsSubsequence(r, Foods)
  {
    if category == "all" then
      assert IsSubsequence(Foods, Foods) by { SubsequenceOfSelf(Foods); }
      Foods
    else Filter(Foods, (f: FoodItem) => f.category == category)
  }

  /** The name searched in the given language. */
  function NameIn(f: FoodItem, language: Language): string
  {
    if language == Ar then f.nameAr else f.name
  }

  /** The search rule: the lower-cased name contains the lower-cased query. */
  predicate Matches(f: FoodItem, query: string, language: Language)
  {
    Contains(Lower(NameIn(f, language)), Lower(query))
  }

  /** searchFoods: the entries, in table order, whose name in the chosen
      language contains the query, both lower-cased. */
  function SearchFoods(query: string, language: Language): (r: seq<FoodItem>)
    ensures forall f :: f in r <==> f in Foods && Matches(f, query, language)
    ensures IsSubsequence(r, Foods)
  {
    Filter(Foods, (f: FoodItem) => Matches(f, query, language))
  }

  /** An empty query matches every name, so the whole table is returned. */
  lemma SearchEmptyQuery(language: Language)
    ensures SearchFoods("", language) == Foods
  {
    forall i | 0 <= i < |Foods| ensures Matches(Foods[i], "", language) {
      assert StartsWith(Lower(NameIn(Foods[i], language)), "");
    }
    FilterKeepsAll(Foods, (f: FoodItem) => Matches(f, "", language));
  }
}
