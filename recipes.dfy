/**
 * Recipes, the beneficiary profile, the recipe filter (`filter_recipes`) and the
 * age-group selection of the recipe catalogue (`get_recipe_file`, the report's age group).
 */
module Recipes {
  import opened Wrappers
  import opened Text

  /** The recipe's nutrition column, already decoded: a mapping, or something that could
      not be read as one (unparsable text, a missing cell, any other value). */
  datatype Nutrition = Decoded(fields: map<string, int>) | Undecodable

  /** One recipe row. Text columns are given as text (an absent column reads as empty);
      only the meal coverage has a default of its own. */
  datatype Recipe = Recipe(
    title: string,
    description: string,
    ingredients: string,
    instructions: string,
    duration: string,
    mealCoverage: Option<string>,
    additionalRecommendations: string,
    warnings: string,
    categories: string,
    nutrition: Nutrition)

  datatype Physical = Physical(activityLevel: Option<string>)

  datatype Cultural = Cultural(dietType: Option<seq<string>>)

  /** The validated request. Gender, weight and height are accepted but never used. */
  datatype Profile = Profile(age: int, month: Option<int>, physical: Option<Physical>, cultural: Option<Cultural>)

  // ---------------------------------------------------------------- calories

  /** The calories the filter reads: the mapping's "calories", 0 when absent or unreadable. */
  function Calories(n: Nutrition): (c: int)
    ensures n.Decoded? && "calories" in n.fields ==> c == n.fields["calories"]
    ensures !(n.Decoded? && "calories" in n.fields) ==> c == 0
  {
    match n
    case Decoded(fields) => if "calories" in fields then fields["calories"] else 0
    case Undecodable => 0
  }

  /** The activity level the calorie filter uses, if it applies at all (a set, non-empty level). */
  function ActivityLevel(physical: Option<Physical>): Option<string> {
    if physical.Some? && physical.value.activityLevel.Some? && physical.value.activityLevel.value != ""
    then physical.value.activityLevel
    else None
  }

  /** The diet tags the cultural filter uses, if it applies at all (a set, non-empty list). */
  function DietTags(cultural: Option<Cultural>): Option<seq<string>> {
    if cultural.Some? && cultural.value.dietType.Some? && cultural.value.dietType.value != []
    then cultural.value.dietType
    else None
  }

  /** `any(diet.lower() in cats for diet in diets)` */
  function AnyTagIn(diets: seq<string>, cats: string): bool {
    if diets == [] then false
    else IsSubstring(Lower(diets[0]), cats) || AnyTagIn(diets[1..], cats)
  }

  /** The calorie test of one activity level: the cases that skip a recipe, and none for an
      unrecognised level. */
  predicate CaloriesFit(level: string, c: int) {
    if level == "low" then !(c > 350)
    else if level == "moderate" then 350 < c <= 500
    else if level == "high" then !(c <= 500)
    else true
  }

  /** The loop body's decision for one recipe. */
  predicate Keeps(r: Recipe, physical: Option<Physical>, cultural: Option<Cultural>) {
    (DietTags(cultural).Some? ==> AnyTagIn(DietTags(cultural).value, Lower(r.categories))) &&
    (ActivityLevel(physical).Some? ==> CaloriesFit(ActivityLevel(physical).value, Calories(r.nutrition)))
  }

  /** `filter_recipes`: the kept recipes, in input order. */
  function Filtered(recipes: seq<Recipe>, physical: Option<Physical>, cultural: Option<Cultural>): seq<Recipe> {
    if recipes == [] then []
    else
      var last := recipes[|recipes| - 1];
      Filtered(recipes[..|recipes| - 1], physical, cultural) + (if Keeps(last, physical, cultural) then [last] else [])
  }

  method FilterRecipes(recipes: seq<Recipe>, physical: Option<Physical>, cultural: Option<Cultural>)
    returns (filtered: seq<Recipe>)
    ensures filtered == Filtered(recipes, physical, cultural)
  {
    filtered := [];
    var i := 0;
    while i < |recipes|
      invariant 0 <= i <= |recipes|
      invariant filtered == Filtered(recipes[..i], physical, cultural)
    {
      var recipe := recipes[i];
      assert recipes[..i + 1][..i] == recipes[..i];
      i := i + 1;
      if cultural.Some? && cultural.value.dietType.Some? && cultural.value.dietType.value != [] {
        var recipeCats := Lower(recipe.categories);
        var culturalMatch := AnyTagIn(cultural.value.dietType.value, recipeCats);
        if !culturalMatch {
          continue;
        }
      }
      if physical.Some? && physical.value.activityLevel.Some? && physical.value.activityLevel.value != "" {
        var level := physical.value.activityLevel.value;
        var calories := Calories(recipe.nutrition);
        if level == "low" && calories > 350 {
          continue;
        } else if level == "moderate" && !(350 < calories <= 500) {
          continue;
        } else if level == "high" && calories <= 500 {
          continue;
        }
      }
      filtered := filtered + [recipe];
    }
    assert recipes[..i] == recipes;
  }

  // ---------------------------------------------------------------- what the filter keeps

  /** `r` occurs in `a` in order, each element matched to a later one of `b`. */
  ghost predicate Subsequence<T>(a: seq<T>, b: seq<T>)
    decreases |b|
  {
    if a == [] then true
    else if b == [] then false
    else (a[|a| - 1] == b[|b| - 1] && Subsequence(a[..|a| - 1], b[..|b| - 1])) || Subsequence(a, b[..|b| - 1])
  }

  /** A recipe is in the result exactly when it is in the input and passes both filters. */
  lemma {:induction false} FilteredMembers(recipes: seq<Recipe>, physical: Option<Physical>, cultural: Option<Cultural>)
    ensures forall r :: r in Filtered(recipes, physical, cultural) <==> r in recipes && Keeps(r, physical, cultural)
  {
    if recipes != [] {
      var init, last := recipes[..|recipes| - 1], recipes[|recipes| - 1];
      FilteredMembers(init, physical, cultural);
      assert recipes == init + [last];
    }
  }

  /** The result keeps the input's order. */
  lemma {:induction false} FilteredOrdered(recipes: seq<Recipe>, physical: Option<Physical>, cultural: Option<Cultural>)
    ensures Subsequence(Filtered(recipes, physical, cultural), recipes)
  {
    if recipes != [] {
      var init, last := recipes[..|recipes| - 1], recipes[|recipes| - 1];
      FilteredOrdered(init, physical, cultural);
      var f := Filtered(recipes, physical, cultural);
      if Keeps(last, physical, cultural) {
        assert f[..|f| - 1] == Filtered(init, physical, cultural);
      } else {
        assert f == Filtered(init, physical, cultural) + [];
        assert f == Filtered(init, physical, cultural);
        SubsequenceDrop(f, init, last);
        assert init + [last] == recipes;
      }
    }
  }

  lemma SubsequenceDrop<T>(a: seq<T>, b: seq<T>, x: T)
    requires Subsequence(a, b)
    ensures Subsequence(a, b + [x])
  {
    if a != [] {
      assert (b + [x])[..|b|] == b;
    }
  }

  /** The cultural test in words: some lowercased tag occurs in the lowercased categories text. */
  lemma {:induction false} AnyTagInExists(diets: seq<string>, cats: string)
    ensures AnyTagIn(diets, cats) <==> exists i :: 0 <= i < |diets| && IsSubstring(Lower(diets[i]), cats)
  {
    if diets != [] {
      AnyTagInExists(diets[1..], cats);
      if exists i :: 0 <= i < |diets| && IsSubstring(Lower(diets[i]), cats) {
        var i :| 0 <= i < |diets| && IsSubstring(Lower(diets[i]), cats);
        if i > 0 {
          assert diets[1..][i - 1] == diets[i];
        }
      }
      if exists i :: 0 <= i < |diets[1..]| && IsSubstring(Lower(diets[1..][i]), cats) {
        var i :| 0 <= i < |diets[1..]| && IsSubstring(Lower(diets[1..][i]), cats);
        assert diets[i + 1] == diets[1..][i];
      }
    }
  }

  /** The calorie bands: "low" keeps at most 350, "moderate" more than 350 and at most 500,
      "high" more than 500, and any other level keeps every recipe. */
  lemma CalorieBands(r: Recipe, level: string)
    ensures var c := Calories(r.nutrition);
      Keeps(r, Some(Physical(Some(level))), None) <==>
        if level == "low" then c <= 350
        else if level == "moderate" then 350 < c <= 500
        else if level == "high" then c > 500
        else true
  {
  }

  /** Without a usable activity level (no physical data, no level, an empty or an unknown
      one) the calorie filter keeps everything the cultural filter keeps. */
  lemma {:induction false} NoCalorieFilter(recipes: seq<Recipe>, physical: Option<Physical>, cultural: Option<Cultural>)
    requires ActivityLevel(physical).None? || ActivityLevel(physical).value !in {"low", "moderate", "high"}
    ensures Filtered(recipes, physical, cultural) == Filtered(recipes, None, cultural)
  {
    if recipes != [] {
      NoCalorieFilter(recipes[..|recipes| - 1], physical, cultural);
    }
  }

  /** With neither filter in force every recipe is kept. */
  lemma {:induction false} NoFilterKeepsAll(recipes: seq<Recipe>, cultural: Option<Cultural>)
    requires DietTags(cultural).None?
    ensures Filtered(recipes, None, cultural) == recipes
  {
    if recipes != [] {
      NoFilterKeepsAll(recipes[..|recipes| - 1], cultural);
      assert recipes[..|recipes| - 1] + [recipes[|recipes| - 1]] == recipes;
    }
  }

  // ---------------------------------------------------------------- age groups

  /** The report's age group. */
  function AgeGroup(age: int): (g: string)
    ensures g == "senior" <==> age >= 60
    ensures g == "adult" <==> 18 <= age < 60
    ensures g == "teen" <==> 10 <= age < 18
    ensures g == "kid" <==> age < 10
  {
    if age >= 60 then "senior" else if age >= 18 then "adult" else if age >= 10 then "teen" else "kid"
  }

  /** `get_recipe_file`: the catalogue for the age, which is always the one named after the
      reported age group. */
  function RecipeFile(age: int): (path: string)
    ensures path == "/app/data/data_set/" + AgeGroup(age) + ".xlsx"
  {
    if age >= 60 then "/app/data/data_set/senior.xlsx"
    else if age >= 18 then "/app/data/data_set/adult.xlsx"
    else if age >= 10 then "/app/data/data_set/teen.xlsx"
    else "/app/data/data_set/kid.xlsx"
  }
}
