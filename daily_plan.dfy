/**
 * One day's plan: `generate_daily_plan` and `generate_senior_daily_plan`.
 *
 * Each fragment of the recipe's ingredient text is looked up by its base name; a fragment
 * whose category is known asks for one serving of the item named by the whole fragment,
 * and goes to the food-bank list when that serving was found and to the bring-yourself
 * list otherwise. Then every category is topped up to its per-meal requirement, and what
 * could still not be found is reported as `extra_needed`.
 *
 * Both generators work on copies of the inventory lists they are given, so a day never
 * changes the caller's lists. The two differ only in how they allocate (main only, or box
 * first then main); `DailyRun` states both, selected by `senior`.
 */
module DailyPlans {
  import opened Wrappers
  import opened Text
  import opened Inventory
  import opened Allocation
  import opened Senior
  import opened Recipes

  /** The working state of a day: both lists, the records so far, the per-category counts,
      the two ingredient lists, and the unmet requirements. */
  datatype DayState = DayState(
    box: seq<InventoryItem>,
    main: seq<InventoryItem>,
    used: seq<AllocationRecord>,
    counts: map<Category, int>,
    foodbank: seq<string>,
    user: seq<string>,
    extra: map<Category, int>)

  /** The plan a day returns. */
  datatype DailyPlan = DailyPlan(
    title: string,
    description: string,
    ingredients: seq<string>,
    foodbankItems: seq<string>,
    userItems: seq<string>,
    instructions: string,
    duration: string,
    mealCoverage: string,
    additionalRecommendations: string,
    warnings: string,
    categories: string,
    nutrition: map<string, int>,
    usedItems: seq<AllocationRecord>,
    extraNeeded: map<Category, int>)

  /** `category_counts[c]` of a `defaultdict(int)`. */
  function Count(counts: map<Category, int>, c: Category): int {
    if c in counts then counts[c] else 0
  }

  function Max(a: int, b: int): int {
    if a >= b then a else b
  }

  function Start(box: seq<InventoryItem>, main: seq<InventoryItem>): DayState {
    DayState(box, main, [], map[], [], [], map[])
  }

  // ---------------------------------------------------------------- the ingredient loop

  /** One serving of the item named `name`: box then main for a senior, main otherwise. */
  function AllocateItem(senior: bool, st: DayState, name: string, cat: Category): TwoTier {
    if senior then SeniorItem(st.box, st.main, name, cat, 1)
    else
      var g := Greedy(st.main, ByName(name, cat), 1, Main);
      TwoTier(g.used, g.remaining, st.box, g.inventory)
  }

  /** One pass of the ingredient loop. The lookup uses the base name; the allocation uses the
      whole fragment. */
  function PlaceStep(senior: bool, refMap: map<string, string>, st: DayState, ing: string): DayState {
    match Resolve(refMap, BaseName(ing))
    case None => st.(user := st.user + [ing])
    case Some(cat) => PlaceWith(st, ing, cat, AllocateItem(senior, st, ing, cat))
  }

  /** The state after the serving of `ing` was asked for and `a` came back: the fragment
      goes to the food-bank list when the serving was found, to the user's list otherwise. */
  function PlaceWith(st: DayState, ing: string, cat: Category, a: TwoTier): DayState {
    st.(box := a.box, main := a.main, used := st.used + a.used,
        counts := st.counts[cat := Count(st.counts, cat) + 1 - a.remaining],
        foodbank := if a.remaining > 0 then st.foodbank else st.foodbank + [ing],
        user := if a.remaining > 0 then st.user + [ing] else st.user)
  }

  lemma PlaceWithUnfold(st: DayState, ing: string, cat: Category, a: TwoTier)
    ensures PlaceWith(st, ing, cat, a) ==
      DayState(a.box, a.main, st.used + a.used, st.counts[cat := Count(st.counts, cat) + 1 - a.remaining],
               if a.remaining > 0 then st.foodbank else st.foodbank + [ing],
               if a.remaining > 0 then st.user + [ing] else st.user, st.extra)
  {
  }

  function PlaceAll(senior: bool, refMap: map<string, string>, st: DayState, frags: seq<string>): DayState {
    if frags == [] then st
    else PlaceStep(senior, refMap, PlaceAll(senior, refMap, st, frags[..|frags| - 1]), frags[|frags| - 1])
  }

  // ---------------------------------------------------------------- the requirement loop

  /** The shortfall of one category: for a senior misc by priority over box then main, for
      a senior any other category box then main, otherwise `allocate_category` on main. */
  function AllocateShortfall(senior: bool, st: DayState, cat: Category, n: int): TwoTier {
    if senior then
      if cat == Misc then SeniorMisc(MiscPriority, st.box, st.main, n) else SeniorCategory(st.box, st.main, cat, n)
    else
      var a := CategoryAllocation(st.main, cat, n);
      TwoTier(a.used, a.remaining, st.box, a.inventory)
  }

  /** One pass of the requirement loop. */
  function TopUpStep(senior: bool, st: DayState, cat: Category): DayState {
    var required := Requirement(cat);
    var shortfall := Max(0, required - Count(st.counts, cat));
    if shortfall > 0 then TopUpWith(st, cat, AllocateShortfall(senior, st, cat, shortfall)) else st
  }

  /** The state after a category's shortfall was asked for and `a` came back: the count
      grows by what was found, and what is still short of the requirement is recorded. */
  function TopUpWith(st: DayState, cat: Category, a: TwoTier): DayState {
    var required := Requirement(cat);
    var count := Count(st.counts, cat) + Sum(a.used);
    st.(box := a.box, main := a.main, used := st.used + a.used, counts := st.counts[cat := count],
        extra := if required - count > 0 then st.extra[cat := required - count] else st.extra)
  }

  lemma TopUpStepUnfold(senior: bool, st: DayState, cat: Category)
    ensures var shortfall := Max(0, Requirement(cat) - Count(st.counts, cat));
      TopUpStep(senior, st, cat) == if shortfall > 0 then TopUpWith(st, cat, AllocateShortfall(senior, st, cat, shortfall)) else st
  {
  }

  lemma TopUpWithUnfold(st: DayState, cat: Category, a: TwoTier)
    ensures var count := Count(st.counts, cat) + Sum(a.used);
      TopUpWith(st, cat, a) ==
        st.(box := a.box, main := a.main, used := st.used + a.used, counts := st.counts[cat := count],
            extra := if Requirement(cat) - count > 0 then st.extra[cat := Requirement(cat) - count] else st.extra)
  {
  }

  function TopUpAll(senior: bool, st: DayState, cats: seq<Category>): DayState {
    if cats == [] then st
    else TopUpStep(senior, TopUpAll(senior, st, cats[..|cats| - 1]), cats[|cats| - 1])
  }

  lemma PlaceAllSnoc(senior: bool, refMap: map<string, string>, st: DayState, frags: seq<string>, i: nat)
    requires i < |frags|
    ensures PlaceAll(senior, refMap, st, frags[..i + 1]) == PlaceStep(senior, refMap, PlaceAll(senior, refMap, st, frags[..i]), frags[i])
  {
    assert frags[..i + 1][..i] == frags[..i];
  }

  lemma TopUpAllSnoc(senior: bool, st: DayState, cats: seq<Category>, k: nat)
    requires k < |cats|
    ensures TopUpAll(senior, st, cats[..k + 1]) == TopUpStep(senior, TopUpAll(senior, st, cats[..k]), cats[k])
  {
    assert cats[..k + 1][..k] == cats[..k];
  }

  // ---------------------------------------------------------------- the day

  /** The state at the end of a day. */
  function DailyRun(senior: bool, recipe: Recipe, box: seq<InventoryItem>, main: seq<InventoryItem>, refMap: map<string, string>): DayState {
    TopUpAll(senior, PlaceAll(senior, refMap, Start(box, main), Fragments(recipe.ingredients)), RequirementOrder)
  }

  const ZeroNutrition: map<string, int> := map["calories" := 0, "carbs_g" := 0, "protein_g" := 0, "sugar_g" := 0]

  /** The plan's nutrition: the decoded mapping, or all zeros. */
  function PlanNutrition(n: Nutrition): (r: map<string, int>)
    ensures n.Decoded? ==> r == n.fields
    ensures n.Undecodable? ==> r.Keys == {"calories", "carbs_g", "protein_g", "sugar_g"} && forall k :: k in r ==> r[k] == 0
  {
    match n
    case Decoded(fields) => fields
    case Undecodable => ZeroNutrition
  }

  function PlanOf(recipe: Recipe, frags: seq<string>, st: DayState): DailyPlan {
    DailyPlan(recipe.title, recipe.description, frags, st.foodbank, st.user, recipe.instructions, recipe.duration,
              match recipe.mealCoverage case Some(m) => m case None => "Lunch",
              recipe.additionalRecommendations, recipe.warnings, recipe.categories,
              PlanNutrition(recipe.nutrition), st.used, st.extra)
  }

  /** The plan of a day, from the lists the day starts with. */
  function DailyPlanOf(senior: bool, recipe: Recipe, box: seq<InventoryItem>, main: seq<InventoryItem>, refMap: map<string, string>): DailyPlan {
    PlanOf(recipe, Fragments(recipe.ingredients), DailyRun(senior, recipe, box, main, refMap))
  }

  // ---------------------------------------------------------------- one allocation

  /** One serving asked for: at most one found, conservation over both lists, both lists only
      lose stock, and a non-senior day never touches the box. */
  lemma ItemSound(senior: bool, st: DayState, name: string, cat: Category)
    ensures var a := AllocateItem(senior, st, name, cat);
      0 <= a.remaining <= 1 && Sum(a.used) + a.remaining == 1 &&
      Sum(a.used) == (Total(st.box) - Total(a.box)) + (Total(st.main) - Total(a.main)) &&
      Depletes(st.box, a.box) && Depletes(st.main, a.main) &&
      (!senior ==> a.box == st.box)
  {
    if senior {
      SeniorItemTotal(st.box, st.main, name, cat, 1);
      SeniorItemFallback(st.box, st.main, name, cat, 1);
    } else {
      GreedyTotal(st.main, ByName(name, cat), 1, Main);
      GreedyFrame(st.main, ByName(name, cat), 1, Main);
    }
  }

  /** What a shortfall of `n` asked for returns as `a`: what was found plus what is still
      missing is `n`, conservation over both lists, both lists only lose stock, when
      something is still missing the category has no stock left in main (nor, for a senior,
      in the box), and a non-senior day never touches the box. */
  ghost predicate ShortfallFacts(senior: bool, st: DayState, cat: Category, n: int, a: TwoTier) {
    0 <= a.remaining <= n && Sum(a.used) + a.remaining == n &&
    Sum(a.used) == (Total(st.box) - Total(a.box)) + (Total(st.main) - Total(a.main)) &&
    Depletes(st.box, a.box) && Depletes(st.main, a.main) &&
    (a.remaining > 0 ==> Exhausted(a.main, cat) && (senior ==> Exhausted(a.box, cat))) &&
    (!senior ==> a.box == st.box)
  }

  lemma ShortfallSound(senior: bool, st: DayState, cat: Category, n: int)
    requires n > 0
    ensures ShortfallFacts(senior, st, cat, n, AllocateShortfall(senior, st, cat, n))
  {
    if senior {
      if cat == Misc {
        SeniorMiscShortfall(st, n);
      } else {
        SeniorCategoryShortfall(st, cat, n);
      }
    } else {
      MainShortfall(st, cat, n);
    }
  }

  lemma SeniorMiscShortfall(st: DayState, n: int)
    requires n > 0
    ensures ShortfallFacts(true, st, Misc, n, SeniorMisc(MiscPriority, st.box, st.main, n))
  {
    var r := SeniorMisc(MiscPriority, st.box, st.main, n);
    SeniorMiscTotal(MiscPriority, st.box, st.main, n);
    SeniorMiscFrame(MiscPriority, st.box, st.main, n);
    SeniorMiscExhausts(MiscPriority, st.box, st.main, n);
    if r.remaining > 0 {
      NoneLeftExhausted(r.box);
      NoneLeftExhausted(r.main);
    }
  }

  /** No misc entry on the priority list has stock left: misc is exhausted. */
  lemma NoneLeftExhausted(inv: seq<InventoryItem>)
    requires NoneLeft(inv, MiscPriority)
    ensures Exhausted(inv, Misc)
  {
    forall i | 0 <= i < |inv| && Covers(inv[i], Misc)
      ensures inv[i].servings <= 0
    {
      assert MiscCovers(inv[i], MiscPriority);
    }
  }

  lemma SeniorCategoryShortfall(st: DayState, cat: Category, n: int)
    requires n > 0 && cat != Misc
    ensures ShortfallFacts(true, st, cat, n, SeniorCategory(st.box, st.main, cat, n))
  {
    var r := SeniorCategory(st.box, st.main, cat, n);
    SeniorCategoryTotal(st.box, st.main, cat, n);
    SeniorCategoryFallback(st.box, st.main, cat, n);
    if r.remaining > 0 {
      forall i | 0 <= i < |r.box| && Covers(r.box[i], cat)
        ensures r.box[i].servings <= 0
      {
        assert r.box[i].category == cat;
      }
    }
  }

  lemma MainShortfall(st: DayState, cat: Category, n: int)
    requires n > 0
    ensures ShortfallFacts(false, st, cat, n, AllocateShortfall(false, st, cat, n))
  {
    CategoryAllocationSound(st.main, cat, n);
  }

  // ---------------------------------------------------------------- the ingredient loop

  /** `a` and `b` split `xs` between them, each keeping the order the elements had in `xs`. */
  ghost predicate Interleaves(xs: seq<string>, a: seq<string>, b: seq<string>)
    decreases |xs|
  {
    if xs == [] then a == [] && b == []
    else
      var x, init := xs[|xs| - 1], xs[..|xs| - 1];
      (a != [] && a[|a| - 1] == x && Interleaves(init, a[..|a| - 1], b)) ||
      (b != [] && b[|b| - 1] == x && Interleaves(init, a, b[..|b| - 1]))
  }

  /** Every fragment lands in exactly one of the two lists, in input order; a food-bank
      fragment always has a known category, so one without a category is always the user's. */
  lemma {:induction false} PlaceAllRoutes(senior: bool, refMap: map<string, string>, st: DayState, frags: seq<string>)
    requires st.foodbank == [] && st.user == []
    ensures Interleaves(frags, PlaceAll(senior, refMap, st, frags).foodbank, PlaceAll(senior, refMap, st, frags).user)
    ensures forall x :: x in PlaceAll(senior, refMap, st, frags).foodbank ==> Resolve(refMap, BaseName(x)).Some?
    ensures forall x :: x in frags && Resolve(refMap, BaseName(x)).None? ==> x in PlaceAll(senior, refMap, st, frags).user
  {
    if frags != [] {
      var init, x := frags[..|frags| - 1], frags[|frags| - 1];
      var prev := PlaceAll(senior, refMap, st, init);
      var r := PlaceAll(senior, refMap, st, frags);
      PlaceAllRoutes(senior, refMap, st, init);
      PlaceStepRoutes(senior, refMap, prev, x);
      RoutesExtend(refMap, frags, prev.foodbank, prev.user, r.foodbank, r.user);
    }
  }

  /** The routing facts carry over from all but the last fragment to all of them. */
  lemma RoutesExtend(refMap: map<string, string>, frags: seq<string>,
                     foodbank: seq<string>, user: seq<string>, foodbank': seq<string>, user': seq<string>)
    requires frags != []
    requires Interleaves(frags[..|frags| - 1], foodbank, user)
    requires forall y :: y in foodbank ==> Resolve(refMap, BaseName(y)).Some?
    requires forall y :: y in frags[..|frags| - 1] && Resolve(refMap, BaseName(y)).None? ==> y in user
    requires var x := frags[|frags| - 1];
      (foodbank' == foodbank + [x] && user' == user && Resolve(refMap, BaseName(x)).Some?) ||
      (user' == user + [x] && foodbank' == foodbank)
    ensures Interleaves(frags, foodbank', user')
    ensures forall y :: y in foodbank' ==> Resolve(refMap, BaseName(y)).Some?
    ensures forall y :: y in frags && Resolve(refMap, BaseName(y)).None? ==> y in user'
  {
    var init, x := frags[..|frags| - 1], frags[|frags| - 1];
    if foodbank' == foodbank + [x] && user' == user && Resolve(refMap, BaseName(x)).Some? {
      assert foodbank'[..|foodbank'| - 1] == foodbank;
    } else {
      assert user'[..|user'| - 1] == user;
    }
    forall y | y in frags && Resolve(refMap, BaseName(y)).None?
      ensures y in user'
    {
      var i :| 0 <= i < |frags| && frags[i] == y;
      if i < |frags| - 1 {
        assert init[i] == y;
      }
    }
  }

  /** One fragment goes to exactly one of the two lists, and to the food-bank list only
      when its category is known. */
  lemma PlaceStepRoutes(senior: bool, refMap: map<string, string>, st: DayState, ing: string)
    ensures var r := PlaceStep(senior, refMap, st, ing);
      (r.foodbank == st.foodbank + [ing] && r.user == st.user && Resolve(refMap, BaseName(ing)).Some?) ||
      (r.user == st.user + [ing] && r.foodbank == st.foodbank)
  {
    match Resolve(refMap, BaseName(ing))
    case None =>
    case Some(cat) =>
      var a := AllocateItem(senior, st, ing, cat);
      assert PlaceStep(senior, refMap, st, ing) == PlaceWith(st, ing, cat, a);
  }

  // ---------------------------------------------------------------- what the food-bank list means

  /** A serving of the whole fragment `ing` of category `cat` can be had: from main, or for a
      senior from the box or main. */
  ghost predicate Available(senior: bool, st: DayState, ing: string, cat: Category) {
    Serves(st.main, ByName(ing, cat)) || (senior && Serves(st.box, ByName(ing, cat)))
  }

  /** A record of one serving of an entry whose key is the fragment's and whose category is `cat`. */
  predicate ServingOf(rec: AllocationRecord, ing: string, cat: Category) {
    Key(rec.itemName) == Key(ing) && rec.category == cat && rec.servingsUsed == 1
  }

  /** One serving of `name`: found exactly when it is available, and then recorded once. */
  lemma ItemOne(senior: bool, st: DayState, name: string, cat: Category)
    ensures var a := AllocateItem(senior, st, name, cat);
      (a.remaining == 0 <==> Available(senior, st, name, cat)) &&
      (a.remaining == 0 ==> |a.used| == 1 && ServingOf(a.used[0], name, cat)) &&
      (a.remaining != 0 ==> a.used == [])
  {
    if senior {
      SeniorItemOne(st.box, st.main, name, cat);
    } else {
      GreedyOne(st.main, ByName(name, cat), Main);
    }
  }

  /** Where one fragment goes. It goes to the food-bank list exactly when its base name has a
      known category and a serving of the WHOLE fragment (an entry with the fragment's own
      key) is available; then exactly one record, of one serving of such an entry, is added.
      Otherwise it goes to the user's list and nothing is recorded. */
  lemma PlaceStepServes(senior: bool, refMap: map<string, string>, st: DayState, ing: string)
    ensures var r := PlaceStep(senior, refMap, st, ing);
      var c := Resolve(refMap, BaseName(ing));
      (r.foodbank == st.foodbank + [ing] <==> c.Some? && Available(senior, st, ing, c.value)) &&
      (r.foodbank == st.foodbank + [ing] ==>
        |r.used| == |st.used| + 1 && r.used[..|st.used|] == st.used && ServingOf(r.used[|st.used|], ing, c.value) &&
        r.user == st.user) &&
      (r.foodbank != st.foodbank + [ing] ==> r.foodbank == st.foodbank && r.used == st.used && r.user == st.user + [ing])
  {
    match Resolve(refMap, BaseName(ing))
    case None =>
      assert |st.foodbank + [ing]| != |st.foodbank|;
    case Some(cat) =>
      var a := AllocateItem(senior, st, ing, cat);
      assert PlaceStep(senior, refMap, st, ing) == PlaceWith(st, ing, cat, a);
      ItemOne(senior, st, ing, cat);
      if a.remaining == 0 {
        assert (st.used + a.used)[..|st.used|] == st.used;
      } else {
        assert st.used + a.used == st.used;
        assert |st.foodbank + [ing]| != |st.foodbank|;
      }
  }

  /** The ingredient loop's records pair up with the food-bank list: record `j` is the one
      serving found for food-bank fragment `j`. */
  ghost predicate FoodbankServed(refMap: map<string, string>, foodbank: seq<string>, used: seq<AllocationRecord>) {
    |foodbank| <= |used| &&
    forall j :: 0 <= j < |foodbank| ==>
      Resolve(refMap, BaseName(foodbank[j])).Some? && ServingOf(used[j], foodbank[j], Resolve(refMap, BaseName(foodbank[j])).value)
  }

  /** Over the whole ingredient loop there is exactly one record per food-bank fragment, in
      the same order, each of one serving of an entry with that fragment's key and category. */
  lemma {:induction false} PlaceAllServed(senior: bool, refMap: map<string, string>, st: DayState, frags: seq<string>)
    requires st.foodbank == [] && st.used == []
    ensures var r := PlaceAll(senior, refMap, st, frags);
      |r.used| == |r.foodbank| && FoodbankServed(refMap, r.foodbank, r.used)
  {
    if frags != [] {
      var prev := PlaceAll(senior, refMap, st, frags[..|frags| - 1]);
      var r := PlaceAll(senior, refMap, st, frags);
      var x := frags[|frags| - 1];
      PlaceAllServed(senior, refMap, st, frags[..|frags| - 1]);
      PlaceStepServes(senior, refMap, prev, x);
      ServedExtend(refMap, prev.foodbank, prev.used, r.foodbank, r.used, x);
    }
  }

  /** The pairing carries over one more fragment. */
  lemma ServedExtend(refMap: map<string, string>, foodbank: seq<string>, used: seq<AllocationRecord>,
                     foodbank': seq<string>, used': seq<AllocationRecord>, x: string)
    requires |used| == |foodbank| && FoodbankServed(refMap, foodbank, used)
    requires (foodbank' == foodbank + [x] && |used'| == |used| + 1 && used'[..|used|] == used &&
              Resolve(refMap, BaseName(x)).Some? && ServingOf(used'[|used|], x, Resolve(refMap, BaseName(x)).value)) ||
             (foodbank' == foodbank && used' == used)
    ensures |used'| == |foodbank'| && FoodbankServed(refMap, foodbank', used')
  {
    if foodbank' != foodbank {
      forall j | 0 <= j < |foodbank'|
        ensures Resolve(refMap, BaseName(foodbank'[j])).Some? &&
          ServingOf(used'[j], foodbank'[j], Resolve(refMap, BaseName(foodbank'[j])).value)
      {
        if j < |foodbank| {
          assert foodbank'[j] == foodbank[j] && used'[j] == used'[..|used|][j];
        }
      }
    }
  }

  /** The requirement loop only appends records and leaves the food-bank list alone. */
  lemma {:induction false} TopUpAllKeepsUsed(senior: bool, st: DayState, cats: seq<Category>)
    ensures var r := TopUpAll(senior, st, cats);
      |st.used| <= |r.used| && r.used[..|st.used|] == st.used && r.foodbank == st.foodbank
  {
    if cats != [] {
      var prev := TopUpAll(senior, st, cats[..|cats| - 1]);
      TopUpAllKeepsUsed(senior, st, cats[..|cats| - 1]);
      TopUpStepKeepsUsed(senior, prev, cats[|cats| - 1]);
      var r := TopUpAll(senior, st, cats);
      PrefixOfPrefix(st.used, prev.used, r.used);
    }
  }

  lemma TopUpStepKeepsUsed(senior: bool, st: DayState, cat: Category)
    ensures var r := TopUpStep(senior, st, cat);
      |st.used| <= |r.used| && r.used[..|st.used|] == st.used && r.foodbank == st.foodbank
  {
    var shortfall := Max(0, Requirement(cat) - Count(st.counts, cat));
    if shortfall > 0 {
      var a := AllocateShortfall(senior, st, cat, shortfall);
      assert TopUpStep(senior, st, cat) == TopUpWith(st, cat, a);
      TopUpWithUnfold(st, cat, a);
      assert (st.used + a.used)[..|st.used|] == st.used;
    }
  }

  lemma PrefixOfPrefix<T>(a: seq<T>, b: seq<T>, c: seq<T>)
    requires |a| <= |b| <= |c| && b[..|a|] == a && c[..|b|] == b
    ensures c[..|a|] == a
  {
    assert c[..|a|] == c[..|b|][..|a|];
  }

  /** A day's food-bank fragments are exactly those served: the first records of the day pair
      up with them in order, each one serving of an entry with the fragment's own key and
      category; the requirement loop's records follow. */
  lemma DailyRunServed(senior: bool, recipe: Recipe, box: seq<InventoryItem>, main: seq<InventoryItem>, refMap: map<string, string>)
    ensures var r := DailyRun(senior, recipe, box, main, refMap);
      FoodbankServed(refMap, r.foodbank, r.used)
  {
    var placed := PlaceAll(senior, refMap, Start(box, main), Fragments(recipe.ingredients));
    var r := TopUpAll(senior, placed, RequirementOrder);
    PlaceAllServed(senior, refMap, Start(box, main), Fragments(recipe.ingredients));
    TopUpAllKeepsUsed(senior, placed, RequirementOrder);
    forall j | 0 <= j < |r.foodbank|
      ensures ServingOf(r.used[j], r.foodbank[j], Resolve(refMap, BaseName(r.foodbank[j])).value)
    {
      assert r.used[j] == r.used[..|placed.used|][j];
    }
  }

  /** A fragment with a quantity is looked up by its base name but asked for whole: with
      "rice" listed as grains and one serving of "Rice" in stock, "Rice 200g" still goes to
      the user's list, since no entry's key is "rice 200g". */
  lemma WholeFragmentAsked(refMap: map<string, string>, ing: string, st: DayState)
    requires refMap == map["rice" := "grains"] && ing == "Rice 200g"
    requires st == Start([], [InventoryItem("Rice", Cereal, 1)])
    ensures var r := PlaceAll(false, refMap, st, [ing]);
      Resolve(refMap, BaseName(ing)) == Some(Cereal) && r.foodbank == [] && r.user == [ing] && r.used == []
  {
    RiceKeys();
    RiceIsGrains();
    PlaceAllOne(false, refMap, st, ing);
    RiceNotServed(st.main);
    PlaceStepServes(false, refMap, st, ing);
  }

  lemma PlaceAllOne(senior: bool, refMap: map<string, string>, st: DayState, ing: string)
    ensures PlaceAll(senior, refMap, st, [ing]) == PlaceStep(senior, refMap, st, ing)
  {
    assert [ing][..0] == [];
  }

  /** One serving of "Rice" does not serve a request for "Rice 200g". */
  lemma RiceNotServed(main: seq<InventoryItem>)
    requires main == [InventoryItem("Rice", Cereal, 1)]
    ensures !Serves(main, ByName("Rice 200g", Cereal))
  {
    RiceKeys();
    assert Key(main[0].itemName) != Key("Rice 200g");
  }

  lemma RiceIsGrains()
    ensures Resolve(map["rice" := "grains"], "rice") == Some(Cereal)
  {
    assert "rice" in map["rice" := "grains"];
    assert CategoryOfLabel("grains") == Some(Cereal);
  }

  /** The fragment "Rice 200g" has base name "rice" but key "rice 200g"; "Rice" has key "rice". */
  lemma RiceKeys()
    ensures BaseName("Rice 200g") == "rice" && Key("Rice") == "rice" && Key("Rice 200g") != Key("Rice")
  {
    var ing := "Rice 200g";
    assert RunEnd(ing, 4) == 5;
    assert QuantityAt(ing, 4);
    assert !QuantityAt(ing, 0) && !QuantityAt(ing, 1) && !QuantityAt(ing, 2) && !QuantityAt(ing, 3);
    assert QuantityCut(ing, 0) == 4;
    KeyKeepsLength("Rice");
    KeyKeepsLength(ing);
    assert ing[..4] == "Rice";
  }

  /** Conservation and depletion over one ingredient; counts never go negative and the
      unmet requirements are not touched. */
  lemma PlaceStepStock(senior: bool, refMap: map<string, string>, st: DayState, ing: string)
    requires forall c :: Count(st.counts, c) >= 0
    ensures var r := PlaceStep(senior, refMap, st, ing);
      Sum(r.used) - Sum(st.used) == (Total(st.box) - Total(r.box)) + (Total(st.main) - Total(r.main)) &&
      Depletes(st.box, r.box) && Depletes(st.main, r.main) &&
      (forall c :: Count(r.counts, c) >= 0) && r.extra == st.extra &&
      (!senior ==> r.box == st.box)
  {
    match Resolve(refMap, BaseName(ing))
    case None =>
    case Some(cat) =>
      var a := AllocateItem(senior, st, ing, cat);
      var r := PlaceWith(st, ing, cat, a);
      assert PlaceStep(senior, refMap, st, ing) == r;
      ItemSound(senior, st, ing, cat);
      SumConcat(st.used, a.used);
      forall c
        ensures Count(r.counts, c) >= 0
      {
        if c != cat {
          assert Count(r.counts, c) == Count(st.counts, c);
        }
      }
  }

  /** Conservation and depletion over the ingredient loop; counts never go negative and
      the unmet requirements are not touched. */
  lemma {:induction false} PlaceAllStock(senior: bool, refMap: map<string, string>, st: DayState, frags: seq<string>)
    requires forall c :: Count(st.counts, c) >= 0
    ensures var r := PlaceAll(senior, refMap, st, frags);
      Sum(r.used) - Sum(st.used) == (Total(st.box) - Total(r.box)) + (Total(st.main) - Total(r.main)) &&
      Depletes(st.box, r.box) && Depletes(st.main, r.main) &&
      (forall c :: Count(r.counts, c) >= 0) && r.extra == st.extra &&
      (!senior ==> r.box == st.box)
  {
    if frags != [] {
      var prev := PlaceAll(senior, refMap, st, frags[..|frags| - 1]);
      var r := PlaceAll(senior, refMap, st, frags);
      PlaceAllStock(senior, refMap, st, frags[..|frags| - 1]);
      PlaceStepStock(senior, refMap, prev, frags[|frags| - 1]);
      DepletesTransitive(st.box, prev.box, r.box);
      DepletesTransitive(st.main, prev.main, r.main);
    }
  }

  // ---------------------------------------------------------------- the requirement loop

  /** What the requirement loop keeps: counts are never negative, and every unmet
      requirement is positive, at most the category's requirement, and backed by an
      exhausted category (in main, and for a senior in the box too). */
  ghost predicate TopUpInvariant(senior: bool, st: DayState) {
    (forall c :: Count(st.counts, c) >= 0) &&
    (forall c :: c in st.extra ==>
      0 < st.extra[c] <= Requirement(c) && Exhausted(st.main, c) && (senior ==> Exhausted(st.box, c)))
  }

  lemma TopUpStepSound(senior: bool, st: DayState, cat: Category)
    requires TopUpInvariant(senior, st)
    ensures var r := TopUpStep(senior, st, cat);
      TopUpInvariant(senior, r) && r.foodbank == st.foodbank && r.user == st.user &&
      Sum(r.used) - Sum(st.used) == (Total(st.box) - Total(r.box)) + (Total(st.main) - Total(r.main)) &&
      Depletes(st.box, r.box) && Depletes(st.main, r.main) &&
      (!senior ==> r.box == st.box)
  {
    var shortfall := Max(0, Requirement(cat) - Count(st.counts, cat));
    if shortfall > 0 {
      var a := AllocateShortfall(senior, st, cat, shortfall);
      assert TopUpStep(senior, st, cat) == TopUpWith(st, cat, a);
      ShortfallSound(senior, st, cat, shortfall);
      TopUpWithSound(senior, st, cat, shortfall, a);
    }
  }

  /** `TopUpStep` once the shortfall came back, whatever allocation produced it. */
  lemma TopUpWithSound(senior: bool, st: DayState, cat: Category, n: int, a: TwoTier)
    requires TopUpInvariant(senior, st)
    requires n == Requirement(cat) - Count(st.counts, cat) > 0
    requires ShortfallFacts(senior, st, cat, n, a)
    ensures var r := TopUpWith(st, cat, a);
      TopUpInvariant(senior, r) && r.foodbank == st.foodbank && r.user == st.user &&
      Sum(r.used) - Sum(st.used) == (Total(st.box) - Total(r.box)) + (Total(st.main) - Total(r.main)) &&
      Depletes(st.box, r.box) && Depletes(st.main, r.main) &&
      (!senior ==> r.box == st.box)
  {
    var r := TopUpWith(st, cat, a);
    SumConcat(st.used, a.used);
    assert Count(r.counts, cat) == Requirement(cat) - a.remaining;
    forall c
      ensures Count(r.counts, c) >= 0
    {
      if c != cat {
        assert Count(r.counts, c) == Count(st.counts, c);
      }
    }
    forall c | c in r.extra
      ensures 0 < r.extra[c] <= Requirement(c) && Exhausted(r.main, c) && (senior ==> Exhausted(r.box, c))
    {
      if c != cat || r.extra == st.extra {
        ExhaustedStays(st.main, r.main, c);
        if senior {
          ExhaustedStays(st.box, r.box, c);
        }
      }
    }
  }

  /** The requirement loop keeps its invariant, leaves the ingredient lists alone, and
      conserves stock. */
  lemma {:induction false} TopUpAllSound(senior: bool, st: DayState, cats: seq<Category>)
    requires TopUpInvariant(senior, st)
    ensures var r := TopUpAll(senior, st, cats);
      TopUpInvariant(senior, r) && r.foodbank == st.foodbank && r.user == st.user &&
      Sum(r.used) - Sum(st.used) == (Total(st.box) - Total(r.box)) + (Total(st.main) - Total(r.main)) &&
      Depletes(st.box, r.box) && Depletes(st.main, r.main) &&
      (!senior ==> r.box == st.box)
  {
    if cats != [] {
      var prev := TopUpAll(senior, st, cats[..|cats| - 1]);
      var r := TopUpAll(senior, st, cats);
      TopUpAllSound(senior, st, cats[..|cats| - 1]);
      TopUpStepSound(senior, prev, cats[|cats| - 1]);
      DepletesTransitive(st.box, prev.box, r.box);
      DepletesTransitive(st.main, prev.main, r.main);
    }
  }

  /** Category `c` either met its requirement or has its deficit reported in full. */
  ghost predicate MetOrReported(st: DayState, c: Category) {
    if c in st.extra then Count(st.counts, c) + st.extra[c] == Requirement(c)
    else Count(st.counts, c) >= Requirement(c)
  }

  /** One pass settles its own category and leaves every other category's count and
      unmet requirement as they were. */
  lemma TopUpStepMeets(senior: bool, st: DayState, cat: Category)
    ensures var r := TopUpStep(senior, st, cat);
      (forall c :: c != cat ==> Count(r.counts, c) == Count(st.counts, c)) &&
      (forall c :: c != cat ==> (c in r.extra <==> c in st.extra)) &&
      (forall c :: c != cat && c in r.extra ==> r.extra[c] == st.extra[c]) &&
      (cat !in st.extra ==> MetOrReported(r, cat))
  {
    var shortfall := Max(0, Requirement(cat) - Count(st.counts, cat));
    if shortfall > 0 {
      var a := AllocateShortfall(senior, st, cat, shortfall);
      assert TopUpStep(senior, st, cat) == TopUpWith(st, cat, a);
      ShortfallSound(senior, st, cat, shortfall);
      TopUpWithMeets(senior, st, cat, shortfall, a);
    }
  }

  lemma TopUpWithMeets(senior: bool, st: DayState, cat: Category, n: int, a: TwoTier)
    requires n == Requirement(cat) - Count(st.counts, cat) > 0
    requires ShortfallFacts(senior, st, cat, n, a)
    ensures var r := TopUpWith(st, cat, a);
      (forall c :: c != cat ==> Count(r.counts, c) == Count(st.counts, c)) &&
      (forall c :: c != cat ==> (c in r.extra <==> c in st.extra)) &&
      (forall c :: c != cat && c in r.extra ==> r.extra[c] == st.extra[c]) &&
      (cat !in st.extra ==> MetOrReported(r, cat))
  {
    var r := TopUpWith(st, cat, a);
    assert Count(r.counts, cat) + a.remaining == Requirement(cat);
  }

  /** After the requirement loop over distinct categories, starting with nothing unmet,
      each of them met its requirement or reports exactly its deficit, and no other
      category is reported. */
  lemma {:induction false} TopUpAllMeets(senior: bool, st: DayState, cats: seq<Category>)
    requires st.extra == map[]
    requires forall i, j :: 0 <= i < j < |cats| ==> cats[i] != cats[j]
    ensures forall c :: c in TopUpAll(senior, st, cats).extra ==> c in cats
    ensures forall c :: c in cats ==> MetOrReported(TopUpAll(senior, st, cats), c)
  {
    if cats != [] {
      var init, cat := cats[..|cats| - 1], cats[|cats| - 1];
      var prev := TopUpAll(senior, st, init);
      var r := TopUpAll(senior, st, cats);
      TopUpAllMeets(senior, st, init);
      TopUpStepMeets(senior, prev, cat);
      forall c | c in cats
        ensures MetOrReported(r, c)
      {
        if c != cat {
          assert c in init by {
            var i :| 0 <= i < |cats| && cats[i] == c;
            assert init[i] == c;
          }
        }
      }
    }
  }

  // ---------------------------------------------------------------- the day

  /** A day routes each ingredient fragment to exactly one list, in order, and only
      fragments of a known category to the food-bank list. */
  lemma DailyRunRoutes(senior: bool, recipe: Recipe, box: seq<InventoryItem>, main: seq<InventoryItem>, refMap: map<string, string>)
    ensures var r := DailyRun(senior, recipe, box, main, refMap);
      Interleaves(Fragments(recipe.ingredients), r.foodbank, r.user) &&
      (forall x :: x in r.foodbank ==> Resolve(refMap, BaseName(x)).Some?)
  {
    var placed := PlaceAll(senior, refMap, Start(box, main), Fragments(recipe.ingredients));
    PlaceAllRoutes(senior, refMap, Start(box, main), Fragments(recipe.ingredients));
    PlaceAllStock(senior, refMap, Start(box, main), Fragments(recipe.ingredients));
    TopUpAllSound(senior, placed, RequirementOrder);
  }

  /** `extra_needed`: every value is positive and at most the category's requirement (so
      dairy, required 0 times, never appears), and a category is listed only when the
      day's lists have none of it left to give. */
  lemma DailyRunExtra(senior: bool, recipe: Recipe, box: seq<InventoryItem>, main: seq<InventoryItem>, refMap: map<string, string>)
    ensures var r := DailyRun(senior, recipe, box, main, refMap);
      (forall c :: c in r.extra ==>
        0 < r.extra[c] <= Requirement(c) && Exhausted(r.main, c) && (senior ==> Exhausted(r.box, c))) &&
      Dairy !in r.extra
  {
    var placed := PlaceAll(senior, refMap, Start(box, main), Fragments(recipe.ingredients));
    PlaceAllStock(senior, refMap, Start(box, main), Fragments(recipe.ingredients));
    TopUpAllSound(senior, placed, RequirementOrder);
  }

  /** Every category of the day met its per-meal requirement or reports exactly its deficit
      in `extra_needed`. */
  lemma DailyRunMeets(senior: bool, recipe: Recipe, box: seq<InventoryItem>, main: seq<InventoryItem>, refMap: map<string, string>)
    ensures forall c :: MetOrReported(DailyRun(senior, recipe, box, main, refMap), c)
  {
    var placed := PlaceAll(senior, refMap, Start(box, main), Fragments(recipe.ingredients));
    PlaceAllStock(senior, refMap, Start(box, main), Fragments(recipe.ingredients));
    RequirementOrderLists();
    TopUpAllMeets(senior, placed, RequirementOrder);
  }

  /** The requirement loop visits every category exactly once. */
  lemma RequirementOrderLists()
    ensures forall i, j :: 0 <= i < j < |RequirementOrder| ==> RequirementOrder[i] != RequirementOrder[j]
    ensures forall c :: c in RequirementOrder
  {
    forall c
      ensures c in RequirementOrder
    {
      match c
      case FruitVeg => assert RequirementOrder[0] == c;
      case Cereal => assert RequirementOrder[1] == c;
      case Dairy => assert RequirementOrder[2] == c;
      case Protein => assert RequirementOrder[3] == c;
      case Oil => assert RequirementOrder[4] == c;
      case Misc => assert RequirementOrder[5] == c;
    }
  }

  lemma PlaceStepBoxBlind(refMap: map<string, string>, st: DayState, ing: string, b: seq<InventoryItem>)
    ensures PlaceStep(false, refMap, st.(box := b), ing) == PlaceStep(false, refMap, st, ing).(box := b)
  {
    match Resolve(refMap, BaseName(ing))
    case None =>
    case Some(cat) =>
      var a := AllocateItem(false, st, ing, cat);
      assert AllocateItem(false, st.(box := b), ing, cat) == a.(box := b);
      PlaceWithBoxBlind(st, ing, cat, a, b);
  }

  lemma PlaceWithBoxBlind(st: DayState, ing: string, cat: Category, a: TwoTier, b: seq<InventoryItem>)
    ensures PlaceWith(st.(box := b), ing, cat, a.(box := b)) == PlaceWith(st, ing, cat, a).(box := b)
  {
  }

  lemma TopUpStepBoxBlind(st: DayState, cat: Category, b: seq<InventoryItem>)
    ensures TopUpStep(false, st.(box := b), cat) == TopUpStep(false, st, cat).(box := b)
  {
    var n := Max(0, Requirement(cat) - Count(st.counts, cat));
    if n > 0 {
      ShortfallBoxBlind(st, cat, n, b);
      TopUpWithBoxBlind(st, cat, AllocateShortfall(false, st, cat, n), b);
    }
  }

  lemma ShortfallBoxBlind(st: DayState, cat: Category, n: int, b: seq<InventoryItem>)
    ensures AllocateShortfall(false, st.(box := b), cat, n) == AllocateShortfall(false, st, cat, n).(box := b)
  {
  }

  lemma TopUpWithBoxBlind(st: DayState, cat: Category, a: TwoTier, b: seq<InventoryItem>)
    ensures TopUpWith(st.(box := b), cat, a.(box := b)) == TopUpWith(st, cat, a).(box := b)
  {
  }

  lemma {:induction false} PlaceAllBoxBlind(refMap: map<string, string>, st: DayState, frags: seq<string>, b: seq<InventoryItem>)
    ensures PlaceAll(false, refMap, st.(box := b), frags) == PlaceAll(false, refMap, st, frags).(box := b)
  {
    if frags != [] {
      PlaceAllBoxBlind(refMap, st, frags[..|frags| - 1], b);
      PlaceStepBoxBlind(refMap, PlaceAll(false, refMap, st, frags[..|frags| - 1]), frags[|frags| - 1], b);
    }
  }

  lemma {:induction false} TopUpAllBoxBlind(st: DayState, cats: seq<Category>, b: seq<InventoryItem>)
    ensures TopUpAll(false, st.(box := b), cats) == TopUpAll(false, st, cats).(box := b)
  {
    if cats != [] {
      TopUpAllBoxBlind(st, cats[..|cats| - 1], b);
      TopUpStepBoxBlind(TopUpAll(false, st, cats[..|cats| - 1]), cats[|cats| - 1], b);
    }
  }

  /** A non-senior day never looks at the box list: its plan is the same whatever box it is
      handed, so the empty list the non-senior generator passes stands for "no box". */
  lemma NonSeniorIgnoresBox(recipe: Recipe, box: seq<InventoryItem>, main: seq<InventoryItem>, refMap: map<string, string>)
    ensures DailyPlanOf(false, recipe, box, main, refMap) == DailyPlanOf(false, recipe, [], main, refMap)
  {
    var frags := Fragments(recipe.ingredients);
    PlaceAllBoxBlind(refMap, Start([], main), frags, box);
    assert Start([], main).(box := box) == Start(box, main);
    TopUpAllBoxBlind(PlaceAll(false, refMap, Start([], main), frags), RequirementOrder, box);
  }

  /** Conservation over a day: the servings handed out are exactly what the day's copies of
      the lists lost; both copies only lose stock, and a non-senior day leaves the box alone. */
  lemma DailyRunStock(senior: bool, recipe: Recipe, box: seq<InventoryItem>, main: seq<InventoryItem>, refMap: map<string, string>)
    ensures var r := DailyRun(senior, recipe, box, main, refMap);
      Sum(r.used) == (Total(box) - Total(r.box)) + (Total(main) - Total(r.main)) &&
      Depletes(box, r.box) && Depletes(main, r.main) &&
      (!senior ==> r.box == box)
  {
    var placed := PlaceAll(senior, refMap, Start(box, main), Fragments(recipe.ingredients));
    var r := DailyRun(senior, recipe, box, main, refMap);
    PlaceAllStock(senior, refMap, Start(box, main), Fragments(recipe.ingredients));
    TopUpAllSound(senior, placed, RequirementOrder);
    DepletesTransitive(box, placed.box, r.box);
    DepletesTransitive(main, placed.main, r.main);
  }

  // ---------------------------------------------------------------- the methods

  /** Both loops of a generator, on the working copies. */
  method RunDay(senior: bool, frags: seq<string>, box: Ledger, main: Ledger, refMap: map<string, string>)
    returns (st: DayState)
    requires box != main
    modifies box, main
    ensures st == TopUpAll(senior, PlaceAll(senior, refMap, Start(old(box.items), old(main.items)), frags), RequirementOrder)
  {
    var placed := PlaceIngredients(senior, frags, box, main, refMap);
    st := TopUpCategories(senior, placed, box, main);
  }

  /** The ingredient loop. */
  method PlaceIngredients(senior: bool, frags: seq<string>, box: Ledger, main: Ledger, refMap: map<string, string>)
    returns (st: DayState)
    requires box != main
    modifies box, main
    ensures st == PlaceAll(senior, refMap, Start(old(box.items), old(main.items)), frags)
    ensures st.box == box.items && st.main == main.items
  {
    st := Start(box.items, main.items);
    ghost var start := st;
    var i := 0;
    while i < |frags|
      invariant 0 <= i <= |frags|
      invariant st == PlaceAll(senior, refMap, start, frags[..i])
      invariant st.box == box.items && st.main == main.items
    {
      st := PlaceIngredient(senior, st, frags[i], box, main, refMap);
      PlaceAllSnoc(senior, refMap, start, frags, i);
      i := i + 1;
    }
    assert frags[..i] == frags;
  }

  /** One pass of the ingredient loop, on the working copies. */
  method PlaceIngredient(senior: bool, st: DayState, ing: string, box: Ledger, main: Ledger, refMap: map<string, string>)
    returns (next: DayState)
    requires box != main && st.box == box.items && st.main == main.items
    modifies box, main
    ensures next == PlaceStep(senior, refMap, st, ing)
    ensures next.box == box.items && next.main == main.items
  {
    var used, counts, foodbank, user := st.used, st.counts, st.foodbank, st.user;
    var category := Resolve(refMap, BaseName(ing));
    if category.None? {
      user := user + [ing];
    } else {
      var taken, remaining := AllocateItemOn(senior, st, ing, category.value, box, main);
      used := used + taken;
      if remaining > 0 {
        user := user + [ing];
      } else {
        foodbank := foodbank + [ing];
      }
      counts := counts[category.value := Count(counts, category.value) + 1 - remaining];
      PlaceWithUnfold(st, ing, category.value, TwoTier(taken, remaining, box.items, main.items));
    }
    next := DayState(box.items, main.items, used, counts, foodbank, user, st.extra);
  }

  /** The allocation call of the ingredient loop: one serving of `name`. */
  method AllocateItemOn(senior: bool, st: DayState, name: string, cat: Category, box: Ledger, main: Ledger)
    returns (taken: seq<AllocationRecord>, remaining: int)
    requires box != main && st.box == box.items && st.main == main.items
    modifies box, main
    ensures TwoTier(taken, remaining, box.items, main.items) == AllocateItem(senior, st, name, cat)
  {
    if senior {
      taken, remaining := AllocateSeniorItem(box, main, name, cat, 1);
    } else {
      taken, remaining := main.AllocateSpecificItem(name, cat, 1);
    }
  }

  /** The requirement loop, continuing from the state the ingredient loop left. */
  method TopUpCategories(senior: bool, placed: DayState, box: Ledger, main: Ledger) returns (st: DayState)
    requires box != main && placed.box == box.items && placed.main == main.items
    modifies box, main
    ensures st == TopUpAll(senior, placed, RequirementOrder)
  {
    st := placed;
    var k := 0;
    while k < |RequirementOrder|
      invariant 0 <= k <= |RequirementOrder|
      invariant st == TopUpAll(senior, placed, RequirementOrder[..k])
      invariant st.box == box.items && st.main == main.items
    {
      st := TopUpCategory(senior, st, RequirementOrder[k], box, main);
      TopUpAllSnoc(senior, placed, RequirementOrder, k);
      k := k + 1;
    }
    assert RequirementOrder[..k] == RequirementOrder;
  }

  /** One pass of the requirement loop, on the working copies. */
  method TopUpCategory(senior: bool, st: DayState, cat: Category, box: Ledger, main: Ledger) returns (next: DayState)
    requires box != main && st.box == box.items && st.main == main.items
    modifies box, main
    ensures next == TopUpStep(senior, st, cat)
    ensures next.box == box.items && next.main == main.items
  {
    var required := Requirement(cat);
    var shortfall := Max(0, required - Count(st.counts, cat));
    TopUpStepUnfold(senior, st, cat);
    if shortfall > 0 {
      var taken, remaining := AllocateShortfallOn(senior, st, cat, shortfall, box, main);
      var count := Count(st.counts, cat) + Sum(taken);
      var remainingShortfall := required - count;
      var extra := if remainingShortfall > 0 then st.extra[cat := remainingShortfall] else st.extra;
      next := st.(box := box.items, main := main.items, used := st.used + taken, counts := st.counts[cat := count], extra := extra);
      TopUpWithUnfold(st, cat, TwoTier(taken, remaining, box.items, main.items));
    } else {
      next := st;
    }
  }

  /** The allocation call of the requirement loop: a shortfall of `n` servings of `cat`. */
  method AllocateShortfallOn(senior: bool, st: DayState, cat: Category, n: int, box: Ledger, main: Ledger)
    returns (taken: seq<AllocationRecord>, remaining: int)
    requires box != main && st.box == box.items && st.main == main.items
    modifies box, main
    ensures TwoTier(taken, remaining, box.items, main.items) == AllocateShortfall(senior, st, cat, n)
  {
    if senior {
      if cat == Misc {
        taken, remaining := AllocateSeniorMisc(box, main, n);
      } else {
        taken, remaining := AllocateSeniorCategory(box, main, cat, n);
      }
    } else {
      taken, remaining := main.AllocateCategory(cat, n);
    }
  }

  /** `generate_daily_plan`: main inventory only, on a copy; the caller's list is not changed. */
  method GenerateDailyPlan(recipe: Recipe, inventory: Ledger, refMap: map<string, string>) returns (plan: DailyPlan)
    ensures plan == DailyPlanOf(false, recipe, [], inventory.items, refMap)
  {
    var inventoryCopy := new Ledger(inventory.items);
    var unused := new Ledger([]);
    var rawIngredients := Fragments(recipe.ingredients);
    var st := RunDay(false, rawIngredients, unused, inventoryCopy, refMap);
    plan := PlanOf(recipe, rawIngredients, st);
  }

  /** `generate_senior_daily_plan`: box then main, on copies; the caller's lists are not changed. */
  method GenerateSeniorDailyPlan(recipe: Recipe, box: Ledger, main: Ledger, refMap: map<string, string>) returns (plan: DailyPlan)
    ensures plan == DailyPlanOf(true, recipe, box.items, main.items, refMap)
  {
    var boxCopy := new Ledger(box.items);
    var mainCopy := new Ledger(main.items);
    var rawIngredients := Fragments(recipe.ingredients);
    var st := RunDay(true, rawIngredients, boxCopy, mainCopy, refMap);
    plan := PlanOf(recipe, rawIngredients, st);
  }
}
