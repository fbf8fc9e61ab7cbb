/**
 * The thirty-day plan: `generate_monthly_plan` once the request is validated, the stock
 * sheet fetched and the food reference read.
 *
 * The recipe catalogue of the beneficiary's age group is filtered; day `d` (1 to 30) takes
 * the filtered recipe at position `(d - 1) mod n` and runs the day generator for the
 * beneficiary's age group. A beneficiary of 60 or more also gets the senior box sheet of
 * the cycle their month falls in. Every day starts from the same lists: the day generators
 * work on copies, so nothing one day hands out is missing the next day.
 *
 * The spreadsheets are given as values: the recipe catalogues by file path (a path absent
 * from the map is a missing file), the senior box workbook as its sheets by name (no
 * workbook is a missing file).
 */
module MonthlyPlan {
  import opened Wrappers
  import opened Text
  import opened Inventory
  import opened Allocation
  import opened Senior
  import opened Recipes
  import opened DailyPlans

  const Days: nat := 30

  datatype DayPlan = DayPlan(day: int, plan: DailyPlan)

  /** The report: the month shown, the age group, the senior box cycle (seniors only) and
      the thirty days. */
  datatype Report = Report(month: int, ageGroup: string, seniorBoxCycle: Option<int>, dailyPlans: seq<DayPlan>)

  /** Why no report was produced. */
  datatype PlanError =
    | RecipeFileNotFound(path: string)
    | NoMatchingRecipes
    | BoxFileNotFound
    | BoxSheetNotFound(sheet: string)

  /** The response status of each failure: a missing file and an empty filter result are
      "not found"; a missing sheet surfaces as a general failure. */
  function Status(e: PlanError): (code: int)
    ensures code == 404 <==> !e.BoxSheetNotFound?
    ensures code == 500 <==> e.BoxSheetNotFound?
  {
    match e
    case RecipeFileNotFound(_) => 404
    case NoMatchingRecipes => 404
    case BoxFileNotFound => 404
    case BoxSheetNotFound(_) => 500
  }

  /** The month the request gives, with 0 read as "not given" as Python's truth test does. */
  function GivenMonth(month: Option<int>): Option<int> {
    if month.Some? && month.value != 0 then month else None
  }

  /** The month the report shows: the given one, or 1. */
  function ShownMonth(month: Option<int>): int {
    if month.Some? && month.value != 0 then month.value else 1
  }

  /** `i mod n` for a natural `i`, by repeated subtraction (see `SlotIsModulo`). */
  function Slot(i: nat, n: nat): (s: nat)
    requires n > 0
    ensures s < n
    decreases i
  {
    if i < n then i else Slot(i - n, n)
  }

  /** The recipe of each of days 1 to `n`: the filtered recipes taken in turn, starting over
      when they run out. */
  function Rotation(recipes: seq<Recipe>, n: nat): (r: seq<Recipe>)
    requires recipes != []
    ensures |r| == n
  {
    if n == 0 then [] else Rotation(recipes, n - 1) + [recipes[Slot(n - 1, |recipes|)]]
  }

  /** The plans of the days whose recipes are `dayRecipes`, numbered from 1, each from the
      same lists. */
  function DayPlans(senior: bool, dayRecipes: seq<Recipe>, box: seq<InventoryItem>, main: seq<InventoryItem>,
                    refMap: map<string, string>): (r: seq<DayPlan>)
    ensures |r| == |dayRecipes|
  {
    if dayRecipes == [] then []
    else
      var n := |dayRecipes|;
      DayPlans(senior, dayRecipes[..n - 1], box, main, refMap) + [DayPlan(n, DailyPlanOf(senior, dayRecipes[n - 1], box, main, refMap))]
  }

  lemma DayPlansSnoc(senior: bool, dayRecipes: seq<Recipe>, box: seq<InventoryItem>, main: seq<InventoryItem>,
                     refMap: map<string, string>)
    requires dayRecipes != []
    ensures DayPlans(senior, dayRecipes, box, main, refMap) ==
      DayPlans(senior, dayRecipes[..|dayRecipes| - 1], box, main, refMap) +
      [DayPlan(|dayRecipes|, DailyPlanOf(senior, dayRecipes[|dayRecipes| - 1], box, main, refMap))]
  {
  }

  /** The report, or why there is none, in the order the endpoint checks: the catalogue,
      the filter result, then (for a senior) the box workbook and its sheet. */
  function MonthlyPlanOf(profile: Profile, refMap: map<string, string>, mainRows: seq<Row>,
                         catalogues: map<string, seq<Recipe>>, boxBook: Option<map<string, seq<Row>>>)
    : (r: Result<Report, PlanError>)
    ensures r.Success? ==> |r.value.dailyPlans| == Days
    ensures r.Success? ==> r.value.seniorBoxCycle == ReportCycle(profile.age, profile.month)
    ensures r.Failure? && profile.age < 60 ==> Status(r.error) == 404
  {
    var main := LoadedItems(mainRows, refMap);
    var file := RecipeFile(profile.age);
    if file !in catalogues then Failure(RecipeFileNotFound(file))
    else
      var filtered := Filtered(catalogues[file], profile.physical, profile.cultural);
      if filtered == [] then Failure(NoMatchingRecipes)
      else if profile.age >= 60 then
        var cycle := BoxCycle(GivenMonth(profile.month));
        var sheet := SheetName(cycle);
        if boxBook.None? then Failure(BoxFileNotFound)
        else if sheet !in boxBook.value then Failure(BoxSheetNotFound(sheet))
        else
          var box := LoadedItems(boxBook.value[sheet], refMap);
          Success(Report(ShownMonth(profile.month), AgeGroup(profile.age), Some(cycle),
                         DayPlans(true, Rotation(filtered, Days), box, main, refMap)))
      else
        Success(Report(ShownMonth(profile.month), AgeGroup(profile.age), None,
                       DayPlans(false, Rotation(filtered, Days), [], main, refMap)))
  }

  /** The loop body's choice of generator. */
  method GenerateDay(senior: bool, recipe: Recipe, seniorBox: Ledger, mainInventory: Ledger, refMap: map<string, string>)
    returns (plan: DailyPlan)
    ensures plan == DailyPlanOf(senior, recipe, if senior then seniorBox.items else [], mainInventory.items, refMap)
  {
    if senior {
      plan := GenerateSeniorDailyPlan(recipe, seniorBox, mainInventory, refMap);
    } else {
      plan := GenerateDailyPlan(recipe, mainInventory, refMap);
    }
  }

  /** The thirty-day loop. */
  method PlanDays(senior: bool, filteredRecipes: seq<Recipe>, seniorBox: Ledger, mainInventory: Ledger, refMap: map<string, string>)
    returns (dailyPlans: seq<DayPlan>)
    requires filteredRecipes != []
    ensures dailyPlans == DayPlans(senior, Rotation(filteredRecipes, Days), if senior then seniorBox.items else [], mainInventory.items, refMap)
  {
    ghost var box, main := if senior then seniorBox.items else [], mainInventory.items;
    dailyPlans := [];
    for day := 1 to Days + 1
      invariant dailyPlans == DayPlans(senior, Rotation(filteredRecipes, day - 1), box, main, refMap)
    {
      dailyPlans := PlanDay(senior, filteredRecipes, day, seniorBox, mainInventory, refMap, dailyPlans);
    }
  }

  /** The loop body: pick the day's recipe, generate its plan and append it as day `day`. */
  method PlanDay(senior: bool, filteredRecipes: seq<Recipe>, day: nat, seniorBox: Ledger, mainInventory: Ledger,
                 refMap: map<string, string>, dailyPlans: seq<DayPlan>)
    returns (next: seq<DayPlan>)
    requires filteredRecipes != [] && day >= 1
    requires dailyPlans == DayPlans(senior, Rotation(filteredRecipes, day - 1), if senior then seniorBox.items else [], mainInventory.items, refMap)
    ensures next == DayPlans(senior, Rotation(filteredRecipes, day), if senior then seniorBox.items else [], mainInventory.items, refMap)
  {
    var recipe := filteredRecipes[Slot(day - 1, |filteredRecipes|)];
    var plan := GenerateDay(senior, recipe, seniorBox, mainInventory, refMap);
    PlanDaysStep(senior, filteredRecipes, day, if senior then seniorBox.items else [], mainInventory.items, refMap, dailyPlans, plan);
    next := dailyPlans + [DayPlan(day, plan)];
  }

  /** One pass of the thirty-day loop appends the next day's plan. */
  lemma PlanDaysStep(senior: bool, recipes: seq<Recipe>, day: nat, box: seq<InventoryItem>, main: seq<InventoryItem>,
                     refMap: map<string, string>, prev: seq<DayPlan>, plan: DailyPlan)
    requires recipes != [] && day >= 1
    requires prev == DayPlans(senior, Rotation(recipes, day - 1), box, main, refMap)
    requires plan == DailyPlanOf(senior, recipes[Slot(day - 1, |recipes|)], box, main, refMap)
    ensures prev + [DayPlan(day, plan)] == DayPlans(senior, Rotation(recipes, day), box, main, refMap)
  {
    var rotation := Rotation(recipes, day);
    assert rotation[..day - 1] == Rotation(recipes, day - 1);
    DayPlansSnoc(senior, rotation, box, main, refMap);
  }

  method GenerateMonthlyPlan(profile: Profile, refMap: map<string, string>, mainRows: seq<Row>,
                             catalogues: map<string, seq<Recipe>>, boxBook: Option<map<string, seq<Row>>>)
    returns (result: Result<Report, PlanError>)
    ensures result == MonthlyPlanOf(profile, refMap, mainRows, catalogues, boxBook)
  {
    var mainItems := LoadInventoryItems(mainRows, refMap);
    var mainInventory := new Ledger(mainItems);
    var recipeFile := RecipeFile(profile.age);
    if recipeFile !in catalogues {
      return Failure(RecipeFileNotFound(recipeFile));
    }
    var filteredRecipes := FilterRecipes(catalogues[recipeFile], profile.physical, profile.cultural);
    if filteredRecipes == [] {
      return Failure(NoMatchingRecipes);
    }
    var seniorBox := new Ledger([]);
    var cycleMonth: Option<int> := None;
    if profile.age >= 60 {
      var cycle := BoxCycle(GivenMonth(profile.month));
      var sheet := SheetName(cycle);
      if boxBook.None? {
        return Failure(BoxFileNotFound);
      }
      if sheet !in boxBook.value {
        return Failure(BoxSheetNotFound(sheet));
      }
      var boxItems := LoadInventoryItems(boxBook.value[sheet], refMap);
      seniorBox := new Ledger(boxItems);
      cycleMonth := Some(cycle);
    }
    var dailyPlans := PlanDays(profile.age >= 60, filteredRecipes, seniorBox, mainInventory, refMap);
    result := Success(Report(ShownMonth(profile.month), AgeGroup(profile.age), cycleMonth, dailyPlans));
  }

  // ---------------------------------------------------------------- the days

  /** Day `i + 1` takes the filtered recipe at position `i mod n`. */
  lemma {:induction false} RotationShape(recipes: seq<Recipe>, n: nat)
    requires recipes != []
    ensures forall i :: 0 <= i < n ==> Rotation(recipes, n)[i] == recipes[Slot(i, |recipes|)]
  {
    if n > 0 {
      RotationShape(recipes, n - 1);
    }
  }

  /** The subtraction is Python's `%` on a natural left operand. */
  lemma {:induction false} SlotIsModulo(i: nat, n: nat)
    requires n > 0
    ensures Slot(i, n) == i % n
  {
    if i >= n {
      SlotIsModulo(i - n, n);
      var q, r := (i - n) / n, (i - n) % n;
      assert i == (q + 1) * n + r;
      DivisionUnique(i, n, q + 1, r);
    }
  }

  /** Euclidean division is unique: a quotient and remainder in range are `/` and `%`. */
  lemma DivisionUnique(i: int, n: int, q: int, r: int)
    requires n > 0 && 0 <= r < n && i == q * n + r
    ensures i % n == r
  {
    var q', r' := i / n, i % n;
    assert (q - q') * n == r' - r;
    MultipleBound(q - q', n);
  }

  lemma MultipleBound(a: int, n: int)
    requires n > 0
    ensures a >= 1 ==> a * n >= n
    ensures a <= -1 ==> a * n <= -n
  {
  }

  /** The recipes are taken in turn: the day `n` days after another, `n` the number of
      filtered recipes, has the same recipe. */
  lemma RotationPeriod(recipes: seq<Recipe>, days: nat, i: nat)
    requires recipes != [] && i + |recipes| < days
    ensures Rotation(recipes, days)[i] == Rotation(recipes, days)[i + |recipes|]
  {
    RotationShape(recipes, days);
    assert Slot(i + |recipes|, |recipes|) == Slot(i, |recipes|);
  }

  /** Day `i + 1` is the `i`-th entry, and its plan is the one of its recipe, from the lists
      the month started with. */
  lemma {:induction false} DayPlansShape(senior: bool, dayRecipes: seq<Recipe>, box: seq<InventoryItem>,
                                         main: seq<InventoryItem>, refMap: map<string, string>)
    ensures forall i :: 0 <= i < |dayRecipes| ==>
      DayPlans(senior, dayRecipes, box, main, refMap)[i] ==
      DayPlan(i + 1, DailyPlanOf(senior, dayRecipes[i], box, main, refMap))
  {
    if dayRecipes != [] {
      var n := |dayRecipes|;
      var init := dayRecipes[..n - 1];
      DayPlansShape(senior, init, box, main, refMap);
      var r := DayPlans(senior, dayRecipes, box, main, refMap);
      var prev := DayPlans(senior, init, box, main, refMap);
      assert r == prev + [DayPlan(n, DailyPlanOf(senior, dayRecipes[n - 1], box, main, refMap))];
      forall i | 0 <= i < n
        ensures r[i] == DayPlan(i + 1, DailyPlanOf(senior, dayRecipes[i], box, main, refMap))
      {
        if i < n - 1 {
          assert r[i] == prev[i] && init[i] == dayRecipes[i];
        }
      }
    }
  }

  // ---------------------------------------------------------------- the report

  /** When does the endpoint fail, and with what: a missing catalogue first, then an empty
      filter result, then (seniors only) a missing box workbook or sheet. */
  lemma MonthlyPlanFailures(profile: Profile, refMap: map<string, string>, mainRows: seq<Row>,
                            catalogues: map<string, seq<Recipe>>, boxBook: Option<map<string, seq<Row>>>)
    ensures var r := MonthlyPlanOf(profile, refMap, mainRows, catalogues, boxBook);
      var file := RecipeFile(profile.age);
      (file !in catalogues ==> r == Failure(RecipeFileNotFound(file))) &&
      (file in catalogues && Filtered(catalogues[file], profile.physical, profile.cultural) == [] ==>
        r == Failure(NoMatchingRecipes)) &&
      (r.Success? <==>
        file in catalogues && Filtered(catalogues[file], profile.physical, profile.cultural) != [] &&
        (profile.age >= 60 ==> boxBook.Some? && SheetName(BoxCycle(GivenMonth(profile.month))) in boxBook.value)) &&
      (profile.age < 60 && r.Failure? ==> Status(r.error) == 404)
  {
  }

  /** A report has thirty days numbered 1 to 30 in order; day `d` uses the filtered recipe at
      position `(d - 1) mod n`; a senior's days allocate from the box of their cycle and the
      main stock, anyone else's from the main stock alone. */
  lemma MonthlyPlanDays(profile: Profile, refMap: map<string, string>, mainRows: seq<Row>,
                        catalogues: map<string, seq<Recipe>>, boxBook: Option<map<string, seq<Row>>>)
    requires MonthlyPlanOf(profile, refMap, mainRows, catalogues, boxBook).Success?
    ensures var report := MonthlyPlanOf(profile, refMap, mainRows, catalogues, boxBook).value;
      var filtered := Filtered(catalogues[RecipeFile(profile.age)], profile.physical, profile.cultural);
      var main := LoadedItems(mainRows, refMap);
      filtered != [] && |report.dailyPlans| == Days &&
      forall i :: 0 <= i < Days ==>
        report.dailyPlans[i].day == i + 1 &&
        (profile.age >= 60 ==>
          report.dailyPlans[i].plan == DailyPlanOf(true, filtered[Slot(i, |filtered|)],
            LoadedItems(boxBook.value[SheetName(BoxCycle(GivenMonth(profile.month)))], refMap), main, refMap)) &&
        (profile.age < 60 ==>
          report.dailyPlans[i].plan == DailyPlanOf(false, filtered[Slot(i, |filtered|)], [], main, refMap))
  {
    var file := RecipeFile(profile.age);
    var filtered := Filtered(catalogues[file], profile.physical, profile.cultural);
    var main := LoadedItems(mainRows, refMap);
    if profile.age >= 60 {
      var sheet := SheetName(BoxCycle(GivenMonth(profile.month)));
      DayPlansShape(true, Rotation(filtered, Days), LoadedItems(boxBook.value[sheet], refMap), main, refMap);
    } else {
      DayPlansShape(false, Rotation(filtered, Days), [], main, refMap);
    }
    RotationShape(filtered, Days);
  }

  /** The report's header: the month shown is the given one or 1, and the age group follows
      the age. */
  lemma MonthlyPlanHeader(profile: Profile, refMap: map<string, string>, mainRows: seq<Row>,
                          catalogues: map<string, seq<Recipe>>, boxBook: Option<map<string, seq<Row>>>)
    requires MonthlyPlanOf(profile, refMap, mainRows, catalogues, boxBook).Success?
    ensures var report := MonthlyPlanOf(profile, refMap, mainRows, catalogues, boxBook).value;
      (report.month == if profile.month.Some? && profile.month.value != 0 then profile.month.value else 1) &&
      (report.ageGroup == "senior" <==> profile.age >= 60)
  {
  }

  /** The box cycle a report shows: exactly a senior's report carries one, between 1 and 3,
      which is 1 when no month (or month 0) was given and otherwise steps with the month
      modulo 3. */
  function ReportCycle(age: int, month: Option<int>): (cycle: Option<int>)
    ensures cycle.Some? <==> age >= 60
    ensures cycle.Some? ==> 1 <= cycle.value <= 3
    ensures cycle.Some? && (month.None? || month.value == 0) ==> cycle.value == 1
    ensures cycle.Some? && month.Some? && month.value != 0 ==> (cycle.value - month.value) % 3 == 0
  {
    if age >= 60 then Some(BoxCycle(GivenMonth(month))) else None
  }

  /** No stock carries over from one day to the next: two days of the same recipe have the
      same plan. */
  lemma MonthlyPlanNoCarryOver(profile: Profile, refMap: map<string, string>, mainRows: seq<Row>,
                               catalogues: map<string, seq<Recipe>>, boxBook: Option<map<string, seq<Row>>>, i: nat, j: nat)
    requires MonthlyPlanOf(profile, refMap, mainRows, catalogues, boxBook).Success?
    requires i < Days && j < Days
    requires var filtered := Filtered(catalogues[RecipeFile(profile.age)], profile.physical, profile.cultural);
      filtered != [] && filtered[Slot(i, |filtered|)] == filtered[Slot(j, |filtered|)]
    ensures var report := MonthlyPlanOf(profile, refMap, mainRows, catalogues, boxBook).value;
      report.dailyPlans[i].plan == report.dailyPlans[j].plan
  {
    MonthlyPlanDays(profile, refMap, mainRows, catalogues, boxBook);
  }
}
