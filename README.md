# Food-bank meal planner: allocation core in Dafny

This project models the core of the meal planner service (`meal_planner/meal_planner.py`).
Given a beneficiary profile, the service builds a thirty-day plan of recipes. For each day it
allocates servings from the food bank's stock to the recipe's ingredients, tops each food
category up to a per-meal requirement, and reports what the beneficiary must bring and what
could not be found.

The model is split into modules that follow the program's parts:

| file | module | what it holds |
|---|---|---|
| `wrappers.dfy` | `Wrappers` | `Option` and `Result` |
| `text.dfy` | `Text` | `strip`, `lower`, `split(",")`, the ingredient fragments, and the quantity-suffix cut `re.sub(r"\s+\d+.*$", "", ·)` that gives an ingredient's base name |
| `inventory.dfy` | `Inventory` | categories, `CATEGORY_MAP`, `MEAL_REQUIREMENT`, `MISC_PRIORITY`, inventory entries, allocation records, and the sheet loaders |
| `allocation.dfy` | `Allocation` | `allocate_specific_item` and `allocate_category` as value functions (`Greedy`, `MiscScan`, `CategoryAllocation`), and a `Ledger` class whose methods update the list in place and are proved equal to those functions |
| `senior.dfy` | `Senior` | `allocate_senior_item`, `allocate_senior_category`, `allocate_senior_misc` (box first, then main), the box cycle and its sheet |
| `recipes.dfy` | `Recipes` | recipes, the profile, `filter_recipes`, and the age group and its catalogue file |
| `daily_plan.dfy` | `DailyPlans` | `generate_daily_plan` and `generate_senior_daily_plan`: the ingredient loop, the requirement loop and the plan record |
| `monthly_plan.dfy` | `MonthlyPlan` | the thirty-day loop of `generate_monthly_plan`, its report and its failures |

Every loop statement of the core, and every update of a list in place, is a `method` with its
loop. (The list comprehension, `any` and `sum` are expressions in the source and stay functions:
`Text.Fragments`, `Recipes.AnyTagIn`, `Inventory.Sum`.) Each such method is proved equal to a function on values (`ensures ... == Greedy(old(items), ...)`).
The properties are then proved about those functions as lemmas:

- Records only take what was asked for.
- Stock is conserved: what is handed out is exactly what the lists lost.
- Lists only lose stock.
- Allocation is greedy: when something is still missing, nothing that could have covered it is left.
- Misc stock is drawn in priority order.
- Box stock is used before main stock.
- Fragments are routed to the food-bank list or the beneficiary's list.
- Unmet requirements are reported exactly.
- The thirty-day rotation follows the recipe list, and no stock carries over between days.

A stock list that an operation updates is a `Ledger` object with a `seq` field. The day
generators copy the lists they are given into fresh ledgers, as the source deep-copies them.
Neither generator has a `modifies` clause, so Dafny checks that the caller's lists are
unchanged.

### Where the code and the intended design differ

The model follows the code in each case.

- **Stock across days.** The intended design depletes one stock ledger across the thirty
  days. Both day generators deep-copy the lists first (lines 322 and 391-392), so every
  day starts from the same stock. `MonthlyPlan.MonthlyPlanNoCarryOver` proves the consequence:
  two days with the same recipe get identical plans.
- **Misc fallback.** By design, a misc shortfall falls back to any misc stock.
  The code only asks for the four names of `MISC_PRIORITY` (lines 155-159 and 312-316).
  `Allocation.CategoryAllocationSound` and `Senior.SeniorMiscFrame` prove that only entries
  with those names change.
- **Source tags.** By design, each record carries the list it came from.
  - `allocate_specific_item` always writes `"main"` (line 131), so a senior's item or misc
    records drawn from the box are tagged `"main"`.
  - Only the category loop over the box writes `"box"` (line 295).
  - `Senior.SeniorItemRecords` states the `Main` tag.
  - The re-tagging loop at lines 303-304 changes nothing, because `allocate_category`
    already tags every record `"main"`.
- **Whole-fragment request.** The category of a fragment is looked up by its base name, with
  the quantity cut off (line 332). The stock is then asked for the whole fragment (line 339),
  and an entry matches only when its stripped, lowercased name equals the fragment's.
  - So "Rice 200g" resolves to grains through "rice", yet a stocked "Rice" does not serve it.
  - The fragment goes to the beneficiary's list.
  - `DailyPlans.WholeFragmentAsked` proves this case.
  - `DailyPlans.PlaceStepServes` proves the general rule: a fragment reaches the food-bank
    list exactly when an entry of its category whose key equals the fragment's key has stock.

## Model

| member | source | states |
|---|---|---|
| Text.TrimEnds | meal_planner/meal_planner.py:103 | `strip()` never grows the text and leaves no whitespace at either end |
| Text.TrimStartFacts | meal_planner/meal_planner.py:103 | the left strip leaves a suffix that does not start with whitespace, and what it dropped is all whitespace |
| Text.TrimEndFacts | meal_planner/meal_planner.py:103 | the right strip leaves a prefix that does not end in whitespace, and what it dropped is all whitespace |
| Text.TrimIdempotent | meal_planner/meal_planner.py:103-104 | stripping a stripped name changes nothing, so a loaded name keeps its key |
| Text.Lower | meal_planner/meal_planner.py:104 | `lower()` keeps the length and maps each character by itself |
| Text.SplitJoin | meal_planner/meal_planner.py:323 | `split(",")` loses nothing: joining the pieces with "," gives the text back, and no piece contains a comma |
| Text.NonEmptyTrimmed | meal_planner/meal_planner.py:323 | every ingredient fragment is non-empty and already stripped |
| Text.NonEmptyTrimmedMembers | meal_planner/meal_planner.py:323 | every piece of the split that is not blank once stripped is kept, stripped; everything kept is such a piece |
| Text.NonEmptyTrimmedConcat | meal_planner/meal_planner.py:323 | the fragments keep the order of the pieces: the fragments of two runs of pieces are those of the first followed by those of the second |
| Text.QuantityCut | meal_planner/meal_planner.py:332 | the cut falls at the first whitespace run followed by a digit, and no earlier position is one |
| Text.RunEnd | meal_planner/meal_planner.py:332 | the `\s+` run ends at the first non-whitespace character |
| Text.BaseNameCaseBlind | meal_planner/meal_planner.py:332 | two fragments that differ only in letter case have the same base name, which is the point of the case-insensitive regex followed by `lower()` |
| Text.BaseName | meal_planner/meal_planner.py:332 | the base name is no longer than the fragment, has no whitespace at either end and is already lowercase |
| Text.KeyCaseBlind | meal_planner/meal_planner.py:123 | two names equal up to case have the same matching key `strip().lower()` |
| Inventory.CategoryOfLabel | meal_planner/meal_planner.py:36-43 | `CATEGORY_MAP` is the inverse of the category labels: a label gives the category it labels, and any other text gives none |
| Inventory.RequirementRange | meal_planner/meal_planner.py:45-52 | `MEAL_REQUIREMENT` asks at most two servings of a category per meal, and none only of dairy |
| Inventory.Resolve | meal_planner/meal_planner.py:333 | a key has a category exactly when the reference map lists it with one of the six labels, and then it is the category of that label |
| Inventory.LoadInventoryItems | meal_planner/meal_planner.py:101-113 | the loader loop builds exactly the entries of the rows whose key resolves to a category, in row order |
| Inventory.RowItemResolves | meal_planner/meal_planner.py:103-112 | a kept row gives an entry with the stripped name, the resolved category and the row's quantity |
| Inventory.LoadedItemsMembers | meal_planner/meal_planner.py:250-262 | a row is loaded if and only if its key resolves; every loaded entry has a stripped name whose key resolves to its category |
| Allocation.MatchesCaseBlind | meal_planner/meal_planner.py:122-124 | the entry test compares names after `strip().lower()`, so an entry whose name differs from the request only in letter case matches |
| Allocation.Greedy | meal_planner/meal_planner.py:115-135 | the walk keeps the list's length; nothing is asked, nothing changes; otherwise what is still needed lies between 0 and what was asked |
| Allocation.GreedyRecords | meal_planner/meal_planner.py:122-132 | every record takes a positive amount no larger than asked, carries the requested category and the walk's source tag, and for a named request a name equal to it after `strip().lower()` |
| Allocation.GreedyFrame | meal_planner/meal_planner.py:119-134 | stock only goes down, and only matching entries with positive stock change |
| Allocation.GreedyRecordsAreLosses | meal_planner/meal_planner.py:126-133 | the records are exactly what each entry lost, entry by entry in list order |
| Allocation.GreedyExhausts | meal_planner/meal_planner.py:119-135 | when something is still needed, no matching entry has stock left |
| Allocation.GreedyTotal | meal_planner/meal_planner.py:126-135 | the records add up to what was asked less what is still needed, and to what the list lost |
| Allocation.GreedyOne | meal_planner/meal_planner.py:115-135 | one serving asked: it is found exactly when some matching entry has stock; then there is one record of one serving, with the requested category and a name whose key is the request's; otherwise nothing is recorded and the list is unchanged |
| Allocation.MiscScan | meal_planner/meal_planner.py:155-159 | the priority walk keeps the list's length and what is still needed lies between 0 and what was asked |
| Allocation.MiscPriorityDistinct | meal_planner/meal_planner.py:54 | the four misc priority names are distinct after `strip().lower()` |
| Allocation.KeyIndex | meal_planner/meal_planner.py:54 | a name's priority is the position of the first priority name with the same key, or past the end if there is none |
| Allocation.MiscScanRecords | meal_planner/meal_planner.py:155-159 | every misc record is positive, at most the amount asked, tagged `"main"`, of category misc, and names a priority item |
| Allocation.MiscScanOrdered | meal_planner/meal_planner.py:155-159 | misc records come in priority order |
| Allocation.MiscScanFrame | meal_planner/meal_planner.py:155-159 | only misc entries named in the priority list with positive stock change, and stock only goes down |
| Allocation.MiscScanExhausts | meal_planner/meal_planner.py:155-159 | when something is still needed, no priority-named misc entry has stock left |
| Allocation.MiscScanTotal | meal_planner/meal_planner.py:155-159 | misc records add up to what was asked less what is still needed, and to what the list lost |
| Allocation.CategoryAllocation | meal_planner/meal_planner.py:137-160 | `allocate_category` keeps the list's length, and what is still needed lies between 0 and what was asked |
| Allocation.CategoryAllocationSound | meal_planner/meal_planner.py:137-160 | records are positive, at most the amount asked, tagged `"main"` and of the category, with misc in priority order; only stock the category may draw on changes, and only downwards; stock is conserved; when something is still needed, no stock the category may draw on is left (for misc: none of the priority-named items) |
| Allocation.Ledger.Take | meal_planner/meal_planner.py:119-134 | the in-place loop returns the records and the remainder of the greedy walk and leaves the list as the walk does |
| Allocation.Ledger.Visit | meal_planner/meal_planner.py:122-132 | one pass of the loop body: the records so far, the prefix walked and the greedy walk of the rest still describe the same overall walk |
| Allocation.ResumeTakes | meal_planner/meal_planner.py:122-132 | taking from a matching entry with stock moves the walk one entry on: the record is appended and the entry loses what was taken |
| Allocation.Ledger.AllocateSpecificItem | meal_planner/meal_planner.py:115-135 | `allocate_specific_item` on the ledger is the greedy walk for that name, tagged `"main"` |
| Allocation.Ledger.AllocateCategory | meal_planner/meal_planner.py:137-160 | `allocate_category` on the ledger is the category allocation, including the misc priority loop that stops once nothing more is needed |
| Senior.SeniorItem | meal_planner/meal_planner.py:264-278 | what is still needed lies between 0 and what was asked |
| Senior.SeniorItemRecords | meal_planner/meal_planner.py:264-278 | every record, from the box or from main, is positive, at most the amount asked, of the requested name and category, and tagged `"main"` |
| Senior.SeniorItemFallback | meal_planner/meal_planner.py:269-276 | main is untouched when the box covers the request; if main is drawn on, the box has none of the item left; both lists only lose stock, and only at entries matching the requested name and category that had stock |
| Senior.SeniorItemTotal | meal_planner/meal_planner.py:264-278 | records add up to what was asked less what is still needed, and to what the two lists lost; when something is still needed neither list has the item |
| Senior.SeniorItemOne | meal_planner/meal_planner.py:264-278 | one serving asked of box then main: it is found exactly when either list has a matching entry with stock; then there is one record of that serving; otherwise nothing is recorded and both lists are unchanged |
| Senior.SeniorCategory | meal_planner/meal_planner.py:280-307 | what is still needed lies between 0 and what was asked |
| Senior.SeniorCategoryRecords | meal_planner/meal_planner.py:285-305 | records are positive, at most the amount asked, of the category, and every `"box"` record comes before every `"main"` one |
| Senior.SeniorCategoryFallback | meal_planner/meal_planner.py:285-305 | main is untouched when the box covers the shortfall; if main is drawn on, the box has none of the category left; both lists only lose stock; in the box only entries of the category with stock change, and in main only entries `allocate_category` may draw on |
| Senior.SeniorCategoryTotal | meal_planner/meal_planner.py:280-307 | stock is conserved over both lists; when something is still needed, the box has none of the category and main has no stock the category may draw on (for misc: none of the priority-named items) |
| Senior.SeniorMisc | meal_planner/meal_planner.py:309-317 | what is still needed lies between 0 and what was asked |
| Senior.SeniorMiscRecords | meal_planner/meal_planner.py:309-317 | every record is a positive misc amount of a priority name, at most the amount asked, tagged `"main"` |
| Senior.SeniorMiscOrdered | meal_planner/meal_planner.py:312-316 | records come in priority order |
| Senior.SeniorMiscFrame | meal_planner/meal_planner.py:309-317 | only priority-named misc entries with stock change, in either list, and only downwards |
| Senior.SeniorMiscExhausts | meal_planner/meal_planner.py:309-317 | when something is still needed neither list has any priority-named misc stock |
| Senior.SeniorMiscTotal | meal_planner/meal_planner.py:309-317 | stock is conserved over both lists |
| Senior.AllocateSeniorItem | meal_planner/meal_planner.py:264-278 | the two-ledger method hands out and leaves exactly what `SeniorItem` does |
| Senior.AllocateSeniorCategory | meal_planner/meal_planner.py:280-307 | the box loop then `allocate_category` on main hand out and leave exactly what `SeniorCategory` does |
| Senior.AllocateSeniorMisc | meal_planner/meal_planner.py:309-317 | the priority loop with its early stop hands out and leaves exactly what `SeniorMisc` does |
| Senior.VisitMisc | meal_planner/meal_planner.py:312-316 | one pass of the priority loop: the records so far followed by the priority walk from the next name still describe the same overall walk |
| Senior.BoxCycle | meal_planner/meal_planner.py:228-232 | the cycle is 1, 2 or 3; it is 1 without a month; otherwise it is congruent to the month modulo 3 |
| Senior.BoxCyclePeriod | meal_planner/meal_planner.py:232 | months three apart share a box cycle |
| Senior.SheetName | meal_planner/meal_planner.py:240-245 | cycles 2 and 3 read their own sheets; any other cycle reads the first month's sheet |
| Recipes.Calories | meal_planner/meal_planner.py:181-192 | the calories are the nutrition mapping's `"calories"`, or 0 when it is absent or the cell could not be read |
| Recipes.FilterRecipes | meal_planner/meal_planner.py:163-204 | the filtering loop with its `continue`s returns the kept recipes in order |
| Recipes.FilteredMembers | meal_planner/meal_planner.py:163-204 | a recipe is kept if and only if it is in the input and passes both tests |
| Recipes.FilteredOrdered | meal_planner/meal_planner.py:165-204 | the kept recipes are a subsequence of the input |
| Recipes.AnyTagInExists | meal_planner/meal_planner.py:170-175 | the cultural test holds if and only if some lowercased diet tag occurs in the lowercased category text |
| Recipes.CalorieBands | meal_planner/meal_planner.py:194-200 | "low" keeps at most 350 calories, "moderate" more than 350 and at most 500, "high" more than 500, and any other level keeps everything |
| Recipes.NoCalorieFilter | meal_planner/meal_planner.py:180 | with no level, an empty level or an unknown one, the calorie test removes nothing |
| Recipes.NoFilterKeepsAll | meal_planner/meal_planner.py:167-204 | with neither filter in force every recipe is kept |
| Recipes.AgeGroup | meal_planner/meal_planner.py:522 | the age group is senior from 60, adult from 18, teen from 10, kid below |
| Recipes.RecipeFile | meal_planner/meal_planner.py:207-216 | the catalogue read is the one named after the reported age group |
| DailyPlans.ItemSound | meal_planner/meal_planner.py:339-347 | one serving asked: at most one is missing, stock is conserved over both lists, and a non-senior day never touches the box |
| DailyPlans.MainShortfall | meal_planner/meal_planner.py:350-359 | the non-senior top-up (`allocate_category` on main): a shortfall asked: found plus missing equals the shortfall, stock is conserved, and when something is missing, main and, for a senior, the box have no stock the category may draw on (for misc: none of the priority-named items) |
| DailyPlans.ShortfallSound | meal_planner/meal_planner.py:421-432 | a shortfall asked, for either day (the non-senior case is `MainShortfall`; for a senior, misc by priority over box then main, any other category box then main): found plus missing equals the shortfall, stock is conserved, and when something is missing, main and, for a senior, the box have no stock the category may draw on (for misc: none of the priority-named items) |
| DailyPlans.PlaceAllRoutes | meal_planner/meal_planner.py:331-345 | every fragment goes to exactly one of the food-bank and beneficiary lists, in order; food-bank fragments all have a known category; a fragment without a category is always the beneficiary's |
| DailyPlans.ItemOne | meal_planner/meal_planner.py:339-345 | one serving of a fragment asked: it is found exactly when an entry of the category whose key is the fragment's key has stock (in main, or for a senior also in the box); then one record of one serving of it is made |
| DailyPlans.PlaceStepServes | meal_planner/meal_planner.py:331-345 | a fragment goes to the food-bank list exactly when its base name has a category and some entry of that category whose key equals the fragment's key has stock (in main, or for a senior also in the box); it then adds one record of one serving with that key and category; otherwise it goes to the beneficiary's list and adds no record |
| DailyPlans.PlaceAllServed | meal_planner/meal_planner.py:331-345 | after the ingredient loop the records match the food-bank fragments one to one and in order: the same key, the resolved category, one serving each |
| DailyPlans.WholeFragmentAsked | meal_planner/meal_planner.py:332-345 | with "rice" listed as grains and one "Rice" in stock, "Rice 200g" resolves to grains and still goes to the beneficiary's list with no record |
| DailyPlans.PlaceStepStock | meal_planner/meal_planner.py:339-347 | one ingredient conserves stock, keeps counts non-negative and records no unmet requirement |
| DailyPlans.PlaceAllStock | meal_planner/meal_planner.py:331-347 | the ingredient loop conserves stock, only lowers it, and keeps counts non-negative |
| DailyPlans.TopUpStepSound | meal_planner/meal_planner.py:351-359 | one requirement pass keeps every unmet requirement positive, at most the category's requirement, and backed by lists with no stock the category may draw on (for misc: none of the priority-named items); it leaves the ingredient lists alone and conserves stock |
| DailyPlans.TopUpAllSound | meal_planner/meal_planner.py:350-359 | the requirement loop keeps that invariant and conserves stock |
| DailyPlans.TopUpStepMeets | meal_planner/meal_planner.py:352-359 | one pass settles its category and leaves every other count and unmet requirement as it was |
| DailyPlans.TopUpAllMeets | meal_planner/meal_planner.py:350-359 | after the loop each category met its requirement or reports exactly its deficit, and only those categories are reported |
| DailyPlans.DailyRunRoutes | meal_planner/meal_planner.py:323-345 | a day splits its fragments between the two lists in order, and only fragments of a known category reach the food bank |
| DailyPlans.DailyRunServed | meal_planner/meal_planner.py:323-359 | over the whole day, the records begin with one serving for each food-bank fragment, in order, with its key and resolved category |
| DailyPlans.DailyRunExtra | meal_planner/meal_planner.py:350-359 | each `extra_needed` value is positive and at most the category's requirement, so dairy never appears; for a listed category, no stock it may draw on is left (for misc: none of the priority-named items) |
| DailyPlans.DailyRunMeets | meal_planner/meal_planner.py:350-359 | every category's count plus its reported deficit is its requirement, or the count already meets it |
| DailyPlans.DailyRunStock | meal_planner/meal_planner.py:322-359 | a day hands out exactly what its copies of the lists lost; those copies only lose stock; a non-senior day leaves the box alone |
| DailyPlans.NonSeniorIgnoresBox | meal_planner/meal_planner.py:320-359 | a non-senior plan is the same whatever box list it is given |
| DailyPlans.PlanNutrition | meal_planner/meal_planner.py:361-369 | the plan's nutrition is the decoded mapping, or the four fields at zero when the cell could not be decoded |
| DailyPlans.PlaceIngredients | meal_planner/meal_planner.py:331-347 | the ingredient loop over the ledgers computes the ingredient fold, and the ledgers end holding its lists |
| DailyPlans.TopUpCategories | meal_planner/meal_planner.py:350-359 | the requirement loop in `MEAL_REQUIREMENT` order over the ledgers computes the requirement fold |
| DailyPlans.RunDay | meal_planner/meal_planner.py:331-359 | the two loops together compute the day's state |
| DailyPlans.GenerateDailyPlan | meal_planner/meal_planner.py:320-386 | the plan is the day's plan from a copy of the main list; the caller's list is not modified |
| DailyPlans.GenerateSeniorDailyPlan | meal_planner/meal_planner.py:388-459 | the plan is the senior day's plan from copies of the box and main lists; the caller's lists are not modified |
| MonthlyPlan.Status | meal_planner/meal_planner.py:527-532 | a missing file or an empty filter result answers 404; a missing sheet answers 500 |
| MonthlyPlan.Slot | meal_planner/meal_planner.py:506 | the recipe index is below the number of filtered recipes |
| MonthlyPlan.SlotIsModulo | meal_planner/meal_planner.py:506 | the recipe index is `(day - 1) % len(filtered_recipes)` |
| MonthlyPlan.RotationShape | meal_planner/meal_planner.py:505-506 | day `i + 1` takes the filtered recipe at position `i mod n` |
| MonthlyPlan.RotationPeriod | meal_planner/meal_planner.py:506 | days `n` apart take the same recipe |
| MonthlyPlan.DayPlansShape | meal_planner/meal_planner.py:504-518 | entry `i` is day `i + 1`, and its plan is its recipe's plan from the lists the month started with |
| MonthlyPlan.PlanDays | meal_planner/meal_planner.py:504-518 | the thirty-day loop computes the thirty day plans |
| MonthlyPlan.PlanDay | meal_planner/meal_planner.py:506-518 | one pass of the day loop appends day `day`'s plan, for the recipe at `(day - 1) mod n`, to the plans of the days before |
| MonthlyPlan.GenerateDay | meal_planner/meal_planner.py:508-513 | the loop body calls the senior generator from 60 and the other one below |
| MonthlyPlan.GenerateMonthlyPlan | meal_planner/meal_planner.py:480-525 | the endpoint's work after validation returns the report or the failure that the month's definition gives |
| MonthlyPlan.MonthlyPlanFailures | meal_planner/meal_planner.py:481-501 | failures come in the endpoint's order: missing catalogue, no matching recipe, then (seniors only) missing box workbook or sheet; a report is produced exactly when none applies |
| MonthlyPlan.MonthlyPlanDays | meal_planner/meal_planner.py:504-518 | a report has thirty days numbered 1 to 30; day `d` uses the filtered recipe at `(d - 1) mod n`, from the senior box and main lists for a senior and from main alone otherwise |
| MonthlyPlan.MonthlyPlanHeader | meal_planner/meal_planner.py:520-522 | the month shown is the given one, or 1 (0 counts as not given); the age group is "senior" exactly from 60 |
| MonthlyPlan.ReportCycle | meal_planner/meal_planner.py:497-500 | only a senior report has a box cycle; it is 1, 2 or 3, 1 without a month (or with month 0), and otherwise congruent to the month modulo 3 |
| MonthlyPlan.MonthlyPlanOf | meal_planner/meal_planner.py:480-525 | a report has thirty days and the `senior_box_cycle` that `ReportCycle` describes; a failure for anyone under 60 answers 404 |
| MonthlyPlan.MonthlyPlanNoCarryOver | meal_planner/meal_planner.py:391-392 | two days with the same recipe have the same plan: nothing handed out one day is missing the next |

## Left out

- Request handling is not modelled: Flask, the JSON body, pydantic validation and its 400 answers, and the root and favicon endpoints.
- Fetching the stock sheet over HTTP (`fetch_inventory_file`) and its 500 answer are not modelled; the stock rows are a parameter.
- Reading the spreadsheets is not modelled (`load_food_reference`, `pd.read_excel`, and the existence checks of the food reference and stock files).
  - The reference map, the stock rows, the recipe catalogues and the box workbook are parameters.
  - A missing catalogue or box workbook is a missing map entry.
- Quantities are integers.
  - `pd.to_numeric(..., errors="coerce").fillna(0)` is taken as already applied.
  - Fractional servings and NaN are not modelled.
- Nutrition decoding is not modelled. `ast.literal_eval` becomes a decoded mapping or "undecodable".
  - A cell that decodes to something other than a mapping is not modelled.
  - Non-integer calorie values are not modelled.
- The `Categories` column is taken to be text; Python's `str()` of other cell types is not modelled.
- Text is modelled over ASCII classes.
  - `strip`, `lower` and the regex `\s` and `\d` follow their ASCII meaning.
  - Unicode whitespace, digits and case mapping are not modelled.
- `extra_needed` is a map, so its key order (the order of `MEAL_REQUIREMENT`) is not kept.
  - The requirement loop itself runs in that order.
- Logging is not modelled.
- The profile's gender, weight and height are accepted by the source and never used, so they are left out.
- Senior.AllocateSeniorItem, Senior.AllocateSeniorCategory, Senior.AllocateSeniorMisc: these require the box and main ledgers to be different objects.
  - The source passes two separate deep copies.
  - Aliasing the two lists is not modelled.
- DailyPlans.GenerateDailyPlan: the non-senior day runs on an empty box ledger that it never touches.
  - `DailyPlans.NonSeniorIgnoresBox` proves that the box contents do not matter.
- Any other exception inside the endpoint (its 500 answer) is modelled only for a missing box sheet.
