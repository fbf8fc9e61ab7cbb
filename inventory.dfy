/**
 * The inventory data model of the meal planner: the six food categories, the
 * category-label table, the per-meal requirement, the misc priority list, inventory
 * entries, allocation records, and the row filter shared by the main and senior-box
 * loaders.
 */
module Inventory {
  import opened Wrappers
  import opened Text

  datatype Category = FruitVeg | Dairy | Protein | Cereal | Oil | Misc

  /** The label `CATEGORY_MAP` gives each category in the food reference sheet. */
  function Label(c: Category): string {
    match c
    case FruitVeg => "seasonal & local fruits/vegetables"
    case Dairy => "milk & dairy"
    case Protein => "meat/fish/eggs/pulses"
    case Cereal => "grains"
    case Oil => "oil"
    case Misc => "misc"
  }

  /** `CATEGORY_MAP.get(name)`: the category labelled `name`, or none when no category has
      that label. */
  function CategoryOfLabel(name: string): (c: Option<Category>)
    ensures c.Some? ==> Label(c.value) == name
    ensures c.None? ==> forall k :: Label(k) != name
  {
    if name == "seasonal & local fruits/vegetables" then Some(FruitVeg)
    else if name == "milk & dairy" then Some(Dairy)
    else if name == "meat/fish/eggs/pulses" then Some(Protein)
    else if name == "grains" then Some(Cereal)
    else if name == "oil" then Some(Oil)
    else if name == "misc" then Some(Misc)
    else None
  }

  /** `MEAL_REQUIREMENT`: servings of each category one meal should contain. */
  function Requirement(c: Category): nat {
    match c
    case FruitVeg => 2
    case Cereal => 1
    case Dairy => 0
    case Protein => 1
    case Oil => 1
    case Misc => 2
  }

  /** A meal needs at most two servings of a category, and dairy is the only category it
      needs none of. */
  lemma RequirementRange(c: Category)
    ensures Requirement(c) <= 2
    ensures Requirement(c) == 0 <==> c == Dairy
  {
  }

  /** The iteration order of `MEAL_REQUIREMENT.items()`. */
  const RequirementOrder: seq<Category> := [FruitVeg, Cereal, Dairy, Protein, Oil, Misc]

  /** `MISC_PRIORITY`: misc items are taken in this order, and only these. */
  const MiscPriority: seq<string> := ["Salt/Pepper", "Sugar", "Chocolates", "Millefiori honey 500 g"]

  /** `CATEGORY_MAP.get(ref_map.get(key, ""))`: the category of a normalised name, if any
      (the empty label is not in the category table). */
  function Resolve(refMap: map<string, string>, key: string): (c: Option<Category>)
    ensures c.Some? <==> key in refMap && exists k :: Label(k) == refMap[key]
    ensures c.Some? ==> Label(c.value) == refMap[key]
  {
    if key in refMap then CategoryOfLabel(refMap[key]) else None
  }

  datatype Source = Main | Box

  /** One inventory dict. Only `servings` is ever changed. Servings are whole numbers here
      and may be negative; only positive stock is ever taken. */
  datatype InventoryItem = InventoryItem(itemName: string, category: Category, servings: int)

  /** One record of `used`: which entry served how much, from which source tag. */
  datatype AllocationRecord = AllocationRecord(itemName: string, category: Category, servingsUsed: int, source: Source)

  /** A spreadsheet row, already parsed: the raw name and the numeric quantity. */
  datatype Row = Row(itemName: string, quantity: int)

  function Sum(used: seq<AllocationRecord>): int {
    if used == [] then 0 else used[0].servingsUsed + Sum(used[1..])
  }

  lemma {:induction false} SumConcat(a: seq<AllocationRecord>, b: seq<AllocationRecord>)
    ensures Sum(a + b) == Sum(a) + Sum(b)
  {
    if a != [] {
      assert (a + b)[0] == a[0];
      assert (a + b)[1..] == a[1..] + b;
      SumConcat(a[1..], b);
    } else {
      assert a + b == b;
    }
  }

  lemma SumCons(x: AllocationRecord, s: seq<AllocationRecord>)
    ensures Sum([x] + s) == x.servingsUsed + Sum(s)
  {
    assert ([x] + s)[1..] == s;
  }

  /** The total stock of a list of entries. */
  function Total(inv: seq<InventoryItem>): int {
    if inv == [] then 0 else inv[0].servings + Total(inv[1..])
  }

  lemma TotalCons(x: InventoryItem, s: seq<InventoryItem>)
    ensures Total([x] + s) == x.servings + Total(s)
  {
    assert ([x] + s)[1..] == s;
  }

  // ---------------------------------------------------------------- loaders

  /** The inventory entry a row becomes, if its stripped, lowercased name has a category. */
  function RowItem(row: Row, refMap: map<string, string>): Option<InventoryItem> {
    var name := Trim(row.itemName);
    match Resolve(refMap, Lower(name))
    case Some(c) => Some(InventoryItem(name, c, row.quantity))
    case None => None
  }

  /** The entries the loaders build from `rows`, in row order. */
  function LoadedItems(rows: seq<Row>, refMap: map<string, string>): seq<InventoryItem> {
    if rows == [] then []
    else
      var last := rows[|rows| - 1];
      LoadedItems(rows[..|rows| - 1], refMap) +
        (match RowItem(last, refMap) case Some(it) => [it] case None => [])
  }

  /** The row filter of `load_inventory_items` and `load_senior_box_items`. */
  method LoadInventoryItems(rows: seq<Row>, refMap: map<string, string>) returns (items: seq<InventoryItem>)
    ensures items == LoadedItems(rows, refMap)
  {
    items := [];
    var i := 0;
    while i < |rows|
      invariant 0 <= i <= |rows|
      invariant items == LoadedItems(rows[..i], refMap)
    {
      assert rows[..i + 1][..i] == rows[..i];
      var name := Trim(rows[i].itemName);
      var key := Lower(name);
      if key in refMap {
        var category := CategoryOfLabel(refMap[key]);
        if category.Some? {
          items := items + [InventoryItem(name, category.value, rows[i].quantity)];
        }
      }
      i := i + 1;
    }
    assert rows[..i] == rows;
  }

  /** A kept entry has a stripped name whose key resolves to its category. */
  lemma RowItemResolves(r: Row, refMap: map<string, string>)
    requires RowItem(r, refMap).Some?
    ensures var it := RowItem(r, refMap).value;
      Trim(it.itemName) == it.itemName && Resolve(refMap, Key(it.itemName)) == Some(it.category) &&
      it.servings == r.quantity
  {
    TrimIdempotent(r.itemName);
  }

  /** A row is kept exactly when its key resolves: every resolving row's entry is loaded,
      and every loaded entry comes from a resolving row, so its name is stripped and its
      key resolves to its category. */
  lemma {:induction false} LoadedItemsMembers(rows: seq<Row>, refMap: map<string, string>)
    ensures forall r :: r in rows && RowItem(r, refMap).Some? ==> RowItem(r, refMap).value in LoadedItems(rows, refMap)
    ensures forall it :: it in LoadedItems(rows, refMap) ==>
      exists r :: r in rows && RowItem(r, refMap) == Some(it)
    ensures forall it :: it in LoadedItems(rows, refMap) ==>
      Trim(it.itemName) == it.itemName && Resolve(refMap, Key(it.itemName)) == Some(it.category)
  {
    if rows != [] {
      var init, last := rows[..|rows| - 1], rows[|rows| - 1];
      LoadedItemsMembers(init, refMap);
      assert rows == init + [last];
      var loaded := LoadedItems(rows, refMap);
      forall it | it in loaded ensures exists r :: r in rows && RowItem(r, refMap) == Some(it) {
        if it in LoadedItems(init, refMap) {
          var r :| r in init && RowItem(r, refMap) == Some(it);
          assert r in rows;
        } else {
          assert RowItem(last, refMap) == Some(it);
        }
      }
      forall it | it in loaded
        ensures Trim(it.itemName) == it.itemName && Resolve(refMap, Key(it.itemName)) == Some(it.category)
      {
        var r :| r in rows && RowItem(r, refMap) == Some(it);
        RowItemResolves(r, refMap);
      }
    }
  }
}
