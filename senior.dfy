/**
 * The senior two-tier allocation: `allocate_senior_item`, `allocate_senior_category`
 * and `allocate_senior_misc`, plus the box-cycle helpers.
 *
 * A senior draws first on the month's box and only for the remainder on the main
 * inventory. Records of a named request are tagged main even when they come from the
 * box (the shared `allocate_specific_item` hard-codes that tag); only the box loop of a
 * category request tags its records box.
 */
module Senior {
  import opened Wrappers
  import opened Text
  import opened Inventory
  import opened Allocation

  /** The records, the amount still needed, and both lists afterwards. */
  datatype TwoTier = TwoTier(used: seq<AllocationRecord>, remaining: int, box: seq<InventoryItem>, main: seq<InventoryItem>)

  /** `allocate_senior_item`: the named item from the box, then from main for the rest. */
  function SeniorItem(box: seq<InventoryItem>, main: seq<InventoryItem>, name: string, cat: Category, needed: int): (r: TwoTier)
    ensures needed > 0 ==> 0 <= r.remaining <= needed
  {
    var b := Greedy(box, ByName(name, cat), needed, Main);
    if b.remaining > 0 then
      var m := Greedy(main, ByName(name, cat), b.remaining, Main);
      TwoTier(b.used + m.used, m.remaining, b.inventory, m.inventory)
    else TwoTier(b.used, b.remaining, b.inventory, main)
  }

  /** `allocate_senior_category`: any box entry of the category, tagged box, then
      `allocate_category` on main for the rest. */
  function SeniorCategory(box: seq<InventoryItem>, main: seq<InventoryItem>, cat: Category, needed: int): (r: TwoTier)
    ensures needed > 0 ==> 0 <= r.remaining <= needed
  {
    var b := Greedy(box, ByCategory(cat), needed, Box);
    if b.remaining > 0 then
      var m := CategoryAllocation(main, cat, b.remaining);
      TwoTier(b.used + m.used, m.remaining, b.inventory, m.inventory)
    else TwoTier(b.used, b.remaining, b.inventory, main)
  }

  /** `allocate_senior_misc`: the two-tier named request for each priority name in turn,
      stopping once nothing more is needed. */
  function SeniorMisc(names: seq<string>, box: seq<InventoryItem>, main: seq<InventoryItem>, needed: int): (r: TwoTier)
    ensures needed > 0 ==> 0 <= r.remaining <= needed
    decreases |names|
  {
    if names == [] || needed <= 0 then TwoTier([], needed, box, main)
    else
      var s := SeniorItem(box, main, names[0], Misc, needed);
      var rest := SeniorMisc(names[1..], s.box, s.main, s.remaining);
      TwoTier(s.used + rest.used, rest.remaining, rest.box, rest.main)
  }

  // ---------------------------------------------------------------- allocate_senior_item

  /** One serving asked for: it is found exactly when the box or main has a matching entry
      with stock, and then one record of one serving of a matching entry is made; otherwise
      nothing is recorded and both lists stay as they were. */
  lemma SeniorItemOne(box: seq<InventoryItem>, main: seq<InventoryItem>, name: string, cat: Category)
    ensures var r := SeniorItem(box, main, name, cat, 1);
      (r.remaining == 0 <==> Serves(box, ByName(name, cat)) || Serves(main, ByName(name, cat))) &&
      (r.remaining == 0 ==> |r.used| == 1 && RecordFits(r.used[0], ByName(name, cat), 1, Main)) &&
      (r.remaining != 0 ==> r.remaining == 1 && r.used == [] && r.box == box && r.main == main)
  {
    var q := ByName(name, cat);
    GreedyOne(box, q, Main);
    var b := Greedy(box, q, 1, Main);
    if b.remaining > 0 {
      GreedyOne(main, q, Main);
      var m := Greedy(main, q, 1, Main);
      assert b.used + m.used == m.used;
    }
  }

  /** Every record takes a positive amount no larger than what was asked, of the requested
      name and category, and is tagged main whichever list it came from. */
  lemma SeniorItemRecords(box: seq<InventoryItem>, main: seq<InventoryItem>, name: string, cat: Category, needed: int)
    ensures forall k :: 0 <= k < |SeniorItem(box, main, name, cat, needed).used| ==>
      RecordFits(SeniorItem(box, main, name, cat, needed).used[k], ByName(name, cat), needed, Main)
  {
    var q := ByName(name, cat);
    var b := Greedy(box, q, needed, Main);
    GreedyRecords(box, q, needed, Main);
    if b.remaining > 0 {
      var m := Greedy(main, q, b.remaining, Main);
      GreedyRecords(main, q, b.remaining, Main);
      RecordsConcat(b.used, m.used, q, needed, b.remaining, Main);
    }
  }

  /** Records that fit a request for `needed`, followed by records that fit one for less. */
  lemma RecordsConcat(a: seq<AllocationRecord>, b: seq<AllocationRecord>, q: Query, needed: int, less: int, src: Source)
    requires less <= needed
    requires forall k :: 0 <= k < |a| ==> RecordFits(a[k], q, needed, src)
    requires forall k :: 0 <= k < |b| ==> RecordFits(b[k], q, less, src)
    ensures forall k :: 0 <= k < |a + b| ==> RecordFits((a + b)[k], q, needed, src)
  {
    forall k | 0 <= k < |a + b| ensures RecordFits((a + b)[k], q, needed, src) {
      if k < |a| {
        assert (a + b)[k] == a[k];
      } else {
        assert (a + b)[k] == b[k - |a|];
        assert RecordFits(b[k - |a|], q, less, src);
      }
    }
  }

  /** Box before main: the main list is left exactly as it was when the box covers the
      whole need, and it changes only once every matching box entry is used up. Both lists
      only lose stock, and only at entries matching the request that had stock. */
  lemma SeniorItemFallback(box: seq<InventoryItem>, main: seq<InventoryItem>, name: string, cat: Category, needed: int)
    ensures var r := SeniorItem(box, main, name, cat, needed);
      var b := Greedy(box, ByName(name, cat), needed, Main);
      (b.remaining <= 0 ==> r.main == main) &&
      (r.main != main ==> forall i :: 0 <= i < |r.box| && Matches(r.box[i], ByName(name, cat)) ==> r.box[i].servings <= 0) &&
      Depletes(box, r.box) && Depletes(main, r.main) &&
      (forall i :: 0 <= i < |box| && r.box[i] != box[i] ==> Matches(box[i], ByName(name, cat)) && box[i].servings > 0) &&
      (forall i :: 0 <= i < |main| && r.main[i] != main[i] ==> Matches(main[i], ByName(name, cat)) && main[i].servings > 0)
  {
    var q := ByName(name, cat);
    var b := Greedy(box, q, needed, Main);
    GreedyFrame(box, q, needed, Main);
    GreedyExhausts(box, q, needed, Main);
    if b.remaining > 0 {
      GreedyFrame(main, q, b.remaining, Main);
    }
  }

  /** Conservation over both lists, and exhaustion: what is still needed could not be found
      in either list. */
  lemma SeniorItemTotal(box: seq<InventoryItem>, main: seq<InventoryItem>, name: string, cat: Category, needed: int)
    ensures var r := SeniorItem(box, main, name, cat, needed);
      Sum(r.used) + r.remaining == needed &&
      Sum(r.used) == (Total(box) - Total(r.box)) + (Total(main) - Total(r.main)) &&
      (r.remaining > 0 ==>
        (forall i :: 0 <= i < |r.box| && Matches(r.box[i], ByName(name, cat)) ==> r.box[i].servings <= 0) &&
        (forall i :: 0 <= i < |r.main| && Matches(r.main[i], ByName(name, cat)) ==> r.main[i].servings <= 0))
  {
    var q := ByName(name, cat);
    var b := Greedy(box, q, needed, Main);
    GreedyTotal(box, q, needed, Main);
    GreedyExhausts(box, q, needed, Main);
    if b.remaining > 0 {
      var m := Greedy(main, q, b.remaining, Main);
      GreedyTotal(main, q, b.remaining, Main);
      GreedyExhausts(main, q, b.remaining, Main);
      SumConcat(b.used, m.used);
    }
  }

  // ---------------------------------------------------------------- allocate_senior_category

  /** Records: positive, at most `needed`, of the category; every box-tagged record comes
      before every main-tagged one. */
  lemma SeniorCategoryRecords(box: seq<InventoryItem>, main: seq<InventoryItem>, cat: Category, needed: int)
    ensures var r := SeniorCategory(box, main, cat, needed);
      (forall k :: 0 <= k < |r.used| ==> 0 < r.used[k].servingsUsed <= needed && r.used[k].category == cat) &&
      (forall j, k :: 0 <= j < k < |r.used| && r.used[k].source == Box ==> r.used[j].source == Box)
  {
    var b := Greedy(box, ByCategory(cat), needed, Box);
    GreedyRecords(box, ByCategory(cat), needed, Box);
    if b.remaining > 0 {
      var m := CategoryAllocation(main, cat, b.remaining);
      CategoryAllocationSound(main, cat, b.remaining);
      var used := b.used + m.used;
      forall k | 0 <= k < |used| ensures 0 < used[k].servingsUsed <= needed && used[k].category == cat {
        if k < |b.used| {
          assert used[k] == b.used[k];
          assert RecordFits(b.used[k], ByCategory(cat), needed, Box);
        } else {
          assert used[k] == m.used[k - |b.used|];
        }
      }
      forall j, k | 0 <= j < k < |used| && used[k].source == Box ensures used[j].source == Box {
        assert used[j] == b.used[j];
        assert RecordFits(b.used[j], ByCategory(cat), needed, Box);
      }
    } else {
      forall k | 0 <= k < |b.used| ensures b.used[k].source == Box {
        assert RecordFits(b.used[k], ByCategory(cat), needed, Box);
      }
    }
  }

  /** Box before main: main is untouched when the box covers the need and changes only once
      every box entry of the category is used up; the box loses only category stock and main
      only what `allocate_category` may draw on. */
  lemma SeniorCategoryFallback(box: seq<InventoryItem>, main: seq<InventoryItem>, cat: Category, needed: int)
    ensures var r := SeniorCategory(box, main, cat, needed);
      var b := Greedy(box, ByCategory(cat), needed, Box);
      (b.remaining <= 0 ==> r.main == main) &&
      (r.main != main ==> forall i :: 0 <= i < |r.box| && r.box[i].category == cat ==> r.box[i].servings <= 0) &&
      Depletes(box, r.box) && Depletes(main, r.main) &&
      (forall i :: 0 <= i < |box| && r.box[i] != box[i] ==> box[i].category == cat && box[i].servings > 0) &&
      (forall i :: 0 <= i < |main| && r.main[i] != main[i] ==> Covers(main[i], cat) && main[i].servings > 0)
  {
    var b := Greedy(box, ByCategory(cat), needed, Box);
    GreedyFrame(box, ByCategory(cat), needed, Box);
    GreedyExhausts(box, ByCategory(cat), needed, Box);
    if b.remaining > 0 {
      CategoryAllocationSound(main, cat, b.remaining);
    }
  }

  /** Conservation over both lists, and exhaustion of both lists for the category. */
  lemma SeniorCategoryTotal(box: seq<InventoryItem>, main: seq<InventoryItem>, cat: Category, needed: int)
    ensures var r := SeniorCategory(box, main, cat, needed);
      Sum(r.used) + r.remaining == needed &&
      Sum(r.used) == (Total(box) - Total(r.box)) + (Total(main) - Total(r.main)) &&
      (r.remaining > 0 ==>
        (forall i :: 0 <= i < |r.box| && r.box[i].category == cat ==> r.box[i].servings <= 0) &&
        Exhausted(r.main, cat))
  {
    var b := Greedy(box, ByCategory(cat), needed, Box);
    GreedyTotal(box, ByCategory(cat), needed, Box);
    GreedyExhausts(box, ByCategory(cat), needed, Box);
    if b.remaining > 0 {
      var m := CategoryAllocation(main, cat, b.remaining);
      CategoryAllocationSound(main, cat, b.remaining);
      SumConcat(b.used, m.used);
    }
  }

  // ---------------------------------------------------------------- allocate_senior_misc

  /** Every misc record takes a positive amount no larger than what was asked, is tagged
      main, and names one of the names asked for. */
  lemma {:induction false} SeniorMiscRecords(names: seq<string>, box: seq<InventoryItem>, main: seq<InventoryItem>, needed: int)
    ensures forall k :: 0 <= k < |SeniorMisc(names, box, main, needed).used| ==>
      MiscRecordFits(SeniorMisc(names, box, main, needed).used[k], names, needed)
    decreases |names|
  {
    if names != [] && needed > 0 {
      var s := SeniorItem(box, main, names[0], Misc, needed);
      var rest := SeniorMisc(names[1..], s.box, s.main, s.remaining);
      SeniorItemRecords(box, main, names[0], Misc, needed);
      SeniorMiscRecords(names[1..], s.box, s.main, s.remaining);
      var used := s.used + rest.used;
      forall k | 0 <= k < |used| ensures MiscRecordFits(used[k], names, needed) {
        NamedShift(names, used[k].itemName);
        if k < |s.used| {
          assert used[k] == s.used[k];
          assert RecordFits(s.used[k], ByName(names[0], Misc), needed, Main);
        } else {
          assert used[k] == rest.used[k - |s.used|];
          assert MiscRecordFits(rest.used[k - |s.used|], names[1..], s.remaining);
        }
      }
    }
  }

  /** Misc priority order across both lists: all records of an earlier name come first. */
  lemma {:induction false} SeniorMiscOrdered(names: seq<string>, box: seq<InventoryItem>, main: seq<InventoryItem>, needed: int)
    requires DistinctKeys(names)
    ensures InPriorityOrder(names, SeniorMisc(names, box, main, needed).used)
    decreases |names|
  {
    if names != [] && needed > 0 {
      var s := SeniorItem(box, main, names[0], Misc, needed);
      var rest := SeniorMisc(names[1..], s.box, s.main, s.remaining);
      SeniorItemRecords(box, main, names[0], Misc, needed);
      forall k | 0 <= k < |s.used| ensures KeyIndex(names, s.used[k].itemName) == 0 {
        assert RecordFits(s.used[k], ByName(names[0], Misc), needed, Main);
      }
      DistinctKeysTail(names);
      SeniorMiscOrdered(names[1..], s.box, s.main, s.remaining);
      SeniorMiscRecords(names[1..], s.box, s.main, s.remaining);
      forall k | 0 <= k < |rest.used| ensures Named(names[1..], rest.used[k].itemName) {
        assert MiscRecordFits(rest.used[k], names[1..], s.remaining);
      }
      OrderShift(names, rest.used);
      OrderConcat(names, s.used, rest.used);
    }
  }

  /** Only misc entries named in the list, with positive stock, lose stock, in either list;
      a misc item outside the list is never consumed. */
  lemma {:induction false} SeniorMiscFrame(names: seq<string>, box: seq<InventoryItem>, main: seq<InventoryItem>, needed: int)
    ensures var r := SeniorMisc(names, box, main, needed);
      Depletes(box, r.box) && Depletes(main, r.main) &&
      (forall i :: 0 <= i < |box| && r.box[i] != box[i] ==> MiscCovers(box[i], names) && box[i].servings > 0) &&
      (forall i :: 0 <= i < |main| && r.main[i] != main[i] ==> MiscCovers(main[i], names) && main[i].servings > 0)
    decreases |names|
  {
    if names != [] && needed > 0 {
      var q := ByName(names[0], Misc);
      var s := SeniorItem(box, main, names[0], Misc, needed);
      var r := SeniorMisc(names, box, main, needed);
      var b := Greedy(box, q, needed, Main);
      GreedyFrame(box, q, needed, Main);
      if b.remaining > 0 {
        GreedyFrame(main, q, b.remaining, Main);
      }
      SeniorMiscFrame(names[1..], s.box, s.main, s.remaining);
      DepletesTransitive(box, s.box, r.box);
      DepletesTransitive(main, s.main, r.main);
      forall i | 0 <= i < |box| && r.box[i] != box[i] ensures MiscCovers(box[i], names) && box[i].servings > 0 {
        NamedShift(names, box[i].itemName);
      }
      forall i | 0 <= i < |main| && r.main[i] != main[i] ensures MiscCovers(main[i], names) && main[i].servings > 0 {
        NamedShift(names, main[i].itemName);
      }
    }
  }

  /** Exhaustion for senior misc: when something is still needed, no misc entry named in
      the list has stock left in either list. */
  lemma {:induction false} SeniorMiscExhausts(names: seq<string>, box: seq<InventoryItem>, main: seq<InventoryItem>, needed: int)
    ensures SeniorMisc(names, box, main, needed).remaining > 0 ==>
      NoneLeft(SeniorMisc(names, box, main, needed).box, names) &&
      NoneLeft(SeniorMisc(names, box, main, needed).main, names)
    decreases |names|
  {
    var r := SeniorMisc(names, box, main, needed);
    if names != [] && needed > 0 && r.remaining > 0 {
      var q := ByName(names[0], Misc);
      var s := SeniorItem(box, main, names[0], Misc, needed);
      SeniorItemTotal(box, main, names[0], Misc, needed);
      SeniorMiscExhausts(names[1..], s.box, s.main, s.remaining);
      SeniorMiscFrame(names[1..], s.box, s.main, s.remaining);
      forall i | 0 <= i < |r.box| && MiscCovers(r.box[i], names) ensures r.box[i].servings <= 0 {
        NamedShift(names, r.box[i].itemName);
        if Key(names[0]) == Key(r.box[i].itemName) {
          assert Matches(s.box[i], q);
        } else {
          assert MiscCovers(r.box[i], names[1..]);
        }
      }
      forall i | 0 <= i < |r.main| && MiscCovers(r.main[i], names) ensures r.main[i].servings <= 0 {
        NamedShift(names, r.main[i].itemName);
        if Key(names[0]) == Key(r.main[i].itemName) {
          assert Matches(s.main[i], q);
        } else {
          assert MiscCovers(r.main[i], names[1..]);
        }
      }
    }
  }

  /** No misc entry named in `names` has stock left. */
  ghost predicate NoneLeft(inv: seq<InventoryItem>, names: seq<string>) {
    forall i :: 0 <= i < |inv| && MiscCovers(inv[i], names) ==> inv[i].servings <= 0
  }

  /** Conservation over both lists. */
  lemma {:induction false} SeniorMiscTotal(names: seq<string>, box: seq<InventoryItem>, main: seq<InventoryItem>, needed: int)
    ensures var r := SeniorMisc(names, box, main, needed);
      Sum(r.used) + r.remaining == needed &&
      Sum(r.used) == (Total(box) - Total(r.box)) + (Total(main) - Total(r.main))
    decreases |names|
  {
    if names != [] && needed > 0 {
      var s := SeniorItem(box, main, names[0], Misc, needed);
      var rest := SeniorMisc(names[1..], s.box, s.main, s.remaining);
      SeniorItemTotal(box, main, names[0], Misc, needed);
      SeniorMiscTotal(names[1..], s.box, s.main, s.remaining);
      SumConcat(s.used, rest.used);
    }
  }

  /** One step of the scan, at position `k` of the name list. */
  lemma SeniorMiscAt(names: seq<string>, k: nat, box: seq<InventoryItem>, main: seq<InventoryItem>, needed: int)
    requires k < |names| && needed > 0
    ensures var s := SeniorItem(box, main, names[k], Misc, needed);
      var rest := SeniorMisc(names[k + 1..], s.box, s.main, s.remaining);
      SeniorMisc(names[k..], box, main, needed) == TwoTier(s.used + rest.used, rest.remaining, rest.box, rest.main)
  {
    assert names[k..][0] == names[k];
    assert names[k..][1..] == names[k + 1..];
  }

  // ---------------------------------------------------------------- the methods

  /** `allocate_senior_item`, on the two lists in place. */
  method AllocateSeniorItem(box: Ledger, main: Ledger, name: string, category: Category, needed: int)
    returns (used: seq<AllocationRecord>, remaining: int)
    requires box != main
    modifies box, main
    ensures TwoTier(used, remaining, box.items, main.items) == SeniorItem(old(box.items), old(main.items), name, category, needed)
  {
    used, remaining := box.AllocateSpecificItem(name, category, needed);
    if remaining > 0 {
      var u;
      u, remaining := main.AllocateSpecificItem(name, category, remaining);
      used := used + u;
    }
  }

  /** `allocate_senior_category`, on the two lists in place. The box loop is the shared
      greedy loop with the box tag; the source's retagging of the main records as main
      changes nothing, since `allocate_category` already tags them so. */
  method AllocateSeniorCategory(box: Ledger, main: Ledger, category: Category, needed: int)
    returns (used: seq<AllocationRecord>, remaining: int)
    requires box != main
    modifies box, main
    ensures TwoTier(used, remaining, box.items, main.items) == SeniorCategory(old(box.items), old(main.items), category, needed)
  {
    used, remaining := box.Take(ByCategory(category), needed, Box);
    if remaining > 0 {
      var u;
      u, remaining := main.AllocateCategory(category, remaining);
      used := used + u;
    }
  }

  /** `allocate_senior_misc`, on the two lists in place. */
  method AllocateSeniorMisc(box: Ledger, main: Ledger, needed: int) returns (used: seq<AllocationRecord>, remaining: int)
    requires box != main
    modifies box, main
    ensures TwoTier(used, remaining, box.items, main.items) == SeniorMisc(MiscPriority, old(box.items), old(main.items), needed)
  {
    ghost var goal := SeniorMisc(MiscPriority, box.items, main.items, needed);
    used, remaining := [], needed;
    var k := 0;
    assert MiscPriority[0..] == MiscPriority;
    assert goal == After([], SeniorMisc(MiscPriority[k..], box.items, main.items, remaining));
    while k < |MiscPriority|
      invariant 0 <= k <= |MiscPriority|
      invariant goal == After(used, SeniorMisc(MiscPriority[k..], box.items, main.items, remaining))
    {
      if remaining <= 0 {
        break;
      }
      used, remaining := VisitMisc(box, main, k, used, remaining);
      k := k + 1;
    }
    assert used + [] == used;
  }

  /** One pass of the priority loop: allocate the `k`-th priority name from box then main. */
  method VisitMisc(box: Ledger, main: Ledger, k: nat, used: seq<AllocationRecord>, remaining: int)
    returns (used': seq<AllocationRecord>, remaining': int)
    requires box != main && k < |MiscPriority| && remaining > 0
    modifies box, main
    ensures After(used, SeniorMisc(MiscPriority[k..], old(box.items), old(main.items), remaining)) ==
      After(used', SeniorMisc(MiscPriority[k + 1..], box.items, main.items, remaining'))
  {
    SeniorMiscAt(MiscPriority, k, box.items, main.items, remaining);
    var u;
    u, remaining' := AllocateSeniorItem(box, main, MiscPriority[k], Misc, remaining);
    used' := used + u;
    AfterShift(used, u, SeniorMisc(MiscPriority[k + 1..], box.items, main.items, remaining'));
  }

  /** The records made so far followed by the rest of the walk. */
  function After(used: seq<AllocationRecord>, rest: TwoTier): TwoTier {
    TwoTier(used + rest.used, rest.remaining, rest.box, rest.main)
  }

  lemma AfterShift(used: seq<AllocationRecord>, u: seq<AllocationRecord>, rest: TwoTier)
    ensures After(used, TwoTier(u + rest.used, rest.remaining, rest.box, rest.main)) == After(used + u, rest)
  {
    assert used + (u + rest.used) == (used + u) + rest.used;
  }

  // ---------------------------------------------------------------- the box cycle

  /** `get_senior_box_cycle`: the month's position in a three-month cycle, 1 when absent.
      Python's `%` with a positive divisor agrees with Dafny's. */
  function BoxCycle(month: Option<int>): (c: int)
    ensures 1 <= c <= 3
    ensures month.None? ==> c == 1
    ensures month.Some? ==> (c - month.value) % 3 == 0
  {
    match month
    case None => 1
    case Some(m) => (m - 1) % 3 + 1
  }

  /** The cycle repeats every three months. */
  lemma BoxCyclePeriod(m: int)
    ensures BoxCycle(Some(m + 3)) == BoxCycle(Some(m))
  {
    assert (m + 3 - 1) % 3 == (m - 1) % 3;
  }

  /** The sheet read for a cycle: one per cycle month, the first month's for anything else. */
  function SheetName(cycle: int): (s: string)
    ensures cycle == 2 ==> s == "Senior Box Second Month"
    ensures cycle == 3 ==> s == "Senior Box Third Month"
    ensures cycle != 2 && cycle != 3 ==> s == "Senior Box First Month"
  {
    if cycle == 1 then "Senior Box First Month"
    else if cycle == 2 then "Senior Box Second Month"
    else if cycle == 3 then "Senior Box Third Month"
    else "Senior Box First Month"
  }
}
