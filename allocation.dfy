/**
 * Allocation from one inventory list: `allocate_specific_item` and `allocate_category`.
 *
 * Both walk the list in order and take `min(stock, needed)` from every entry that
 * matches and has positive stock, until nothing more is needed. The misc category is
 * different: it asks for each name of `MISC_PRIORITY` in turn, and for nothing else.
 *
 * `Greedy`, `MiscScan` and `CategoryAllocation` state what a call returns and what the
 * list looks like afterwards; the `Ledger` class holds the list and its methods update
 * it in place, proved equal to those functions.
 */
module Allocation {
  import opened Text
  import opened Inventory

  /** What an allocation asks for: one named item of a category, or any item of a category. */
  datatype Query = ByName(name: string, category: Category) | ByCategory(category: Category)

  /** The entry test: same category and, for a named request, the same stripped, lowercased name. */
  predicate Matches(it: InventoryItem, q: Query) {
    it.category == q.category && (q.ByName? ==> Key(it.itemName) == Key(q.name))
  }

  /** A named request also finds an entry whose name differs from it only in letter case. */
  lemma MatchesCaseBlind(it: InventoryItem, q: Query)
    requires q.ByName? && it.category == q.category && Lower(it.itemName) == Lower(q.name)
    ensures Matches(it, q)
  {
    KeyCaseBlind(it.itemName, q.name);
  }

  /** The records produced, the amount still needed, and the list afterwards. */
  datatype Allocation = Allocation(used: seq<AllocationRecord>, remaining: int, inventory: seq<InventoryItem>)

  function Min(a: int, b: int): int {
    if a <= b then a else b
  }

  /** The greedy walk: from each matching entry with positive stock, in list order, take
      `min(stock, needed)` and record it under the request's category and `src`. */
  function Greedy(inv: seq<InventoryItem>, q: Query, needed: int, src: Source): (r: Allocation)
    ensures |r.inventory| == |inv|
    ensures needed <= 0 ==> r == Allocation([], needed, inv)
    ensures needed > 0 ==> 0 <= r.remaining <= needed
    decreases |inv|
  {
    if inv == [] || needed <= 0 then Allocation([], needed, inv)
    else
      var it := inv[0];
      if Matches(it, q) && it.servings > 0 then
        var take := Min(it.servings, needed);
        var rest := Greedy(inv[1..], q, needed - take, src);
        Allocation([AllocationRecord(it.itemName, q.category, take, src)] + rest.used, rest.remaining,
                   [it.(servings := it.servings - take)] + rest.inventory)
      else
        var rest := Greedy(inv[1..], q, needed, src);
        Allocation(rest.used, rest.remaining, [it] + rest.inventory)
  }

  // ---------------------------------------------------------------- what stays the same

  /** The list keeps its length, order, names and categories; no stock rises, and an entry
      that loses stock does not end below zero. */
  ghost predicate Depletes(before: seq<InventoryItem>, after: seq<InventoryItem>) {
    |after| == |before| &&
    forall i :: 0 <= i < |before| ==>
      after[i].itemName == before[i].itemName && after[i].category == before[i].category &&
      after[i].servings <= before[i].servings &&
      (after[i].servings < before[i].servings ==> after[i].servings >= 0)
  }

  lemma DepletesTransitive(a: seq<InventoryItem>, b: seq<InventoryItem>, c: seq<InventoryItem>)
    requires Depletes(a, b) && Depletes(b, c)
    ensures Depletes(a, c)
  {
  }

  /** The per-entry losses from `before` to `after`, in list order, as records. */
  function Losses(before: seq<InventoryItem>, after: seq<InventoryItem>, cat: Category, src: Source): seq<AllocationRecord>
    requires |before| == |after|
  {
    if before == [] then []
    else
      (if after[0].servings != before[0].servings
       then [AllocationRecord(before[0].itemName, cat, before[0].servings - after[0].servings, src)]
       else []) +
      Losses(before[1..], after[1..], cat, src)
  }

  /** `name` is one of `names`, compared as stripped, lowercased keys. */
  ghost predicate Named(names: seq<string>, name: string) {
    exists p :: 0 <= p < |names| && Key(names[p]) == Key(name)
  }

  /** The entries a category request may draw on: all of that category, except that for
      misc only the entries named in `MISC_PRIORITY`. */
  ghost predicate Covers(it: InventoryItem, c: Category) {
    it.category == c && (c == Misc ==> Named(MiscPriority, it.itemName))
  }

  /** No entry a request for `c` may draw on has stock left. */
  ghost predicate Exhausted(inv: seq<InventoryItem>, c: Category) {
    forall i :: 0 <= i < |inv| && Covers(inv[i], c) ==> inv[i].servings <= 0
  }

  lemma ExhaustedStays(a: seq<InventoryItem>, b: seq<InventoryItem>, c: Category)
    requires Exhausted(a, c) && Depletes(a, b)
    ensures Exhausted(b, c)
  {
    forall i | 0 <= i < |b| && Covers(b[i], c) ensures b[i].servings <= 0 {
      assert Covers(a[i], c);
    }
  }

  // ---------------------------------------------------------------- the greedy walk

  /** Every record takes a positive amount no larger than what was asked, carries the
      requested category and source, and (for a named request) the requested name. */
  lemma {:induction false} GreedyRecords(inv: seq<InventoryItem>, q: Query, needed: int, src: Source)
    ensures forall k :: 0 <= k < |Greedy(inv, q, needed, src).used| ==>
      RecordFits(Greedy(inv, q, needed, src).used[k], q, needed, src)
    decreases |inv|
  {
    if inv != [] && needed > 0 {
      var it := inv[0];
      if Matches(it, q) && it.servings > 0 {
        var take := Min(it.servings, needed);
        GreedyRecords(inv[1..], q, needed - take, src);
        var rest := Greedy(inv[1..], q, needed - take, src).used;
        var used := Greedy(inv, q, needed, src).used;
        assert used == [AllocationRecord(it.itemName, q.category, take, src)] + rest;
        forall k | 0 <= k < |used| ensures RecordFits(used[k], q, needed, src) {
          if k > 0 {
            assert used[k] == rest[k - 1];
            assert RecordFits(rest[k - 1], q, needed - take, src);
          }
        }
      } else {
        GreedyRecords(inv[1..], q, needed, src);
      }
    }
  }

  /** A record of a request for `q` with `needed` servings, tagged `src`. */
  ghost predicate RecordFits(rec: AllocationRecord, q: Query, needed: int, src: Source) {
    0 < rec.servingsUsed <= needed && rec.source == src && rec.category == q.category &&
    (q.ByName? ==> Key(rec.itemName) == Key(q.name))
  }

  /** Only matching entries with positive stock change; every other entry is left as it was. */
  lemma {:induction false} GreedyFrame(inv: seq<InventoryItem>, q: Query, needed: int, src: Source)
    ensures var r := Greedy(inv, q, needed, src);
      Depletes(inv, r.inventory) &&
      forall i :: 0 <= i < |inv| && r.inventory[i] != inv[i] ==> Matches(inv[i], q) && inv[i].servings > 0
    decreases |inv|
  {
    if inv != [] && needed > 0 {
      var it := inv[0];
      var r := Greedy(inv, q, needed, src);
      var left := if Matches(it, q) && it.servings > 0 then needed - Min(it.servings, needed) else needed;
      var rest := Greedy(inv[1..], q, left, src);
      GreedyFrame(inv[1..], q, left, src);
      assert r.inventory[1..] == rest.inventory;
      DepletesCons(it, r.inventory[0], inv[1..], rest.inventory);
      assert inv == [it] + inv[1..] && r.inventory == [r.inventory[0]] + rest.inventory;
      forall i | 0 <= i < |inv| && r.inventory[i] != inv[i]
        ensures Matches(inv[i], q) && inv[i].servings > 0
      {
        if i > 0 {
          assert r.inventory[i] == rest.inventory[i - 1] && inv[i] == inv[1..][i - 1];
        }
      }
    }
  }

  lemma DepletesCons(x: InventoryItem, y: InventoryItem, a: seq<InventoryItem>, b: seq<InventoryItem>)
    requires Depletes(a, b)
    requires y.itemName == x.itemName && y.category == x.category && y.servings <= x.servings
    requires y.servings < x.servings ==> y.servings >= 0
    ensures Depletes([x] + a, [y] + b)
  {
    forall i | 0 <= i < |a| + 1
      ensures ([y] + b)[i].itemName == ([x] + a)[i].itemName && ([y] + b)[i].category == ([x] + a)[i].category &&
        ([y] + b)[i].servings <= ([x] + a)[i].servings &&
        (([y] + b)[i].servings < ([x] + a)[i].servings ==> ([y] + b)[i].servings >= 0)
    {
      if i > 0 {
        assert ([y] + b)[i] == b[i - 1] && ([x] + a)[i] == a[i - 1];
      }
    }
  }

  /** The records are exactly the stock each entry lost, entry by entry in list order. */
  lemma {:induction false} GreedyRecordsAreLosses(inv: seq<InventoryItem>, q: Query, needed: int, src: Source)
    ensures var r := Greedy(inv, q, needed, src);
      r.used == Losses(inv, r.inventory, q.category, src)
    decreases |inv|
  {
    if inv == [] || needed <= 0 {
      LossesNone(inv, q.category, src);
    } else {
      var it, take := inv[0], GreedyTake(inv, q, needed);
      GreedyHead(inv, q, needed, src);
      GreedyRecordsAreLosses(inv[1..], q, needed - take, src);
      var rest := Greedy(inv[1..], q, needed - take, src);
      ConsSplit(inv);
      LossesCons(it, it.(servings := it.servings - take), inv[1..], rest.inventory, q.category, src);
    }
  }

  /** What the walk takes from the first entry: its stock up to what is needed if it
      matches and has stock, nothing otherwise. */
  function GreedyTake(inv: seq<InventoryItem>, q: Query, needed: int): (take: int)
    requires inv != [] && needed > 0
    ensures 0 <= take <= needed && take <= if inv[0].servings > 0 then inv[0].servings else 0
    ensures take > 0 <==> Matches(inv[0], q) && inv[0].servings > 0
  {
    if Matches(inv[0], q) && inv[0].servings > 0 then Min(inv[0].servings, needed) else 0
  }

  /** One step of the walk: the first entry gives up `GreedyTake`, recorded if positive,
      and the walk goes on over the rest for what is still needed. */
  lemma GreedyHead(inv: seq<InventoryItem>, q: Query, needed: int, src: Source)
    requires inv != [] && needed > 0
    ensures var take := GreedyTake(inv, q, needed);
      var r, rest := Greedy(inv, q, needed, src), Greedy(inv[1..], q, needed - take, src);
      r.inventory == [inv[0].(servings := inv[0].servings - take)] + rest.inventory &&
      r.remaining == rest.remaining &&
      r.used == (if take > 0 then [AllocationRecord(inv[0].itemName, q.category, take, src)] else []) + rest.used
  {
  }

  lemma ConsSplit<T>(s: seq<T>)
    requires s != []
    ensures s[0..] == s == [s[0]] + s[1..]
  {
  }

  /** One entry in front adds its own loss, if any, in front of the rest's. */
  lemma LossesCons(x: InventoryItem, y: InventoryItem, a: seq<InventoryItem>, b: seq<InventoryItem>, cat: Category, src: Source)
    requires |a| == |b|
    ensures Losses([x] + a, [y] + b, cat, src) ==
      (if y.servings != x.servings then [AllocationRecord(x.itemName, cat, x.servings - y.servings, src)] else []) +
      Losses(a, b, cat, src)
  {
    assert ([x] + a)[1..] == a && ([y] + b)[1..] == b;
  }

  lemma {:induction false} LossesNone(inv: seq<InventoryItem>, cat: Category, src: Source)
    ensures Losses(inv, inv, cat, src) == []
  {
    if inv != [] {
      LossesNone(inv[1..], cat, src);
    }
  }

  /** Greedy exhaustion: when something is still needed, no matching entry has stock left. */
  lemma {:induction false} GreedyExhausts(inv: seq<InventoryItem>, q: Query, needed: int, src: Source)
    ensures var r := Greedy(inv, q, needed, src);
      r.remaining > 0 ==>
        forall i :: 0 <= i < |inv| && Matches(r.inventory[i], q) ==> r.inventory[i].servings <= 0
    decreases |inv|
  {
    if inv != [] && needed > 0 {
      var it := inv[0];
      var r := Greedy(inv, q, needed, src);
      ConsSplit(inv);
      var left := needed;
      if Matches(it, q) && it.servings > 0 {
        GreedyAtTake(inv, 0, q, needed, src);
        left := needed - Min(it.servings, needed);
      } else {
        GreedyAtSkip(inv, 0, q, needed, src);
      }
      GreedyExhausts(inv[1..], q, left, src);
      var rest := Greedy(inv[1..], q, left, src);
      assert r.inventory[1..] == rest.inventory;
      forall i | 0 <= i < |inv| && r.remaining > 0 && Matches(r.inventory[i], q)
        ensures r.inventory[i].servings <= 0
      {
        if i > 0 {
          assert r.inventory[i] == rest.inventory[i - 1];
        }
      }
    }
  }

  /** Conservation: the records hand out what was asked less what is still needed, and
      exactly what the list lost in total. */
  lemma {:induction false} GreedyTotal(inv: seq<InventoryItem>, q: Query, needed: int, src: Source)
    ensures var r := Greedy(inv, q, needed, src);
      Sum(r.used) + r.remaining == needed && Sum(r.used) == Total(inv) - Total(r.inventory)
    decreases |inv|
  {
    if inv != [] && needed > 0 {
      var it, take := inv[0], GreedyTake(inv, q, needed);
      ConsSplit(inv);
      TotalCons(it, inv[1..]);
      GreedyHead(inv, q, needed, src);
      GreedyTotal(inv[1..], q, needed - take, src);
      var rest := Greedy(inv[1..], q, needed - take, src);
      TotalCons(it.(servings := it.servings - take), rest.inventory);
      if take > 0 {
        SumCons(AllocationRecord(it.itemName, q.category, take, src), rest.used);
      } else {
        assert [] + rest.used == rest.used;
      }
    }
  }

  /** Some entry can serve the request: it matches and has stock. */
  ghost predicate Serves(inv: seq<InventoryItem>, q: Query) {
    exists i :: 0 <= i < |inv| && Matches(inv[i], q) && inv[i].servings > 0
  }

  /** One serving asked for: it is found exactly when some matching entry has stock, and
      then the walk makes a single record of one serving of a matching entry; otherwise it
      records nothing and leaves the list as it was. */
  lemma {:induction false} GreedyOne(inv: seq<InventoryItem>, q: Query, src: Source)
    ensures var r := Greedy(inv, q, 1, src);
      (r.remaining == 0 <==> Serves(inv, q)) &&
      (r.remaining == 0 ==> |r.used| == 1 && RecordFits(r.used[0], q, 1, src)) &&
      (r.remaining != 0 ==> r.remaining == 1 && r.used == [] && r.inventory == inv)
    decreases |inv|
  {
    if inv != [] {
      var it := inv[0];
      GreedyHead(inv, q, 1, src);
      if Matches(it, q) && it.servings > 0 {
        assert Matches(inv[0], q) && inv[0].servings > 0;
      } else {
        ConsSplit(inv);
        GreedyOne(inv[1..], q, src);
        if Serves(inv, q) {
          var i :| 0 <= i < |inv| && Matches(inv[i], q) && inv[i].servings > 0;
          assert inv[1..][i - 1] == inv[i];
        }
        if Serves(inv[1..], q) {
          var i :| 0 <= i < |inv[1..]| && Matches(inv[1..][i], q) && inv[1..][i].servings > 0;
          assert inv[i + 1] == inv[1..][i];
        }
      }
    }
  }

  // ---------------------------------------------------------------- misc by priority

  /** The misc branch of `allocate_category`: ask for each name in turn, stopping as soon
      as nothing more is needed. */
  function MiscScan(names: seq<string>, inv: seq<InventoryItem>, needed: int): (r: Allocation)
    ensures |r.inventory| == |inv|
    ensures needed <= 0 ==> r == Allocation([], needed, inv)
    ensures needed > 0 ==> 0 <= r.remaining <= needed
  {
    if names == [] then Allocation([], needed, inv)
    else
      var g := Greedy(inv, ByName(names[0], Misc), needed, Main);
      if g.remaining <= 0 then g
      else
        var rest := MiscScan(names[1..], g.inventory, g.remaining);
        Allocation(g.used + rest.used, rest.remaining, rest.inventory)
  }

  /** No two names of the list share a key. */
  ghost predicate DistinctKeys(names: seq<string>) {
    forall p, q :: 0 <= p < q < |names| ==> Key(names[p]) != Key(names[q])
  }

  /** The position of `name` in the list, by key; the list's length when absent. */
  function KeyIndex(names: seq<string>, name: string): (p: nat)
    ensures p <= |names|
    ensures p < |names| ==> Key(names[p]) == Key(name)
    ensures forall k :: 0 <= k < p ==> Key(names[k]) != Key(name)
  {
    if names == [] then 0
    else if Key(names[0]) == Key(name) then 0
    else 1 + KeyIndex(names[1..], name)
  }

  lemma NamedShift(names: seq<string>, name: string)
    requires names != []
    ensures Named(names, name) <==> Key(names[0]) == Key(name) || Named(names[1..], name)
  {
    if Named(names, name) && Key(names[0]) != Key(name) {
      var p :| 0 <= p < |names| && Key(names[p]) == Key(name);
      assert names[1..][p - 1] == names[p];
    }
    if Named(names[1..], name) {
      var p :| 0 <= p < |names| - 1 && Key(names[1..][p]) == Key(name);
      assert names[p + 1] == names[1..][p];
    }
  }

  /** The four priority names have four different keys (they differ in length). */
  lemma MiscPriorityDistinct()
    ensures DistinctKeys(MiscPriority)
  {
    KeyKeepsLength(MiscPriority[0]);
    KeyKeepsLength(MiscPriority[1]);
    KeyKeepsLength(MiscPriority[2]);
    KeyKeepsLength(MiscPriority[3]);
  }

  /** A name with no whitespace at either end keeps its length as a key. */
  lemma KeyKeepsLength(s: string)
    requires s != [] && !IsSpace(s[0]) && !IsSpace(s[|s| - 1])
    ensures |Key(s)| == |s|
  {
    assert TrimStart(s) == s;
    assert TrimEnd(s) == s;
  }

  /** Every misc record takes a positive amount no larger than what was asked, is tagged
      main, and names one of the priority names. */
  lemma {:induction false} MiscScanRecords(names: seq<string>, inv: seq<InventoryItem>, needed: int)
    ensures forall k :: 0 <= k < |MiscScan(names, inv, needed).used| ==>
      MiscRecordFits(MiscScan(names, inv, needed).used[k], names, needed)
  {
    if names != [] {
      var g := Greedy(inv, ByName(names[0], Misc), needed, Main);
      GreedyRecords(inv, ByName(names[0], Misc), needed, Main);
      var used := MiscScan(names, inv, needed).used;
      if g.remaining > 0 {
        var rest := MiscScan(names[1..], g.inventory, g.remaining).used;
        MiscScanRecords(names[1..], g.inventory, g.remaining);
        assert used == g.used + rest;
        forall k | 0 <= k < |used| ensures MiscRecordFits(used[k], names, needed) {
          NamedShift(names, used[k].itemName);
          if k < |g.used| {
            assert used[k] == g.used[k];
            assert RecordFits(g.used[k], ByName(names[0], Misc), needed, Main);
          } else {
            assert used[k] == rest[k - |g.used|];
            assert MiscRecordFits(rest[k - |g.used|], names[1..], g.remaining);
          }
        }
      } else {
        forall k | 0 <= k < |used| ensures MiscRecordFits(used[k], names, needed) {
          NamedShift(names, used[k].itemName);
          assert RecordFits(g.used[k], ByName(names[0], Misc), needed, Main);
        }
      }
    }
  }

  /** A misc record of a request for `needed` servings over the priority list `names`. */
  ghost predicate MiscRecordFits(rec: AllocationRecord, names: seq<string>, needed: int) {
    0 < rec.servingsUsed <= needed && rec.source == Main && rec.category == Misc && Named(names, rec.itemName)
  }

  /** Misc priority order: a record of an earlier priority name never follows one of a
      later name (all "Salt/Pepper" before any "Sugar", and so on). */
  lemma {:induction false} MiscScanOrdered(names: seq<string>, inv: seq<InventoryItem>, needed: int)
    requires DistinctKeys(names)
    ensures InPriorityOrder(names, MiscScan(names, inv, needed).used)
  {
    if names != [] {
      var g := Greedy(inv, ByName(names[0], Misc), needed, Main);
      GreedyRecords(inv, ByName(names[0], Misc), needed, Main);
      forall k | 0 <= k < |g.used| ensures KeyIndex(names, g.used[k].itemName) == 0 {
        assert RecordFits(g.used[k], ByName(names[0], Misc), needed, Main);
      }
      if g.remaining > 0 {
        var rest := MiscScan(names[1..], g.inventory, g.remaining).used;
        DistinctKeysTail(names);
        MiscScanOrdered(names[1..], g.inventory, g.remaining);
        MiscScanRecords(names[1..], g.inventory, g.remaining);
        forall k | 0 <= k < |rest| ensures Named(names[1..], rest[k].itemName) {
          assert MiscRecordFits(rest[k], names[1..], g.remaining);
        }
        OrderShift(names, rest);
        OrderConcat(names, g.used, rest);
        assert MiscScan(names, inv, needed).used == g.used + rest;
      } else {
        assert MiscScan(names, inv, needed).used == g.used;
      }
    }
  }

  lemma DistinctKeysTail(names: seq<string>)
    requires names != [] && DistinctKeys(names)
    ensures DistinctKeys(names[1..])
  {
    forall p, q | 0 <= p < q < |names| - 1 ensures Key(names[1..][p]) != Key(names[1..][q]) {
      assert names[1..][p] == names[p + 1] && names[1..][q] == names[q + 1];
    }
  }

  /** With distinct keys, a name of the tail sits one further along in the whole list. */
  lemma OrderShift(names: seq<string>, b: seq<AllocationRecord>)
    requires names != [] && DistinctKeys(names) && InPriorityOrder(names[1..], b)
    requires forall k :: 0 <= k < |b| ==> Named(names[1..], b[k].itemName)
    ensures InPriorityOrder(names, b)
  {
    forall k | 0 <= k < |b| ensures KeyIndex(names, b[k].itemName) == 1 + KeyIndex(names[1..], b[k].itemName) {
      var p :| 0 <= p < |names[1..]| && Key(names[1..][p]) == Key(b[k].itemName);
      assert names[1..][p] == names[p + 1];
      assert Key(names[0]) != Key(names[p + 1]);
    }
  }

  /** Records all of the first name, followed by records in order, are in order. */
  lemma OrderConcat(names: seq<string>, a: seq<AllocationRecord>, b: seq<AllocationRecord>)
    requires forall k :: 0 <= k < |a| ==> KeyIndex(names, a[k].itemName) == 0
    requires InPriorityOrder(names, b)
    ensures InPriorityOrder(names, a + b)
  {
    var ab := a + b;
    forall j, k | 0 <= j < k < |ab| ensures KeyIndex(names, ab[j].itemName) <= KeyIndex(names, ab[k].itemName) {
      if k < |a| {
        assert ab[j] == a[j] && ab[k] == a[k];
      } else if j < |a| {
        assert ab[j] == a[j];
      } else {
        assert ab[j] == b[j - |a|] && ab[k] == b[k - |a|];
      }
    }
  }

  /** The records' names never go back to an earlier position of `names`. */
  ghost predicate InPriorityOrder(names: seq<string>, used: seq<AllocationRecord>) {
    forall j, k :: 0 <= j < k < |used| ==> KeyIndex(names, used[j].itemName) <= KeyIndex(names, used[k].itemName)
  }

  /** Only misc entries named in the list, with positive stock, change; a misc item not in
      the list is never consumed. */
  lemma {:induction false} MiscScanFrame(names: seq<string>, inv: seq<InventoryItem>, needed: int)
    ensures var r := MiscScan(names, inv, needed);
      Depletes(inv, r.inventory) &&
      forall i :: 0 <= i < |inv| && r.inventory[i] != inv[i] ==>
        inv[i].category == Misc && Named(names, inv[i].itemName) && inv[i].servings > 0
  {
    if names != [] {
      var g := Greedy(inv, ByName(names[0], Misc), needed, Main);
      GreedyFrame(inv, ByName(names[0], Misc), needed, Main);
      forall i | 0 <= i < |inv| && g.inventory[i] != inv[i] ensures Named(names, inv[i].itemName) {
        NamedShift(names, inv[i].itemName);
      }
      if g.remaining > 0 {
        MiscScanFrame(names[1..], g.inventory, g.remaining);
        var r := MiscScan(names, inv, needed);
        DepletesTransitive(inv, g.inventory, r.inventory);
        forall i | 0 <= i < |inv| && r.inventory[i] != inv[i]
          ensures inv[i].category == Misc && Named(names, inv[i].itemName) && inv[i].servings > 0
        {
          NamedShift(names, inv[i].itemName);
        }
      }
    }
  }

  /** Exhaustion for misc: when something is still needed, every misc entry named in the
      list has no stock left. */
  lemma {:induction false} MiscScanExhausts(names: seq<string>, inv: seq<InventoryItem>, needed: int)
    ensures MiscScan(names, inv, needed).remaining > 0 ==>
      forall i :: 0 <= i < |inv| && MiscCovers(MiscScan(names, inv, needed).inventory[i], names) ==>
        MiscScan(names, inv, needed).inventory[i].servings <= 0
  {
    if names != [] {
      var g := Greedy(inv, ByName(names[0], Misc), needed, Main);
      var r := MiscScan(names, inv, needed);
      if g.remaining > 0 && r.remaining > 0 {
        GreedyExhausts(inv, ByName(names[0], Misc), needed, Main);
        MiscScanExhausts(names[1..], g.inventory, g.remaining);
        MiscScanFrame(names[1..], g.inventory, g.remaining);
        forall i | 0 <= i < |inv| && MiscCovers(r.inventory[i], names) ensures r.inventory[i].servings <= 0 {
          NamedShift(names, r.inventory[i].itemName);
          if Key(names[0]) == Key(r.inventory[i].itemName) {
            assert Matches(g.inventory[i], ByName(names[0], Misc));
          } else {
            assert MiscCovers(r.inventory[i], names[1..]);
          }
        }
      }
    }
  }

  /** A misc entry named in `names`. */
  ghost predicate MiscCovers(it: InventoryItem, names: seq<string>) {
    it.category == Misc && Named(names, it.itemName)
  }

  lemma {:induction false} MiscScanTotal(names: seq<string>, inv: seq<InventoryItem>, needed: int)
    ensures var r := MiscScan(names, inv, needed);
      Sum(r.used) + r.remaining == needed && Sum(r.used) == Total(inv) - Total(r.inventory)
  {
    if names != [] {
      var g := Greedy(inv, ByName(names[0], Misc), needed, Main);
      GreedyTotal(inv, ByName(names[0], Misc), needed, Main);
      if g.remaining > 0 {
        var rest := MiscScan(names[1..], g.inventory, g.remaining);
        MiscScanTotal(names[1..], g.inventory, g.remaining);
        SumConcat(g.used, rest.used);
      }
    }
  }

  /** One step of the scan, at position `k` of the name list. */
  lemma MiscScanAt(names: seq<string>, k: nat, inv: seq<InventoryItem>, needed: int)
    requires k < |names|
    ensures var g := Greedy(inv, ByName(names[k], Misc), needed, Main);
      var rest := MiscScan(names[k + 1..], g.inventory, g.remaining);
      MiscScan(names[k..], inv, needed) ==
        if g.remaining <= 0 then g else Allocation(g.used + rest.used, rest.remaining, rest.inventory)
  {
    assert names[k..][0] == names[k];
    assert names[k..][1..] == names[k + 1..];
  }

  // ---------------------------------------------------------------- allocate_category

  /** `allocate_category`: a greedy walk over the category, or the misc priority scan. */
  function CategoryAllocation(inv: seq<InventoryItem>, cat: Category, needed: int): (r: Allocation)
    ensures |r.inventory| == |inv|
    ensures needed <= 0 ==> r == Allocation([], needed, inv)
    ensures needed > 0 ==> 0 <= r.remaining <= needed
  {
    if cat != Misc then Greedy(inv, ByCategory(cat), needed, Main)
    else MiscScan(MiscPriority, inv, needed)
  }

  /** Records: positive, at most `needed`, tagged main, of the requested category, and for
      misc in priority order. The list: only entries the category may draw on, with positive
      stock, change; stock handed out equals stock lost; and when something is still needed
      the category has no stock left to give. */
  lemma CategoryAllocationSound(inv: seq<InventoryItem>, cat: Category, needed: int)
    ensures var r := CategoryAllocation(inv, cat, needed);
      (forall k :: 0 <= k < |r.used| ==>
        0 < r.used[k].servingsUsed <= needed && r.used[k].source == Main && r.used[k].category == cat) &&
      (cat == Misc ==> forall j, k :: 0 <= j < k < |r.used| ==>
        KeyIndex(MiscPriority, r.used[j].itemName) <= KeyIndex(MiscPriority, r.used[k].itemName)) &&
      Depletes(inv, r.inventory) &&
      (forall i :: 0 <= i < |inv| && r.inventory[i] != inv[i] ==> Covers(inv[i], cat) && inv[i].servings > 0) &&
      Sum(r.used) + r.remaining == needed && Sum(r.used) == Total(inv) - Total(r.inventory) &&
      (r.remaining > 0 ==> Exhausted(r.inventory, cat))
  {
    var r := CategoryAllocation(inv, cat, needed);
    if cat != Misc {
      GreedyRecords(inv, ByCategory(cat), needed, Main);
      GreedyFrame(inv, ByCategory(cat), needed, Main);
      GreedyTotal(inv, ByCategory(cat), needed, Main);
      GreedyExhausts(inv, ByCategory(cat), needed, Main);
    } else {
      MiscScanRecords(MiscPriority, inv, needed);
      MiscPriorityDistinct();
      MiscScanOrdered(MiscPriority, inv, needed);
      MiscScanFrame(MiscPriority, inv, needed);
      MiscScanTotal(MiscPriority, inv, needed);
      MiscScanExhausts(MiscPriority, inv, needed);
    }
  }

  /** The whole allocation while the loop is at position `i`: the records made so far and
      the entries already passed, then the walk over the entries not yet visited. */
  function Resume(used: seq<AllocationRecord>, done: seq<InventoryItem>, rest: Allocation): Allocation {
    Allocation(used + rest.used, rest.remaining, done + rest.inventory)
  }

  /** Before the first pass nothing is recorded or passed, and the walk ahead is the whole walk. */
  lemma ResumeStart(inv: seq<InventoryItem>, q: Query, needed: int, src: Source)
    ensures Resume([], inv[..0], Greedy(inv[0..], q, needed, src)) == Greedy(inv, q, needed, src)
  {
    assert inv[..0] == [] && inv[0..] == inv;
    var g := Greedy(inv, q, needed, src);
    assert [] + g.used == g.used && [] + g.inventory == g.inventory;
  }

  /** When the loop stops, at the end of the list or with nothing more needed, the walk
      ahead adds nothing. */
  lemma ResumeDone(used: seq<AllocationRecord>, inv: seq<InventoryItem>, i: nat, q: Query, needed: int, src: Source)
    requires i <= |inv| && (i == |inv| || needed <= 0)
    ensures Resume(used, inv[..i], Greedy(inv[i..], q, needed, src)) == Allocation(used, needed, inv)
  {
    assert inv[..i] + inv[i..] == inv;
    assert used + [] == used;
  }

  /** One pass of the loop where the entry at `i` is taken from: its record joins those
      made so far and its decremented stock joins the entries passed. */
  lemma ResumeTakes(used: seq<AllocationRecord>, inv: seq<InventoryItem>, i: nat, q: Query, needed: int, src: Source)
    requires i < |inv| && needed > 0 && Matches(inv[i], q) && inv[i].servings > 0
    ensures var take := Min(inv[i].servings, needed);
      var inv' := inv[i := inv[i].(servings := inv[i].servings - take)];
      Resume(used, inv[..i], Greedy(inv[i..], q, needed, src)) ==
        Resume(used + [AllocationRecord(inv[i].itemName, q.category, take, src)], inv'[..i + 1],
               Greedy(inv'[i + 1..], q, needed - take, src))
  {
    var take := Min(inv[i].servings, needed);
    var left := inv[i].(servings := inv[i].servings - take);
    var record := AllocationRecord(inv[i].itemName, q.category, take, src);
    GreedyAtTake(inv, i, q, needed, src);
    var g := Greedy(inv[i + 1..], q, needed - take, src);
    assert Greedy(inv[i..], q, needed, src) == Allocation([record] + g.used, g.remaining, [left] + g.inventory);
    UpdateSlices(inv, i, left);
    ResumeShift(used, inv[..i], record, left, g);
  }

  /** Replacing the element at `i` changes the prefix up to `i` by its last element only,
      and leaves the suffix after `i` alone. */
  lemma UpdateSlices<T>(s: seq<T>, i: nat, x: T)
    requires i < |s|
    ensures s[i := x][i + 1..] == s[i + 1..]
    ensures s[i := x][..i + 1] == s[..i] + [x]
  {
  }

  /** Moving one record and one entry from the walk ahead to the part already done. */
  lemma ResumeShift(used: seq<AllocationRecord>, done: seq<InventoryItem>, record: AllocationRecord,
                    left: InventoryItem, g: Allocation)
    ensures Resume(used, done, Allocation([record] + g.used, g.remaining, [left] + g.inventory)) ==
      Resume(used + [record], done + [left], g)
  {
    assert used + ([record] + g.used) == (used + [record]) + g.used;
    assert done + ([left] + g.inventory) == (done + [left]) + g.inventory;
  }

  /** One pass of the loop where the entry at `i` is passed over. */
  lemma ResumeSkips(used: seq<AllocationRecord>, inv: seq<InventoryItem>, i: nat, q: Query, needed: int, src: Source)
    requires i < |inv| && needed > 0 && !(Matches(inv[i], q) && inv[i].servings > 0)
    ensures Resume(used, inv[..i], Greedy(inv[i..], q, needed, src)) ==
      Resume(used, inv[..i + 1], Greedy(inv[i + 1..], q, needed, src))
  {
    GreedyAtSkip(inv, i, q, needed, src);
    var g := Greedy(inv[i + 1..], q, needed, src);
    assert inv[..i + 1] == inv[..i] + [inv[i]];
    assert inv[..i] + ([inv[i]] + g.inventory) == (inv[..i] + [inv[i]]) + g.inventory;
  }

  /** One step of the walk at position `i`, where that entry is taken from. */
  lemma GreedyAtTake(inv: seq<InventoryItem>, i: nat, q: Query, needed: int, src: Source)
    requires i < |inv| && needed > 0 && Matches(inv[i], q) && inv[i].servings > 0
    ensures Greedy(inv[i..], q, needed, src).used ==
      [AllocationRecord(inv[i].itemName, q.category, Min(inv[i].servings, needed), src)] +
      Greedy(inv[i + 1..], q, needed - Min(inv[i].servings, needed), src).used
    ensures Greedy(inv[i..], q, needed, src).remaining ==
      Greedy(inv[i + 1..], q, needed - Min(inv[i].servings, needed), src).remaining
    ensures Greedy(inv[i..], q, needed, src).inventory ==
      [inv[i].(servings := inv[i].servings - Min(inv[i].servings, needed))] +
      Greedy(inv[i + 1..], q, needed - Min(inv[i].servings, needed), src).inventory
  {
    assert inv[i..][0] == inv[i];
    assert inv[i..][1..] == inv[i + 1..];
  }

  /** One step of the walk at position `i`, where that entry is passed over. */
  lemma GreedyAtSkip(inv: seq<InventoryItem>, i: nat, q: Query, needed: int, src: Source)
    requires i < |inv| && needed > 0 && !(Matches(inv[i], q) && inv[i].servings > 0)
    ensures Greedy(inv[i..], q, needed, src).used == Greedy(inv[i + 1..], q, needed, src).used
    ensures Greedy(inv[i..], q, needed, src).remaining == Greedy(inv[i + 1..], q, needed, src).remaining
    ensures Greedy(inv[i..], q, needed, src).inventory == [inv[i]] + Greedy(inv[i + 1..], q, needed, src).inventory
  {
    assert inv[i..][0] == inv[i];
    assert inv[i..][1..] == inv[i + 1..];
  }

  // ---------------------------------------------------------------- the mutable list

  /** An inventory list whose entries' stock is decremented in place. */
  class Ledger {
    var items: seq<InventoryItem>

    constructor (items: seq<InventoryItem>)
      ensures this.items == items
    {
      this.items := items;
    }

    /** The greedy loop shared by `allocate_specific_item`, the non-misc branch of
        `allocate_category` and the box loop of `allocate_senior_category`. */
    method Take(q: Query, needed: int, src: Source) returns (used: seq<AllocationRecord>, remaining: int)
      modifies this
      ensures Allocation(used, remaining, items) == Greedy(old(items), q, needed, src)
    {
      ghost var goal := Greedy(items, q, needed, src);
      used, remaining := [], needed;
      var i := 0;
      ResumeStart(items, q, needed, src);
      while i < |items|
        invariant 0 <= i <= |items|
        invariant goal == Resume(used, items[..i], Greedy(items[i..], q, remaining, src))
      {
        if remaining <= 0 {
          break;
        }
        used, remaining := Visit(i, q, used, remaining, src);
        i := i + 1;
      }
      ResumeDone(used, items, i, q, remaining, src);
    }

    /** One pass of the greedy loop: take `min(stock, needed)` from the entry at `i` when it
        matches and has stock, and record it. */
    method Visit(i: nat, q: Query, used: seq<AllocationRecord>, remaining: int, src: Source)
      returns (used': seq<AllocationRecord>, remaining': int)
      requires i < |items| && remaining > 0
      modifies this
      ensures |items| == |old(items)|
      ensures forall j :: 0 <= j < |items| && j != i ==> items[j] == old(items)[j]
      ensures Resume(used, old(items)[..i], Greedy(old(items)[i..], q, remaining, src)) ==
        Resume(used', items[..i + 1], Greedy(items[i + 1..], q, remaining', src))
    {
      var it := items[i];
      if Matches(it, q) && it.servings > 0 {
        var take := Min(it.servings, remaining);
        ResumeTakes(used, items, i, q, remaining, src);
        used' := used + [AllocationRecord(it.itemName, q.category, take, src)];
        items := items[i := it.(servings := it.servings - take)];
        remaining' := remaining - take;
      } else {
        ResumeSkips(used, items, i, q, remaining, src);
        used', remaining' := used, remaining;
      }
    }

    /** `allocate_specific_item` */
    method AllocateSpecificItem(name: string, category: Category, needed: int)
      returns (used: seq<AllocationRecord>, remaining: int)
      modifies this
      ensures Allocation(used, remaining, items) == Greedy(old(items), ByName(name, category), needed, Main)
    {
      used, remaining := Take(ByName(name, category), needed, Main);
    }

    /** `allocate_category` */
    method AllocateCategory(category: Category, needed: int) returns (used: seq<AllocationRecord>, remaining: int)
      modifies this
      ensures Allocation(used, remaining, items) == CategoryAllocation(old(items), category, needed)
    {
      if category != Misc {
        used, remaining := Take(ByCategory(category), needed, Main);
      } else {
        ghost var goal := MiscScan(MiscPriority, items, needed);
        used, remaining := [], needed;
        var k := 0;
        while k < |MiscPriority|
          invariant 0 <= k <= |MiscPriority|
          invariant used + MiscScan(MiscPriority[k..], items, remaining).used == goal.used
          invariant MiscScan(MiscPriority[k..], items, remaining).remaining == goal.remaining
          invariant MiscScan(MiscPriority[k..], items, remaining).inventory == goal.inventory
        {
          MiscScanAt(MiscPriority, k, items, remaining);
          var u;
          u, remaining := AllocateSpecificItem(MiscPriority[k], category, remaining);
          used := used + u;
          if remaining <= 0 {
            break;
          }
          k := k + 1;
        }
      }
    }
  }
}
