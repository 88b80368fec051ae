/** `handleAutoGenerateBudget`: fill the selected month's budgets in two passes
    over the store. Pass 1 carries the previous month's budgets forward for the
    categories the pre-run list lacks; pass 2 adds a budget seeded with last
    month's spend for every eligible category the pre-run list lacks, counting
    created and skipped categories. */
module AutoGenerate {
  import opened BudgetTypes
  import opened PeriodKey
  import opened CategoryFilter
  import opened Spending
  import opened Store

  /** `toImport`: the prior month's budgets whose category is not among `preIds`. */
  function ImportList(prev: seq<Budget>, preIds: set<int>): (r: seq<Budget>)
    ensures |r| <= |prev|
    ensures forall b :: b in r <==> b in prev && b.categoryId !in preIds
  {
    if prev == [] then []
    else
      var last := prev[|prev| - 1];
      ImportList(prev[..|prev| - 1], preIds) + (if last.categoryId !in preIds then [last] else [])
  }

  /** A prior-month budget carried into month `key`: same category, amount and notes. */
  function Carried(b: Budget, key: string): Budget
  {
    Budget(b.categoryId, b.amount, key, b.notes)
  }

  function Retagged(bs: seq<Budget>, key: string): seq<Budget>
  {
    seq(|bs|, i requires 0 <= i < |bs| => Carried(bs[i], key))
  }

  /** What pass 1 appends, in the order of the prior month's list. */
  function CarryForward(prev: seq<Budget>, preIds: set<int>, key: string): seq<Budget>
  {
    Retagged(ImportList(prev, preIds), key)
  }

  /** A spend-seeded budget: last month's summed `|amount|` for the category, empty notes. */
  function Seeded(c: Category, ts: seq<Transaction>, prevKey: string, key: string): Budget
  {
    Budget(c.id, CategorySpend(ts, prevKey, c.id), key, Some(""))
  }

  /** What pass 2 appends, in the order of the eligible list. */
  function SeedFill(eligible: seq<Category>, preIds: set<int>, ts: seq<Transaction>, prevKey: string, key: string): (r: seq<Budget>)
    ensures |r| <= |eligible|
  {
    if eligible == [] then []
    else
      var last := eligible[|eligible| - 1];
      SeedFill(eligible[..|eligible| - 1], preIds, ts, prevKey, key)
        + (if last.id in preIds then [] else [Seeded(last, ts, prevKey, key)])
  }

  /** Pass 2's `skippedCount`: eligible categories already among `preIds`. */
  function SkippedCount(eligible: seq<Category>, preIds: set<int>): (r: nat)
    ensures r <= |eligible|
  {
    if eligible == [] then 0
    else
      SkippedCount(eligible[..|eligible| - 1], preIds) + (if eligible[|eligible| - 1].id in preIds then 1 else 0)
  }

  /** `budgetMap`: the pre-run budgets keyed by category; it has a key exactly
      for each category the list covers, and maps it to one of its budgets. */
  function IndexByCategory(bs: seq<Budget>): (m: map<int, Budget>)
    ensures m.Keys == CategoryIds(bs)
    ensures forall id :: id in m ==> m[id] in bs && m[id].categoryId == id
  {
    if bs == [] then map[]
    else
      var init, last := bs[..|bs| - 1], bs[|bs| - 1];
      CategoryIdsAppend(init, [last]);
      assert bs == init + [last];
      IndexByCategory(init)[last.categoryId := last]
  }

  /** As `new Map(entries)` does, a later entry overwrites an earlier one:
      `budgetMap` holds the last budget of each category in the list. */
  lemma {:induction false} IndexKeepsLast(bs: seq<Budget>, i: int)
    requires 0 <= i < |bs|
    requires forall j :: i < j < |bs| ==> bs[j].categoryId != bs[i].categoryId
    ensures IndexByCategory(bs)[bs[i].categoryId] == bs[i]
    decreases |bs|
  {
    var init, last := bs[..|bs| - 1], bs[|bs| - 1];
    assert bs == init + [last];
    if i < |init| {
      assert bs[i] == init[i];
      assert forall j :: i < j < |init| ==> init[j] == bs[j];
      IndexKeepsLast(init, i);
      IndexUpdate(init, last, bs[i].categoryId);
    } else {
      IndexUpdate(init, last, last.categoryId);
    }
  }

  /** One step of `new Map(entries)`: the last entry only changes its own key. */
  lemma IndexUpdate(init: seq<Budget>, last: Budget, id: int)
    requires id == last.categoryId || id in IndexByCategory(init)
    ensures var bs := init + [last];
            && id in IndexByCategory(bs)
            && IndexByCategory(bs)[id] == (if id == last.categoryId then last else IndexByCategory(init)[id])
  {
    var bs := init + [last];
    assert bs[..|bs| - 1] == init;
  }

  /** Pass 1 (the `toImport` loop): append, one `add_budget` at a time, each
      prior-month budget whose category is not among `preIds`, re-tagged for `key`. */
  method CarryForwardPass(store: BudgetStore, prevBudgets: seq<Budget>, preIds: set<int>, key: string)
    modifies store
    ensures store.records == old(store.records) + CarryForward(prevBudgets, preIds, key)
  {
    if |prevBudgets| > 0 {
      var toImport := ImportList(prevBudgets, preIds);
      if |toImport| > 0 {
        var i := 0;
        while i < |toImport|
          invariant 0 <= i <= |toImport|
          invariant store.records == old(store.records) + Retagged(toImport[..i], key)
        {
          var b := toImport[i];
          store.AddBudget(b.categoryId, b.amount, key, b.notes);
          assert Retagged(toImport[..i + 1], key) == Retagged(toImport[..i], key) + [Carried(b, key)];
          i := i + 1;
        }
        assert toImport[..i] == toImport;
      }
    }
  }

  /** Pass 2 (the loop over `eligibleCategories`): skip a category that
      `budgetMap` has, otherwise append a budget seeded from `spending`. */
  method SeedFillPass(store: BudgetStore, eligible: seq<Category>, budgets: seq<Budget>,
                      spending: map<int, int>, ghost ts: seq<Transaction>, prevKey: string, key: string)
    returns (created: nat, skipped: nat)
    requires forall cid :: SeedAmount(spending, cid) == CategorySpend(ts, prevKey, cid)
    modifies store
    ensures store.records == old(store.records) + SeedFill(eligible, CategoryIds(budgets), ts, prevKey, key)
    ensures created == |SeedFill(eligible, CategoryIds(budgets), ts, prevKey, key)|
    ensures skipped == SkippedCount(eligible, CategoryIds(budgets))
  {
    var budgetMap := IndexByCategory(budgets);
    ghost var ids := CategoryIds(budgets);
    created, skipped := 0, 0;
    var j := 0;
    while j < |eligible|
      invariant 0 <= j <= |eligible|
      invariant store.records == old(store.records) + SeedFill(eligible[..j], ids, ts, prevKey, key)
      invariant created == |SeedFill(eligible[..j], ids, ts, prevKey, key)|
      invariant skipped == SkippedCount(eligible[..j], ids)
    {
      var category := eligible[j];
      var categoryId := category.id;
      var amount := SeedAmount(spending, categoryId);
      assert eligible[..j + 1][..j] == eligible[..j];
      if categoryId in budgetMap {
        skipped := skipped + 1;
      } else {
        store.AddBudget(categoryId, amount, key, Some(""));
        created := created + 1;
      }
      j := j + 1;
    }
    assert eligible[..j] == eligible;
  }

  /** The auto-generate handler over the store. `budgets` is the screen's list
      captured when the handler started; `transactions` and `categories` are the
      loaded transaction list and the category catalog. */
  method Run(store: BudgetStore, year: nat, month: nat, budgets: seq<Budget>,
             transactions: seq<Transaction>, categories: seq<Category>)
    returns (created: nat, skipped: nat, finalBudgets: seq<Budget>)
    requires year >= 1 && ValidMonth(month)
    modifies store
    ensures var key := Key(year, month);
            var p := Predecessor(year, month);
            var prevKey := Key(p.0, p.1);
            var ids := CategoryIds(budgets);
            var eligible := EligibleCategories(categories);
            && store.records == old(store.records)
                                + CarryForward(ForMonth(old(store.records), prevKey), ids, key)
                                + SeedFill(eligible, ids, transactions, prevKey, key)
            && created == |SeedFill(eligible, ids, transactions, prevKey, key)|
            && skipped == SkippedCount(eligible, ids)
            && finalBudgets == ForMonth(store.records, key)
  {
    var selectedMonth := Key(year, month);
    var prevYear, prevMonth := PreviousMonth(year, month);
    var prevMonthStr := Key(prevYear, prevMonth);
    var prevBudgets := store.GetBudgets(prevMonthStr);
    var existingCategories := CategoryIds(budgets);
    CarryForwardPass(store, prevBudgets, existingCategories, selectedMonth);
    // The refreshed list only updates the screen; pass 2 keeps reading `budgets`.
    var updatedBudgets := store.GetBudgets(selectedMonth);
    var spendingByCategory := SpendingByCategory(transactions, prevMonthStr);
    var eligibleCategories := EligibleCategories(categories);
    created, skipped := SeedFillPass(store, eligibleCategories, budgets, spendingByCategory,
                                     transactions, prevMonthStr, selectedMonth);
    finalBudgets := store.GetBudgets(selectedMonth);
  }

  // Properties of the two passes.

  /** Everything one run appends: pass 1's carried budgets, then pass 2's seeded ones. */
  function RunAppends(prev: seq<Budget>, eligible: seq<Category>, preIds: set<int>,
                      ts: seq<Transaction>, prevKey: string, key: string): seq<Budget>
  {
    CarryForward(prev, preIds, key) + SeedFill(eligible, preIds, ts, prevKey, key)
  }

  /** Pass 1 appends the carried copy of exactly those prior-month budgets
      whose category is not in the pre-run list, and nothing when the prior
      month has no budgets. */
  lemma CarryForwardMembership(prev: seq<Budget>, preIds: set<int>, key: string, x: Budget)
    ensures x in CarryForward(prev, preIds, key)
        <==> exists b :: b in prev && b.categoryId !in preIds && x == Carried(b, key)
    ensures prev == [] ==> CarryForward(prev, preIds, key) == []
  {
    var imports := ImportList(prev, preIds);
    var cf := CarryForward(prev, preIds, key);
    if x in cf {
      var i :| 0 <= i < |cf| && cf[i] == x;
      assert imports[i] in imports;
    }
    if exists b :: b in prev && b.categoryId !in preIds && x == Carried(b, key) {
      var b :| b in prev && b.categoryId !in preIds && x == Carried(b, key);
      var i :| 0 <= i < |imports| && imports[i] == b;
      assert cf[i] == x;
    }
  }

  /** Pass 2 appends the seeded budget of exactly those eligible categories
      whose id is not in the pre-run list. */
  lemma {:induction false} SeedFillMembership(eligible: seq<Category>, preIds: set<int>, ts: seq<Transaction>,
                                              prevKey: string, key: string, x: Budget)
    ensures x in SeedFill(eligible, preIds, ts, prevKey, key)
        <==> exists c :: c in eligible && c.id !in preIds && x == Seeded(c, ts, prevKey, key)
  {
    if eligible != [] {
      var init := eligible[..|eligible| - 1];
      SeedFillMembership(init, preIds, ts, prevKey, key, x);
      assert eligible == init + [eligible[|eligible| - 1]];
    }
  }

  /** Every eligible category is either created or skipped:
      `createdCount + skippedCount` is the number of eligible categories. */
  lemma {:induction false} CreatedPlusSkipped(eligible: seq<Category>, preIds: set<int>, ts: seq<Transaction>,
                                              prevKey: string, key: string)
    ensures |SeedFill(eligible, preIds, ts, prevKey, key)| + SkippedCount(eligible, preIds) == |eligible|
  {
    if eligible != [] {
      CreatedPlusSkipped(eligible[..|eligible| - 1], preIds, ts, prevKey, key);
    }
  }

  /** No budget either pass appends belongs to a category of the pre-run list,
      and every one is tagged with the target month. */
  lemma AppendsAvoidPreRun(prev: seq<Budget>, eligible: seq<Category>, preIds: set<int>,
                           ts: seq<Transaction>, prevKey: string, key: string)
    ensures forall i :: 0 <= i < |RunAppends(prev, eligible, preIds, ts, prevKey, key)| ==>
              RunAppends(prev, eligible, preIds, ts, prevKey, key)[i].categoryId !in preIds &&
              RunAppends(prev, eligible, preIds, ts, prevKey, key)[i].month == key
  {
    var cf := CarryForward(prev, preIds, key);
    var sf := SeedFill(eligible, preIds, ts, prevKey, key);
    var appended := RunAppends(prev, eligible, preIds, ts, prevKey, key);
    forall i | 0 <= i < |appended|
      ensures appended[i].categoryId !in preIds && appended[i].month == key
    {
      var x := appended[i];
      if i < |cf| {
        assert x in cf;
        CarryForwardMembership(prev, preIds, key, x);
      } else {
        assert x in sf;
        SeedFillMembership(eligible, preIds, ts, prevKey, key, x);
      }
    }
  }

  lemma {:induction false} ImportListEmpty(prev: seq<Budget>, preIds: set<int>, key: string)
    requires forall b :: b in prev ==> b.categoryId in preIds
    ensures ImportList(prev, preIds) == [] && CarryForward(prev, preIds, key) == []
  {
    if prev != [] {
      var init := prev[..|prev| - 1];
      assert forall b :: b in init ==> b in prev;
      ImportListEmpty(init, preIds, key);
      assert prev[|prev| - 1] in prev;
    }
  }

  lemma {:induction false} SeedFillEmpty(eligible: seq<Category>, preIds: set<int>, ts: seq<Transaction>,
                                         prevKey: string, key: string)
    requires forall c :: c in eligible ==> c.id in preIds
    ensures SeedFill(eligible, preIds, ts, prevKey, key) == []
    ensures SkippedCount(eligible, preIds) == |eligible|
  {
    if eligible != [] {
      var init := eligible[..|eligible| - 1];
      assert forall c :: c in init ==> c in eligible;
      SeedFillEmpty(init, preIds, ts, prevKey, key);
    }
  }

  /** Budgets appended for month `key` leave the store's other months as they were. */
  lemma AppendToMonth(records: seq<Budget>, appended: seq<Budget>, key: string, other: string)
    requires key != other
    requires forall i :: 0 <= i < |appended| ==> appended[i].month == key
    ensures ForMonth(records + appended, other) == ForMonth(records, other)
    ensures ForMonth(records + appended, key) == ForMonth(records, key) + appended
  {
    ForMonthUniform(appended, key);
    ForMonthUniform(appended, other);
    ForMonthAppend(records, appended, key);
    ForMonthAppend(records, appended, other);
    assert ForMonth(records, other) + [] == ForMonth(records, other);
  }

  /** After both passes, every prior-month category and every eligible category
      is covered by the pre-run list or by an appended budget. */
  lemma CoveredAfterRun(prev: seq<Budget>, eligible: seq<Category>, preIds: set<int>,
                        ts: seq<Transaction>, prevKey: string, key: string)
    ensures forall b :: b in prev ==> b.categoryId in preIds + CategoryIds(RunAppends(prev, eligible, preIds, ts, prevKey, key))
    ensures forall c :: c in eligible ==> c.id in preIds + CategoryIds(RunAppends(prev, eligible, preIds, ts, prevKey, key))
  {
    var cf := CarryForward(prev, preIds, key);
    var sf := SeedFill(eligible, preIds, ts, prevKey, key);
    var appended := RunAppends(prev, eligible, preIds, ts, prevKey, key);
    forall b | b in prev ensures b.categoryId in preIds + CategoryIds(appended) {
      if b.categoryId !in preIds {
        CarryForwardMembership(prev, preIds, key, Carried(b, key));
        var i :| 0 <= i < |cf| && cf[i] == Carried(b, key);
        assert appended[i] == cf[i];
      }
    }
    forall c | c in eligible ensures c.id in preIds + CategoryIds(appended) {
      if c.id !in preIds {
        SeedFillMembership(eligible, preIds, ts, prevKey, key, Seeded(c, ts, prevKey, key));
        var i :| 0 <= i < |sf| && sf[i] == Seeded(c, ts, prevKey, key);
        assert appended[|cf| + i] == sf[i];
      }
    }
  }

  /** A second run whose pre-run list is the target month of the store left by
      a completed first run (that itself started from a freshly loaded list)
      appends nothing: pass 1 finds every prior-month category covered, pass 2
      skips every eligible category. */
  lemma SecondRunAppendsNothing(records: seq<Budget>, year: nat, month: nat, categories: seq<Category>,
                                ts: seq<Transaction>, ts2: seq<Transaction>)
    requires year >= 1 && ValidMonth(month)
    ensures var key := Key(year, month);
            var p := Predecessor(year, month);
            var prevKey := Key(p.0, p.1);
            var eligible := EligibleCategories(categories);
            var ids := CategoryIds(ForMonth(records, key));
            var after := records + CarryForward(ForMonth(records, prevKey), ids, key)
                                 + SeedFill(eligible, ids, ts, prevKey, key);
            var ids2 := CategoryIds(ForMonth(after, key));
            && CarryForward(ForMonth(after, prevKey), ids2, key) == []
            && SeedFill(eligible, ids2, ts2, prevKey, key) == []
            && SkippedCount(eligible, ids2) == |eligible|
  {
    var key := Key(year, month);
    var p := Predecessor(year, month);
    var prevKey := Key(p.0, p.1);
    var eligible := EligibleCategories(categories);
    var pre := ForMonth(records, key);
    var ids := CategoryIds(pre);
    var prev := ForMonth(records, prevKey);
    var appended := RunAppends(prev, eligible, ids, ts, prevKey, key);
    var after := records + CarryForward(prev, ids, key) + SeedFill(eligible, ids, ts, prevKey, key);
    assert after == records + appended;

    AppendsAvoidPreRun(prev, eligible, ids, ts, prevKey, key);

    PredecessorKeyDiffers(year, month);
    AppendToMonth(records, appended, key, prevKey);
    CategoryIdsAppend(pre, appended);
    var ids2 := CategoryIds(ForMonth(after, key));
    assert ids2 == ids + CategoryIds(appended);
    CoveredAfterRun(prev, eligible, ids, ts, prevKey, key);
    ImportListEmpty(ForMonth(after, prevKey), ids2, key);
    SeedFillEmpty(eligible, ids2, ts2, prevKey, key);
  }

  // The stale pre-run list in pass 2, and the evidently intended pass 2.

  /** As written, pass 2 tests the list captured before the run, not the list
      pass 1 has just extended: an eligible category that pass 1 carried
      forward is appended a second time, so the month holds two of its budgets. */
  lemma CarriedCategoryAddedTwice(prev: seq<Budget>, eligible: seq<Category>, preIds: set<int>,
                                  ts: seq<Transaction>, prevKey: string, key: string, b: Budget, c: Category)
    requires b in prev && b.categoryId !in preIds
    requires c in eligible && c.id == b.categoryId
    ensures exists i, j :: 0 <= i < j < |RunAppends(prev, eligible, preIds, ts, prevKey, key)|
              && RunAppends(prev, eligible, preIds, ts, prevKey, key)[i].categoryId == b.categoryId
              && RunAppends(prev, eligible, preIds, ts, prevKey, key)[j].categoryId == b.categoryId
  {
    var cf := CarryForward(prev, preIds, key);
    var sf := SeedFill(eligible, preIds, ts, prevKey, key);
    var appended := RunAppends(prev, eligible, preIds, ts, prevKey, key);
    CarryForwardMembership(prev, preIds, key, Carried(b, key));
    SeedFillMembership(eligible, preIds, ts, prevKey, key, Seeded(c, ts, prevKey, key));
    var i :| 0 <= i < |cf| && cf[i] == Carried(b, key);
    var j :| 0 <= j < |sf| && sf[j] == Seeded(c, ts, prevKey, key);
    assert appended[i] == cf[i] && appended[|cf| + j] == sf[j];
  }

  /** At most one budget per category. */
  predicate OnePerCategory(bs: seq<Budget>)
  {
    forall i, j :: 0 <= i < j < |bs| ==> bs[i].categoryId != bs[j].categoryId
  }

  /** Category ids are unique in the catalog. */
  predicate DistinctIds(cs: seq<Category>)
  {
    forall i, j :: 0 <= i < j < |cs| ==> cs[i].id != cs[j].id
  }

  /** The evidently intended run: pass 2 tests the month's list as refreshed
      after pass 1 (`updatedBudgets`), and the pre-run list is the one loaded
      from the store. */
  function CorrectedAppends(records: seq<Budget>, eligible: seq<Category>, ts: seq<Transaction>,
                            prevKey: string, key: string): seq<Budget>
  {
    var carried := CarryForward(ForMonth(records, prevKey), CategoryIds(ForMonth(records, key)), key);
    carried + SeedFill(eligible, CategoryIds(ForMonth(records + carried, key)), ts, prevKey, key)
  }

  /** The handler with pass 2 reading the refreshed list `updatedBudgets`.
      Started from the month's list as loaded from the store, it appends
      exactly `CorrectedAppends`. */
  method RunCorrected(store: BudgetStore, year: nat, month: nat, budgets: seq<Budget>,
                      transactions: seq<Transaction>, categories: seq<Category>)
    returns (created: nat, skipped: nat, finalBudgets: seq<Budget>)
    requires year >= 1 && ValidMonth(month)
    modifies store
    ensures var key := Key(year, month);
            var p := Predecessor(year, month);
            var prevKey := Key(p.0, p.1);
            var carried := CarryForward(ForMonth(old(store.records), prevKey), CategoryIds(budgets), key);
            var ids := CategoryIds(ForMonth(old(store.records) + carried, key));
            var eligible := EligibleCategories(categories);
            && store.records == old(store.records) + carried + SeedFill(eligible, ids, transactions, prevKey, key)
            && (budgets == ForMonth(old(store.records), key) ==>
                  store.records == old(store.records) + CorrectedAppends(old(store.records), eligible, transactions, prevKey, key))
            && created == |SeedFill(eligible, ids, transactions, prevKey, key)|
            && skipped == SkippedCount(eligible, ids)
            && finalBudgets == ForMonth(store.records, key)
  {
    var selectedMonth := Key(year, month);
    var prevYear, prevMonth := PreviousMonth(year, month);
    var prevMonthStr := Key(prevYear, prevMonth);
    var prevBudgets := store.GetBudgets(prevMonthStr);
    ghost var before := store.records;
    ghost var carried := CarryForward(prevBudgets, CategoryIds(budgets), selectedMonth);
    CarryForwardPass(store, prevBudgets, CategoryIds(budgets), selectedMonth);
    var updatedBudgets := store.GetBudgets(selectedMonth);
    var spendingByCategory := SpendingByCategory(transactions, prevMonthStr);
    var eligibleCategories := EligibleCategories(categories);
    created, skipped := SeedFillPass(store, eligibleCategories, updatedBudgets, spendingByCategory,
                                     transactions, prevMonthStr, selectedMonth);
    ghost var seeded := SeedFill(eligibleCategories, CategoryIds(updatedBudgets), transactions, prevMonthStr, selectedMonth);
    assert store.records == before + carried + seeded;
    if budgets == ForMonth(before, selectedMonth) {
      assert CorrectedAppends(before, eligibleCategories, transactions, prevMonthStr, selectedMonth) == carried + seeded;
      ConcatAssoc(before, carried, seeded);
    }
    finalBudgets := store.GetBudgets(selectedMonth);
  }

  lemma OnePerCategoryConcat(a: seq<Budget>, b: seq<Budget>)
    requires OnePerCategory(a) && OnePerCategory(b)
    requires forall j :: 0 <= j < |b| ==> b[j].categoryId !in CategoryIds(a)
    ensures OnePerCategory(a + b)
  {
    var ab := a + b;
    forall i, j | 0 <= i < j < |ab| ensures ab[i].categoryId != ab[j].categoryId {
      if i < |a| && j >= |a| {
        assert ab[j] == b[j - |a|];
      } else if i >= |a| {
        assert ab[i] == b[i - |a|] && ab[j] == b[j - |a|];
      }
    }
  }

  /** Pass 1 keeps the prior month's one-per-category shape, tags every copy
      with the target month and avoids the pre-run categories. */
  lemma {:induction false} CarriedFacts(prev: seq<Budget>, preIds: set<int>, key: string)
    ensures forall i :: 0 <= i < |CarryForward(prev, preIds, key)| ==>
              CarryForward(prev, preIds, key)[i].month == key &&
              CarryForward(prev, preIds, key)[i].categoryId !in preIds
    ensures OnePerCategory(prev) ==> OnePerCategory(ImportList(prev, preIds))
    ensures OnePerCategory(prev) ==> OnePerCategory(CarryForward(prev, preIds, key))
  {
    var imports := ImportList(prev, preIds);
    assert forall i :: 0 <= i < |imports| ==> imports[i] in imports;
    if prev != [] && OnePerCategory(prev) {
      var init, last := prev[..|prev| - 1], prev[|prev| - 1];
      assert OnePerCategory(init);
      CarriedFacts(init, preIds, key);
      var sub := ImportList(init, preIds);
      if last.categoryId !in preIds {
        forall k | 0 <= k < |sub| ensures sub[k].categoryId != last.categoryId {
          assert sub[k] in init;
          var m :| 0 <= m < |init| && init[m] == sub[k];
          assert prev[m] == init[m];
        }
        OnePerCategoryConcat(sub, [last]);
        assert imports == sub + [last];
      } else {
        assert imports == sub + [];
      }
    }
  }

  /** Pass 2 tags every budget with the target month, avoids the tested
      categories, and appends one budget per category when the catalog's ids
      are distinct. */
  lemma {:induction false} SeededFacts(eligible: seq<Category>, preIds: set<int>, ts: seq<Transaction>,
                                       prevKey: string, key: string)
    ensures forall i :: 0 <= i < |SeedFill(eligible, preIds, ts, prevKey, key)| ==>
              SeedFill(eligible, preIds, ts, prevKey, key)[i].month == key &&
              SeedFill(eligible, preIds, ts, prevKey, key)[i].categoryId !in preIds
    ensures DistinctIds(eligible) ==> OnePerCategory(SeedFill(eligible, preIds, ts, prevKey, key))
  {
    var sf := SeedFill(eligible, preIds, ts, prevKey, key);
    forall i | 0 <= i < |sf| ensures sf[i].month == key && sf[i].categoryId !in preIds {
      SeedFillMembership(eligible, preIds, ts, prevKey, key, sf[i]);
    }
    if eligible != [] && DistinctIds(eligible) {
      var init, last := eligible[..|eligible| - 1], eligible[|eligible| - 1];
      assert DistinctIds(init);
      SeededFacts(init, preIds, ts, prevKey, key);
      var sub := SeedFill(init, preIds, ts, prevKey, key);
      if last.id !in preIds {
        forall k | 0 <= k < |sub| ensures sub[k].categoryId != last.id {
          SeedFillMembership(init, preIds, ts, prevKey, key, sub[k]);
          var c :| c in init && c.id !in preIds && sub[k] == Seeded(c, ts, prevKey, key);
          var m :| 0 <= m < |init| && init[m] == c;
          assert eligible[m] == init[m];
        }
        OnePerCategoryConcat(sub, [Seeded(last, ts, prevKey, key)]);
      } else {
        assert sf == sub + [];
      }
    }
  }

  lemma {:induction false} EligibleDistinct(cats: seq<Category>)
    requires DistinctIds(cats)
    ensures DistinctIds(SelectEligible(cats))
  {
    if cats != [] {
      var init, last := cats[..|cats| - 1], cats[|cats| - 1];
      assert DistinctIds(init);
      EligibleDistinct(init);
      var sub := SelectEligible(init);
      if IsEligible(last) {
        var r := sub + [last];
        SelectionWithin(init);
        forall i, j | 0 <= i < j < |r| ensures r[i].id != r[j].id {
          if j == |sub| {
            assert r[i] == sub[i] && sub[i] in sub;
            var m :| 0 <= m < |init| && init[m] == sub[i];
            assert cats[m] == init[m];
          }
        }
      }
    }
  }

  lemma SelectionWithin(cats: seq<Category>)
    ensures forall c :: c in SelectEligible(cats) ==> c in cats
  {
    EligibleIsSelection(cats);
  }

  /** The corrected passes keep a month's list at one budget per category. */
  lemma CorrectedMonthOnePerCategory(pre: seq<Budget>, prev: seq<Budget>, eligible: seq<Category>,
                                     ts: seq<Transaction>, prevKey: string, key: string)
    requires OnePerCategory(pre) && OnePerCategory(prev) && DistinctIds(eligible)
    ensures var carried := CarryForward(prev, CategoryIds(pre), key);
            OnePerCategory(pre + carried + SeedFill(eligible, CategoryIds(pre + carried), ts, prevKey, key))
  {
    var carried := CarryForward(prev, CategoryIds(pre), key);
    CarriedFacts(prev, CategoryIds(pre), key);
    OnePerCategoryConcat(pre, carried);
    var mid := pre + carried;
    SeededFacts(eligible, CategoryIds(mid), ts, prevKey, key);
    OnePerCategoryConcat(mid, SeedFill(eligible, CategoryIds(mid), ts, prevKey, key));
  }

  /** The corrected run appends only to the target month, so the month's list
      afterwards is the loaded list followed by the two passes' budgets. */
  lemma CorrectedAppendsInStore(records: seq<Budget>, eligible: seq<Category>, ts: seq<Transaction>,
                                prevKey: string, key: string)
    requires key != prevKey
    ensures var pre := ForMonth(records, key);
            var carried := CarryForward(ForMonth(records, prevKey), CategoryIds(pre), key);
            ForMonth(records + CorrectedAppends(records, eligible, ts, prevKey, key), key)
              == pre + carried + SeedFill(eligible, CategoryIds(pre + carried), ts, prevKey, key)
  {
    var pre := ForMonth(records, key);
    var carried := CarryForward(ForMonth(records, prevKey), CategoryIds(pre), key);
    assert ForMonth(records + carried, key) == pre + carried by {
      CarriedFacts(ForMonth(records, prevKey), CategoryIds(pre), key);
      AppendToMonth(records, carried, key, prevKey);
    }
    var seeded := SeedFill(eligible, CategoryIds(pre + carried), ts, prevKey, key);
    assert ForMonth((records + carried) + seeded, key) == (pre + carried) + seeded by {
      SeededFacts(eligible, CategoryIds(pre + carried), ts, prevKey, key);
      AppendToMonth(records + carried, seeded, key, prevKey);
    }
    assert CorrectedAppends(records, eligible, ts, prevKey, key) == carried + seeded;
    ConcatAssoc(records, carried, seeded);
  }

  /** Regrouping the store after both passes; kept apart so that the solver
      meets the associativity step with nothing else in scope. */
  lemma ConcatAssoc(a: seq<Budget>, b: seq<Budget>, c: seq<Budget>)
    ensures a + (b + c) == (a + b) + c
  {
  }

  /** With the refreshed list, a run keeps the target month at one budget per
      category whenever the month, its predecessor and the catalog start that way. */
  lemma CorrectedKeepsOnePerCategory(records: seq<Budget>, year: nat, month: nat,
                                     categories: seq<Category>, ts: seq<Transaction>)
    requires year >= 1 && ValidMonth(month)
    requires OnePerCategory(ForMonth(records, Key(year, month)))
    requires OnePerCategory(ForMonth(records, Key(Predecessor(year, month).0, Predecessor(year, month).1)))
    requires DistinctIds(categories)
    ensures var key := Key(year, month);
            var prevKey := Key(Predecessor(year, month).0, Predecessor(year, month).1);
            OnePerCategory(ForMonth(records + CorrectedAppends(records, EligibleCategories(categories), ts, prevKey, key), key))
  {
    var key := Key(year, month);
    var prevKey := Key(Predecessor(year, month).0, Predecessor(year, month).1);
    var eligible := EligibleCategories(categories);
    PredecessorKeyDiffers(year, month);
    EligibleIsSelection(categories);
    EligibleDistinct(categories);
    CorrectedAppendsInStore(records, eligible, ts, prevKey, key);
    CorrectedMonthOnePerCategory(ForMonth(records, key), ForMonth(records, prevKey), eligible, ts, prevKey, key);
  }
}
