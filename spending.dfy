/** Last month's spend per category, the amount auto-generation seeds a new
    budget with: a map built in a loop over the month's expense transactions. */
module Spending {
  import opened BudgetTypes
  import Summary

  /** `t.type === 'expense' && t.date.startsWith(prevMonthStr)` */
  predicate IsMonthExpense(t: Transaction, key: string)
  {
    t.kind == Expense && key <= t.date
  }

  /** `lastMonthExpenses`: the month's expense transactions, in list order. */
  function MonthExpenses(ts: seq<Transaction>, key: string): (r: seq<Transaction>)
    ensures forall t :: t in r <==> t in ts && IsMonthExpense(t, key)
  {
    if ts == [] then []
    else
      var last := ts[|ts| - 1];
      MonthExpenses(ts[..|ts| - 1], key) + (if IsMonthExpense(last, key) then [last] else [])
  }

  /** Reference definition: the sum of `|amount|` over the month's expense
      transactions that carry category `cid`; 0 when there are none. */
  function CategorySpend(ts: seq<Transaction>, key: string, cid: int): (r: int)
    ensures r >= 0
  {
    if ts == [] then 0
    else
      var last := ts[|ts| - 1];
      CategorySpend(ts[..|ts| - 1], key, cid)
        + (if IsMonthExpense(last, key) && last.categoryId == Some(cid) then Abs(last.amount) else 0)
  }

  /** The month's expense transactions that carry category `cid`, in list order. */
  function CategoryExpenses(ts: seq<Transaction>, key: string, cid: int): (r: seq<Transaction>)
    ensures forall t :: t in r <==> t in ts && IsMonthExpense(t, key) && t.categoryId == Some(cid)
  {
    if ts == [] then []
    else
      var last := ts[|ts| - 1];
      CategoryExpenses(ts[..|ts| - 1], key, cid)
        + (if IsMonthExpense(last, key) && last.categoryId == Some(cid) then [last] else [])
  }

  /** The seed is the sum of magnitudes that the summary uses, taken over the
      category's expenses of the month. */
  lemma {:induction false} CategorySpendIsMagnitude(ts: seq<Transaction>, key: string, cid: int)
    ensures CategorySpend(ts, key, cid) == Summary.MagnitudeSum(CategoryExpenses(ts, key, cid))
  {
    if ts != [] {
      var init, last := ts[..|ts| - 1], ts[|ts| - 1];
      CategorySpendIsMagnitude(init, key, cid);
      var sub := CategoryExpenses(init, key, cid);
      if IsMonthExpense(last, key) && last.categoryId == Some(cid) {
        assert (sub + [last])[..|sub + [last]| - 1] == sub;
      } else {
        assert sub + [] == sub;
      }
    }
  }

  /** The seed never falls below the category's net amount for the month, and
      equals it in magnitude when all of the category's expenses have one sign. */
  lemma SeedBoundsNet(ts: seq<Transaction>, key: string, cid: int)
    ensures var es := CategoryExpenses(ts, key, cid);
            && Abs(Summary.SignedSum(es)) <= CategorySpend(ts, key, cid)
            && ((forall i :: 0 <= i < |es| ==> es[i].amount <= 0) ==> -Summary.SignedSum(es) == CategorySpend(ts, key, cid))
            && ((forall i :: 0 <= i < |es| ==> es[i].amount >= 0) ==> Summary.SignedSum(es) == CategorySpend(ts, key, cid))
  {
    CategorySpendIsMagnitude(ts, key, cid);
    Summary.SpentAtMostMagnitude(CategoryExpenses(ts, key, cid));
  }

  /** `spendingByCategory.get(id) || 0` */
  function SeedAmount(spending: map<int, int>, cid: int): int
  {
    if cid in spending then spending[cid] else 0
  }

  lemma {:induction false} CategorySpendAppend(a: seq<Transaction>, b: seq<Transaction>, key: string, cid: int)
    ensures CategorySpend(a + b, key, cid) == CategorySpend(a, key, cid) + CategorySpend(b, key, cid)
    decreases |b|
  {
    if b == [] {
      assert a + b == a;
    } else {
      var b' := b[..|b| - 1];
      assert (a + b)[..|a + b| - 1] == a + b';
      CategorySpendAppend(a, b', key, cid);
    }
  }

  /** One more transaction adds its magnitude to its own category's spend only. */
  lemma CategorySpendSnoc(ts: seq<Transaction>, t: Transaction, key: string, cid: int)
    ensures CategorySpend(ts + [t], key, cid)
              == CategorySpend(ts, key, cid) + (if IsMonthExpense(t, key) && t.categoryId == Some(cid) then Abs(t.amount) else 0)
  {
    assert (ts + [t])[..|ts|] == ts;
  }

  /** Filtering to the month's expenses first does not change any category's spend. */
  lemma {:induction false} CategorySpendOfMonthExpenses(ts: seq<Transaction>, key: string, cid: int)
    ensures CategorySpend(MonthExpenses(ts, key), key, cid) == CategorySpend(ts, key, cid)
  {
    if ts != [] {
      var init, last := ts[..|ts| - 1], ts[|ts| - 1];
      CategorySpendOfMonthExpenses(init, key, cid);
      if IsMonthExpense(last, key) {
        assert MonthExpenses(ts, key) == MonthExpenses(init, key) + [last];
        CategorySpendAppend(MonthExpenses(init, key), [last], key, cid);
        assert [last][..0] == [];
      } else {
        assert MonthExpenses(ts, key) == MonthExpenses(init, key) + [];
        assert MonthExpenses(init, key) + [] == MonthExpenses(init, key);
      }
    }
  }

  /** The loop of the auto-generate handler that fills `spendingByCategory`:
      it holds, for every category, last month's summed `|amount|`, and has an
      entry exactly for the categories that had an expense that month. */
  method SpendingByCategory(ts: seq<Transaction>, key: string) returns (spending: map<int, int>)
    ensures forall cid :: SeedAmount(spending, cid) == CategorySpend(ts, key, cid)
    ensures forall cid :: cid in spending <==> exists t :: t in ts && IsMonthExpense(t, key) && t.categoryId == Some(cid)
  {
    var expenses := MonthExpenses(ts, key);
    spending := map[];
    var i := 0;
    while i < |expenses|
      invariant 0 <= i <= |expenses|
      invariant forall cid :: SeedAmount(spending, cid) == CategorySpend(expenses[..i], key, cid)
      invariant forall cid :: cid in spending <==> exists j :: 0 <= j < i && expenses[j].categoryId == Some(cid)
    {
      var t := expenses[i];
      assert expenses[..i + 1] == expenses[..i] + [t];
      assert IsMonthExpense(t, key) by { assert t in expenses; }
      if t.categoryId.Some? {
        var amount := Abs(t.amount);
        spending := spending[t.categoryId.value := SeedAmount(spending, t.categoryId.value) + amount];
      }
      forall cid ensures SeedAmount(spending, cid) == CategorySpend(expenses[..i + 1], key, cid) {
        CategorySpendSnoc(expenses[..i], t, key, cid);
      }
      i := i + 1;
    }
    assert expenses[..i] == expenses;
    forall cid ensures SeedAmount(spending, cid) == CategorySpend(ts, key, cid) {
      CategorySpendOfMonthExpenses(ts, key, cid);
    }
    forall cid | exists t :: t in ts && IsMonthExpense(t, key) && t.categoryId == Some(cid)
      ensures cid in spending
    {
      var t :| t in ts && IsMonthExpense(t, key) && t.categoryId == Some(cid);
      assert t in expenses;
    }
  }

  /** The seed and `totalSpent` measure differently when signs are mixed: a
      refund of 30 against an expense of 100 gives a seed of 130 but a total
      spent of 70. */
  lemma MixedSignsDiffer(key: string)
    ensures var ts := [Transaction(-100, key + "-03", Expense, Some(1)),
                       Transaction(30, key + "-09", Expense, Some(1))];
            CategorySpend(ts, key, 1) == 130 && Summary.TotalSpent(ts, key) == 70
  {
    var ts := [Transaction(-100, key + "-03", Expense, Some(1)),
               Transaction(30, key + "-09", Expense, Some(1))];
    assert key <= key + "-03" && key <= key + "-09";
    assert ts[..1] == [ts[0]] && ts[..1][..0] == [];
    assert Summary.SpentFilter(ts, key) == ts;
    assert Summary.SignedSum(ts[..1]) == Summary.SignedSum(ts[..1][..0]) - 100;
    assert Summary.SignedSum(ts) == -70;
    assert CategorySpend(ts[..1], key, 1) == CategorySpend(ts[..1][..0], key, 1) + 100;
    assert CategorySpend(ts, key, 1) == 130;
  }
}
