/** The summary cards of the budgets screen: total budgeted, total spent,
    remaining and percent used for the selected month. All of it is pure. */
module Summary {
  import opened BudgetTypes

  /** The three conditions under which a transaction counts towards `totalSpent`:
      it is an expense, its date starts with the month key, and it has a category. */
  predicate CountsAsSpent(t: Transaction, key: string)
  {
    t.kind == Expense && key <= t.date && t.categoryId.Some?
  }

  /** `transactions.filter(...)`, keeping the order of the list. */
  function SpentFilter(ts: seq<Transaction>, key: string): (r: seq<Transaction>)
    ensures |r| <= |ts|
    ensures forall t :: t in r <==> t in ts && CountsAsSpent(t, key)
  {
    if ts == [] then []
    else
      var last := ts[|ts| - 1];
      SpentFilter(ts[..|ts| - 1], key) + (if CountsAsSpent(last, key) then [last] else [])
  }

  /** `reduce((sum, t) => sum + t.amount, 0)`: the signed sum. */
  function SignedSum(ts: seq<Transaction>): int
  {
    if ts == [] then 0 else SignedSum(ts[..|ts| - 1]) + ts[|ts| - 1].amount
  }

  /** Sum of magnitudes, the measure the auto-generate seed uses per category. */
  function MagnitudeSum(ts: seq<Transaction>): int
  {
    if ts == [] then 0 else MagnitudeSum(ts[..|ts| - 1]) + Abs(ts[|ts| - 1].amount)
  }

  /** `totalSpent`: the absolute value of the signed sum of the counting transactions. */
  function TotalSpent(ts: seq<Transaction>, key: string): (r: int)
    ensures r >= 0
    ensures r == SignedSum(SpentFilter(ts, key)) || r == -SignedSum(SpentFilter(ts, key))
  {
    Abs(SignedSum(SpentFilter(ts, key)))
  }

  /** `progress`: percent of the budget used, 0 when the budget is not positive,
      and not capped at 100. */
  function Progress(totalBudget: int, totalSpent: int): (p: real)
    ensures totalBudget <= 0 ==> p == 0.0
    ensures totalBudget > 0 ==> p * (totalBudget as real) == 100.0 * (totalSpent as real)
    ensures totalSpent >= 0 ==> p >= 0.0
    ensures totalBudget > 0 && totalSpent > totalBudget ==> p > 100.0
  {
    if totalBudget > 0 then (totalSpent as real / totalBudget as real) * 100.0 else 0.0
  }

  datatype PeriodSummary = PeriodSummary(totalBudget: int, totalSpent: int, remaining: int, progress: real)

  /** The four figures the screen derives for the selected month. */
  function Summarize(budgets: seq<Budget>, ts: seq<Transaction>, key: string): (s: PeriodSummary)
    ensures s.totalBudget == SumAmounts(budgets) && s.totalSpent == TotalSpent(ts, key)
    ensures s.progress == Progress(s.totalBudget, s.totalSpent)
    ensures s.totalSpent >= 0
    ensures s.remaining == s.totalBudget - s.totalSpent
    ensures s.totalBudget <= 0 ==> s.progress == 0.0
    ensures s.totalBudget > 0 ==> s.progress * (s.totalBudget as real) == 100.0 * (s.totalSpent as real)
    ensures s.totalBudget > 0 && s.totalSpent > s.totalBudget ==> s.progress > 100.0
  {
    var total := SumAmounts(budgets);
    var spent := TotalSpent(ts, key);
    PeriodSummary(total, spent, total - spent, Progress(total, spent))
  }

  lemma {:induction false} SpentFilterAppend(a: seq<Transaction>, b: seq<Transaction>, key: string)
    ensures SpentFilter(a + b, key) == SpentFilter(a, key) + SpentFilter(b, key)
    decreases |b|
  {
    if b == [] {
      assert a + b == a;
    } else {
      var b' := b[..|b| - 1];
      assert (a + b)[..|a + b| - 1] == a + b';
      SpentFilterAppend(a, b', key);
    }
  }

  lemma {:induction false} SignedSumAppend(a: seq<Transaction>, b: seq<Transaction>)
    ensures SignedSum(a + b) == SignedSum(a) + SignedSum(b)
    decreases |b|
  {
    if b == [] {
      assert a + b == a;
    } else {
      var b' := b[..|b| - 1];
      assert (a + b)[..|a + b| - 1] == a + b';
      SignedSumAppend(a, b');
    }
  }

  /** `totalSpent` depends only on the counting transactions: inserting, anywhere
      in the list, a transaction that is not an expense, is dated in another
      month or has no category leaves it unchanged, and so does replacing one
      such transaction by another. */
  lemma SpentIgnoresOthers(a: seq<Transaction>, b: seq<Transaction>, t: Transaction, u: Transaction, key: string)
    requires !CountsAsSpent(t, key) && !CountsAsSpent(u, key)
    ensures TotalSpent(a + [t] + b, key) == TotalSpent(a + b, key)
    ensures TotalSpent(a + [t] + b, key) == TotalSpent(a + [u] + b, key)
  {
    SpentFilterAppend(a + [t], b, key);
    SpentFilterAppend(a, [t], key);
    SpentFilterAppend(a + [u], b, key);
    SpentFilterAppend(a, [u], key);
    SpentFilterAppend(a, b, key);
    assert [t][..0] == [] && [u][..0] == [];
    assert SpentFilter([t], key) == [] && SpentFilter([u], key) == [];
    assert SpentFilter(a + [t], key) == SpentFilter(a, key) == SpentFilter(a + [u], key);
  }

  /** An uncategorised transaction never contributes to `totalSpent`, whatever
      its amount, type or date. */
  lemma UncategorisedNeverSpent(a: seq<Transaction>, b: seq<Transaction>, t: Transaction, key: string)
    requires t.categoryId == None
    ensures TotalSpent(a + [t] + b, key) == TotalSpent(a + b, key)
  {
    SpentIgnoresOthers(a, b, t, t, key);
  }

  /** `|Σ amount|` never exceeds `Σ |amount|`; the two agree when every counting
      transaction is recorded with the same sign. */
  lemma {:induction false} SpentAtMostMagnitude(ts: seq<Transaction>)
    ensures Abs(SignedSum(ts)) <= MagnitudeSum(ts)
    ensures (forall i :: 0 <= i < |ts| ==> ts[i].amount <= 0) ==> SignedSum(ts) == -MagnitudeSum(ts)
    ensures (forall i :: 0 <= i < |ts| ==> ts[i].amount >= 0) ==> SignedSum(ts) == MagnitudeSum(ts)
  {
    if ts != [] {
      var init := ts[..|ts| - 1];
      assert forall i :: 0 <= i < |init| ==> init[i] == ts[i];
      SpentAtMostMagnitude(init);
    }
  }

  /** Budget 200, spent 250: remaining is -50 and progress is 125 percent. */
  lemma OverspentExample(key: string)
    ensures var s := Summarize([Budget(7, 200, key, None)],
                               [Transaction(-250, key + "-14", Expense, Some(7))], key);
            s.totalBudget == 200 && s.totalSpent == 250 && s.remaining == -50 && s.progress == 125.0
  {
    var bs := [Budget(7, 200, key, None)];
    var ts := [Transaction(-250, key + "-14", Expense, Some(7))];
    assert bs[..0] == [] && ts[..0] == [];
    assert SumAmounts(bs) == SumAmounts(bs[..0]) + 200;
    assert key <= key + "-14";
    assert SpentFilter(ts, key) == ts;
    assert SignedSum(ts) == -250;
    assert Progress(200, 250) == 125.0;
  }
}
