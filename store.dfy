/** The budget backend as the screen sees it: a list of budget rows that
    `get_budgets` filters by month and `add_budget` appends to. */
module Store {
  import opened BudgetTypes

  /** `get_budgets(month)`: the rows tagged with that month, in store order. */
  function ForMonth(records: seq<Budget>, month: string): (r: seq<Budget>)
    ensures |r| <= |records|
    ensures forall b :: b in r <==> b in records && b.month == month
  {
    if records == [] then []
    else
      var last := records[|records| - 1];
      ForMonth(records[..|records| - 1], month) + (if last.month == month then [last] else [])
  }

  lemma {:induction false} ForMonthAppend(a: seq<Budget>, b: seq<Budget>, month: string)
    ensures ForMonth(a + b, month) == ForMonth(a, month) + ForMonth(b, month)
    decreases |b|
  {
    if b == [] {
      assert a + b == a;
    } else {
      var b' := b[..|b| - 1];
      assert (a + b)[..|a + b| - 1] == a + b';
      ForMonthAppend(a, b', month);
    }
  }

  /** Rows all tagged with `month` pass the filter unchanged; rows tagged with
      other months vanish from it. */
  lemma {:induction false} ForMonthUniform(bs: seq<Budget>, month: string)
    ensures (forall i :: 0 <= i < |bs| ==> bs[i].month == month) ==> ForMonth(bs, month) == bs
    ensures (forall i :: 0 <= i < |bs| ==> bs[i].month != month) ==> ForMonth(bs, month) == []
  {
    if bs != [] {
      var init := bs[..|bs| - 1];
      assert forall i :: 0 <= i < |init| ==> init[i] == bs[i];
      ForMonthUniform(init, month);
      assert bs == init + [bs[|bs| - 1]];
    }
  }

  /** Filter-then-sum: rows of other months added to the store leave the
      month's total budget unchanged. */
  lemma TotalBudgetIgnoresOtherMonths(records: seq<Budget>, others: seq<Budget>, month: string)
    requires forall i :: 0 <= i < |others| ==> others[i].month != month
    ensures SumAmounts(ForMonth(records + others, month)) == SumAmounts(ForMonth(records, month))
  {
    ForMonthAppend(records, others, month);
    ForMonthUniform(others, month);
    assert ForMonth(records, month) + [] == ForMonth(records, month);
  }

  /** Rows appended for the month raise its total budget by exactly their amounts:
      after auto-generation the screen's total is the old total plus the new rows' sum. */
  lemma TotalBudgetAfterAppend(records: seq<Budget>, added: seq<Budget>, month: string)
    requires forall i :: 0 <= i < |added| ==> added[i].month == month
    ensures SumAmounts(ForMonth(records + added, month))
              == SumAmounts(ForMonth(records, month)) + SumAmounts(added)
  {
    ForMonthAppend(records, added, month);
    ForMonthUniform(added, month);
    SumAmountsAppend(ForMonth(records, month), added);
  }

  /** The in-memory backend. Ids and `created_at` are not modelled. */
  class BudgetStore {
    var records: seq<Budget>

    constructor (initial: seq<Budget>)
      ensures records == initial
    {
      records := initial;
    }

    /** `invoke('get_budgets', { month })` */
    method GetBudgets(month: string) returns (bs: seq<Budget>)
      ensures bs == ForMonth(records, month)
      ensures forall b :: b in bs ==> b.month == month
    {
      bs := ForMonth(records, month);
    }

    /** `invoke('add_budget', { category_id, amount, month, notes })` */
    method AddBudget(categoryId: int, amount: int, month: string, notes: Option<string>)
      modifies this
      ensures records == old(records) + [Budget(categoryId, amount, month, notes)]
    {
      records := records + [Budget(categoryId, amount, month, notes)];
    }
  }
}
