/** The records the budgets screen reads from its backend: budgets, transactions
    and categories. Amounts are whole cents; ids, `created_at` and the backend's
    own bookkeeping are not part of this model. */
module BudgetTypes {

  datatype Option<+T> = None | Some(value: T)

  /** A budget row: the category it covers, its amount, the `YYYY-MM` month it
      belongs to and its optional notes. */
  datatype Budget = Budget(categoryId: int, amount: int, month: string, notes: Option<string>)

  /** A transaction: signed amount, ISO `YYYY-MM-DD` date, its type
      (`"expense"` or another classification) and an optional category. */
  datatype Transaction = Transaction(amount: int, date: string, kind: string, categoryId: Option<int>)

  /** A category of the external catalog. */
  datatype Category = Category(id: int, name: string, kind: string)

  const Expense: string := "expense"

  function Abs(x: int): (r: int)
    ensures r >= 0 && (r == x || r == -x)
  {
    if x < 0 then -x else x
  }

  /** The set of category ids that a list of budgets covers. */
  function CategoryIds(bs: seq<Budget>): (ids: set<int>)
    ensures forall i :: 0 <= i < |bs| ==> bs[i].categoryId in ids
    ensures forall id :: id in ids ==> exists i :: 0 <= i < |bs| && bs[i].categoryId == id
  {
    set i | 0 <= i < |bs| :: bs[i].categoryId
  }

  lemma CategoryIdsAppend(a: seq<Budget>, b: seq<Budget>)
    ensures CategoryIds(a + b) == CategoryIds(a) + CategoryIds(b)
  {
    var ab := a + b;
    forall id | id in CategoryIds(a + b) ensures id in CategoryIds(a) + CategoryIds(b) {
      var i :| 0 <= i < |ab| && ab[i].categoryId == id;
      if i >= |a| { assert b[i - |a|].categoryId == id; }
    }
    forall id | id in CategoryIds(a) + CategoryIds(b) ensures id in CategoryIds(a + b) {
      if id in CategoryIds(a) {
        var i :| 0 <= i < |a| && a[i].categoryId == id;
        assert ab[i] == a[i];
      } else {
        var i :| 0 <= i < |b| && b[i].categoryId == id;
        assert ab[|a| + i] == b[i];
      }
    }
  }

  /** `reduce((sum, b) => sum + b.amount, 0)` over a budget list. With no
      negative amount the sum is non-negative and bounds every amount. */
  function SumAmounts(bs: seq<Budget>): (r: int)
    ensures (forall i :: 0 <= i < |bs| ==> bs[i].amount >= 0) ==>
              r >= 0 && forall i :: 0 <= i < |bs| ==> bs[i].amount <= r
  {
    if bs == [] then 0 else SumAmounts(bs[..|bs| - 1]) + bs[|bs| - 1].amount
  }

  lemma {:induction false} SumAmountsAppend(a: seq<Budget>, b: seq<Budget>)
    ensures SumAmounts(a + b) == SumAmounts(a) + SumAmounts(b)
    decreases |b|
  {
    if b == [] {
      assert a + b == a;
    } else {
      var b' := b[..|b| - 1];
      assert (a + b)[..|a + b| - 1] == a + b';
      SumAmountsAppend(a, b');
    }
  }
}
