/** Which categories auto-generation may create a spend-seeded budget for:
    expense categories whose name contains none of the administrative
    exclusion patterns (case-sensitive substring match). */
module CategoryFilter {
  import opened BudgetTypes

  /** `name.includes(sub)`: `sub` occurs in `name` at some position. */
  predicate Includes(name: string, sub: string)
    decreases |name|
  {
    if |name| < |sub| then false
    else sub <= name || Includes(name[1..], sub)
  }

  /** `excludedCategories`: the exclusion list of the auto-generate handler, in
      its order. No pattern is empty (an empty one would exclude every
      category); the shortest, `Adjust`, has six characters. */
  function ExcludedNames(): (r: seq<string>)
    ensures |r| == 6 && forall i :: 0 <= i < |r| ==> |r[i]| >= 6
  {
    ["Reimbursement", "Reimbursement [G]", "Reimbursement [U]", "Reimbursement [E]", "Transfer", "Adjust"]
  }

  /** `excludedCategories.some(excluded => name.includes(excluded))` */
  predicate IncludesAny(name: string, patterns: seq<string>)
  {
    exists i :: 0 <= i < |patterns| && Includes(name, patterns[i])
  }

  /** The eligibility condition applied to one category. */
  predicate IsEligible(c: Category)
  {
    c.kind == Expense && !IncludesAny(c.name, ExcludedNames())
  }

  /** First filter of the chain: `category.type === 'expense'`. */
  function ExpenseCategories(cats: seq<Category>): (r: seq<Category>)
    ensures forall c :: c in r <==> c in cats && c.kind == Expense
  {
    if cats == [] then []
    else
      var last := cats[|cats| - 1];
      ExpenseCategories(cats[..|cats| - 1]) + (if last.kind == Expense then [last] else [])
  }

  /** Second filter of the chain: no exclusion pattern occurs in the name. */
  function WithoutExcluded(cats: seq<Category>): (r: seq<Category>)
    ensures forall c :: c in r <==> c in cats && !IncludesAny(c.name, ExcludedNames())
  {
    if cats == [] then []
    else
      var last := cats[|cats| - 1];
      WithoutExcluded(cats[..|cats| - 1]) + (if !IncludesAny(last.name, ExcludedNames()) then [last] else [])
  }

  /** `eligibleCategories`: the two filters applied one after the other. */
  function EligibleCategories(cats: seq<Category>): (r: seq<Category>)
    ensures forall c :: c in r <==> c in cats && IsEligible(c)
  {
    WithoutExcluded(ExpenseCategories(cats))
  }

  /** Reference definition: one order-preserving pass keeping the eligible categories. */
  function SelectEligible(cats: seq<Category>): seq<Category>
  {
    if cats == [] then []
    else
      var last := cats[|cats| - 1];
      SelectEligible(cats[..|cats| - 1]) + (if IsEligible(last) then [last] else [])
  }

  lemma {:induction false} WithoutExcludedAppend(a: seq<Category>, b: seq<Category>)
    ensures WithoutExcluded(a + b) == WithoutExcluded(a) + WithoutExcluded(b)
    decreases |b|
  {
    if b == [] {
      assert a + b == a;
    } else {
      var b' := b[..|b| - 1];
      assert (a + b)[..|a + b| - 1] == a + b';
      WithoutExcludedAppend(a, b');
    }
  }

  /** The chained filters keep exactly the eligible categories, in their
      original order: they agree with the single-pass reference. */
  lemma {:induction false} EligibleIsSelection(cats: seq<Category>)
    ensures EligibleCategories(cats) == SelectEligible(cats)
  {
    if cats != [] {
      var init, last := cats[..|cats| - 1], cats[|cats| - 1];
      EligibleIsSelection(init);
      var kept := if last.kind == Expense then [last] else [];
      WithoutExcludedAppend(ExpenseCategories(init), kept);
      if last.kind == Expense {
        assert kept[..0] == [];
        assert WithoutExcluded(kept) == (if !IncludesAny(last.name, ExcludedNames()) then [last] else []);
      }
    }
  }

  /** `sub` sits in `name` starting at position `k`. */
  predicate OccursAt(name: string, sub: string, k: int)
  {
    0 <= k <= |name| - |sub| && name[k..k + |sub|] == sub
  }

  /** `includes` agrees with its textbook meaning: `sub` occurs in `name` at some position. */
  lemma {:induction false} IncludesIffOccurs(name: string, sub: string)
    ensures Includes(name, sub) <==> exists k :: OccursAt(name, sub, k)
    decreases |name|
  {
    if |name| < |sub| {
      assert forall k :: !OccursAt(name, sub, k);
    } else if sub <= name {
      assert OccursAt(name, sub, 0);
    } else {
      var rest := name[1..];
      IncludesIffOccurs(rest, sub);
      forall k | OccursAt(name, sub, k) ensures OccursAt(rest, sub, k - 1) {
        assert k != 0;
        assert rest[k - 1..k - 1 + |sub|] == name[k..k + |sub|];
      }
      forall k | OccursAt(rest, sub, k) ensures OccursAt(name, sub, k + 1) {
        assert name[k + 1..k + 1 + |sub|] == rest[k..k + |sub|];
      }
    }
  }

  lemma {:induction false} IncludesPrefix(name: string, sub: string, p: string)
    requires p <= sub && Includes(name, sub)
    ensures Includes(name, p)
    decreases |name|
  {
    if !(sub <= name) {
      IncludesPrefix(name[1..], sub, p);
    } else {
      assert name[..|p|] == sub[..|p|] == p;
    }
  }

  /** The `[G]`, `[U]` and `[E]` patterns are redundant: a name is excluded
      exactly when it contains `Reimbursement`, `Transfer` or `Adjust`. */
  lemma ExclusionByThreeWords(name: string)
    ensures IncludesAny(name, ExcludedNames())
        <==> Includes(name, "Reimbursement") || Includes(name, "Transfer") || Includes(name, "Adjust")
  {
    var ex := ExcludedNames();
    if IncludesAny(name, ex) {
      var i :| 0 <= i < |ex| && Includes(name, ex[i]);
      if 1 <= i <= 3 {
        assert "Reimbursement" <= ex[i];
        IncludesPrefix(name, ex[i], "Reimbursement");
      }
    }
    if Includes(name, "Reimbursement") { assert Includes(name, ex[0]); }
    if Includes(name, "Transfer") { assert Includes(name, ex[4]); }
    if Includes(name, "Adjust") { assert Includes(name, ex[5]); }
  }

  /** Every expense category whose name is shorter than the shortest pattern is eligible. */
  lemma ShortNamesEligible(c: Category)
    requires c.kind == Expense && |c.name| < 6
    ensures IsEligible(c)
  {
    var ex := ExcludedNames();
    forall i | 0 <= i < |ex| ensures !Includes(c.name, ex[i]) {
      assert |c.name| < |ex[i]|;
    }
  }

  /** The match is case-sensitive: an expense category named `transfer` is eligible. */
  lemma CaseSensitiveMatch()
    ensures IsEligible(Category(0, "transfer", Expense))
  {
    var name := "transfer";
    forall i | 0 <= i < |ExcludedNames()| ensures !Includes(name, ExcludedNames()[i]) {
      FirstLetterMissing(name, ExcludedNames()[i]);
    }
  }

  /** A pattern whose first letter occurs nowhere in the name is not included in it. */
  lemma {:induction false} FirstLetterMissing(name: string, sub: string)
    requires |sub| > 0 && forall j :: 0 <= j < |name| ==> name[j] != sub[0]
    ensures !Includes(name, sub)
    decreases |name|
  {
    if |name| >= |sub| {
      assert name[0] != sub[0];
      FirstLetterMissing(name[1..], sub);
    }
  }
}
