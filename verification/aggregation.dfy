/** The three metrics shown for a loaded period: total budget, total expense
    and the signed remaining budget. */
module Aggregation {
  import opened Seqs
  import opened OrderedMap

  /** Python's `sum(...)` as it runs: start from 0 and add the amounts one by
      one, left to right. */
  ghost function SumLeft(s: seq<int>): int {
    if |s| == 0 then 0 else SumLeft(s[..|s| - 1]) + s[|s| - 1]
  }

  /** Putting an amount in front adds it to the running total. */
  lemma {:induction false} SumLeftCons(x: int, t: seq<int>)
    ensures SumLeft([x] + t) == x + SumLeft(t)
  {
    if |t| > 0 {
      assert ([x] + t)[..|t|] == [x] + t[..|t| - 1];
      SumLeftCons(x, t[..|t| - 1]);
    } else {
      assert [x] + t == [x];
      assert [x][..0] == [];
    }
  }

  /** Total of a sequence of amounts, folded from the right; it agrees with
      Python's left-to-right accumulation. */
  function Sum(s: seq<int>): (r: int)
    ensures r == SumLeft(s)
  {
    if |s| == 0 then 0
    else
      SumLeftCons(s[0], s[1..]);
      assert [s[0]] + s[1..] == s;
      s[0] + Sum(s[1..])
  }

  lemma {:induction false} SumAppend(a: seq<int>, b: seq<int>)
    ensures Sum(a + b) == Sum(a) + Sum(b)
  {
    if |a| > 0 {
      assert (a + b)[1..] == a[1..] + b;
      SumAppend(a[1..], b);
    } else {
      assert a + b == b;
    }
  }

  /** Non-negative amounts give a non-negative total that bounds each amount. */
  lemma {:induction false} SumNonNegative(s: seq<int>)
    requires forall i :: 0 <= i < |s| ==> s[i] >= 0
    ensures Sum(s) >= 0
    ensures forall i :: 0 <= i < |s| ==> s[i] <= Sum(s)
  {
    if |s| > 0 {
      SumNonNegative(s[1..]);
      forall i | 1 <= i < |s|
        ensures s[i] <= Sum(s)
      {
        assert s[i] == s[1..][i - 1];
      }
    }
  }

  /** Taking out the amount at `k` takes it out of the total. */
  lemma SumRemove(s: seq<int>, k: nat)
    requires k < |s|
    ensures Sum(s) == s[k] + Sum(s[..k] + s[k + 1..])
  {
    var pre, mid, post := s[..k], [s[k]], s[k + 1..];
    SplitAt(s, k);
    assert mid[1..] == [];
    assert Sum(mid) == s[k];
    SumAppend(pre + mid, post);
    SumAppend(pre, mid);
    SumAppend(pre, post);
  }

  /** The total does not depend on the order in which the amounts are listed. */
  lemma {:induction false} SumPermutation(a: seq<int>, b: seq<int>)
    requires multiset(a) == multiset(b)
    ensures Sum(a) == Sum(b)
    decreases |a|
  {
    if |a| == 0 {
      assert |b| == |multiset(b)| == 0;
    } else {
      assert a[0] in multiset(a);
      assert a[0] in b;
      var k :| 0 <= k < |b| && b[k] == a[0];
      var rest := b[..k] + b[k + 1..];
      assert a[..0] + a[1..] == a[1..];
      MultisetRemove(a, 0);
      MultisetRemove(b, k);
      assert multiset(a[1..]) == multiset(rest);
      SumPermutation(a[1..], rest);
      SumRemove(b, k);
      assert Sum(a) == a[0] + Sum(a[1..]);
    }
  }

  /** One pass over the amounts, accumulating from 0 in list order. */
  method SumInOrder(s: seq<int>) returns (total: int)
    ensures total == SumLeft(s)
  {
    total := 0;
    var i := 0;
    while i < |s|
      invariant 0 <= i <= |s|
      invariant total == SumLeft(s[..i])
    {
      assert s[..i + 1][..i] == s[..i];
      total := total + s[i];
      i := i + 1;
    }
    assert s[..i] == s;
  }

  datatype Metrics = Metrics(totalBudget: int, totalExpense: int, remaining: int)

  /** The metrics of a period: each total is Python's `sum` over the amounts of
      its mapping, and the remaining budget is signed, negative exactly when the
      period is overspent. */
  function Aggregate(budgets: Mapping, expenses: Mapping): (m: Metrics)
    ensures m.totalBudget == SumLeft(Values(budgets))
    ensures m.totalExpense == SumLeft(Values(expenses))
    ensures m.remaining == m.totalBudget - m.totalExpense
    ensures m.remaining < 0 <==> m.totalExpense > m.totalBudget
  {
    var totalBudget := Sum(Values(budgets));
    var totalExpense := Sum(Values(expenses));
    Metrics(totalBudget, totalExpense, totalBudget - totalExpense)
  }

  /** With the non-negative amounts the form accepts, both totals are
      non-negative, each bounds its own amounts, and the remaining budget lies
      between minus the total expense and the total budget. */
  lemma AggregateBounds(budgets: Mapping, expenses: Mapping)
    requires forall i :: 0 <= i < |budgets| ==> budgets[i].1 >= 0
    requires forall i :: 0 <= i < |expenses| ==> expenses[i].1 >= 0
    ensures var m := Aggregate(budgets, expenses);
      && 0 <= m.totalBudget && 0 <= m.totalExpense
      && (forall i :: 0 <= i < |budgets| ==> budgets[i].1 <= m.totalBudget)
      && (forall i :: 0 <= i < |expenses| ==> expenses[i].1 <= m.totalExpense)
      && -m.totalExpense <= m.remaining <= m.totalBudget
  {
    SumNonNegative(Values(budgets));
    SumNonNegative(Values(expenses));
    assert forall i :: 0 <= i < |budgets| ==> Values(budgets)[i] == budgets[i].1;
    assert forall i :: 0 <= i < |expenses| ==> Values(expenses)[i] == expenses[i].1;
  }

  /** The metrics depend only on the amounts, not on the category names nor
      on the order of the entries. */
  lemma AggregateIgnoresOrder(budgets: Mapping, budgets': Mapping, expenses: Mapping, expenses': Mapping)
    requires multiset(Values(budgets)) == multiset(Values(budgets'))
    requires multiset(Values(expenses)) == multiset(Values(expenses'))
    ensures Aggregate(budgets, expenses) == Aggregate(budgets', expenses')
  {
    SumPermutation(Values(budgets), Values(budgets'));
    SumPermutation(Values(expenses), Values(expenses'));
  }
}
