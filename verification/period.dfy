/** Shaping of the record saved for one period, and what a chart of a saved
    record looks like. */
module Period {
  import opened Wrappers
  import opened Seqs
  import opened Decimal
  import opened OrderedMap
  import opened Categories
  import Sankey

  /** The persisted shape: the period key, the two amount mappings and the comment. */
  datatype PeriodRecord = PeriodRecord(key: string, budgets: Mapping, expenses: Mapping, comment: string)

  /** Splits a key at its first '_' back into the year and the month name;
      None when there is no '_' or the text before it is not a canonical integer. */
  function SplitKey(k: string): (r: Option<(int, string)>)
  {
    if '_' !in k then None
    else
      var cut := IndexOf(k, '_');
      var yearText := k[..cut];
      if IsIntText(yearText) then Some((TextToInt(yearText), k[cut + 1..])) else None
  }

  /** The year's text holds no '_', so the first '_' is the separator. */
  lemma SplitJoined(year: int, month: string)
    ensures SplitKey(IntToText(year) + "_" + month) == Some((year, month))
  {
    var y := IntToText(year);
    var k := y + "_" + month;
    assert k[|y|] == '_';
    assert forall i :: 0 <= i < |y| ==> k[i] == y[i];
    assert IndexOf(k, '_') == |y|;
    assert k[..|y|] == y;
    assert k[|y| + 1..] == month;
  }

  /** `str(year) + "_" + month`: the key determines the period, since splitting
      it gives back the year and the month name. */
  function PeriodKey(year: int, month: string): (k: string)
    ensures SplitKey(k) == Some((year, month))
  {
    SplitJoined(year, month);
    IntToText(year) + "_" + month
  }

  /** Every key that splits is exactly the key of the period it splits into:
      a year is written one way only. */
  lemma {:induction false} SplitKeyExact(k: string)
    ensures SplitKey(k).Some? ==> k == PeriodKey(SplitKey(k).value.0, SplitKey(k).value.1)
  {
    if SplitKey(k).Some? {
      var cut := IndexOf(k, '_');
      var yearText := k[..cut];
      IntTextCanonical(yearText);
      assert k == yearText + "_" + k[cut + 1..];
    }
  }

  /** Different periods never share a key, so saving one period never
      overwrites another. */
  lemma KeyInjective(year: int, month: string, year': int, month': string)
    requires PeriodKey(year, month) == PeriodKey(year', month')
    ensures year == year' && month == month'
  {
  }

  /** The session holds one entered amount per category of both lists. */
  ghost predicate HasAllCategories(state: map<string, int>) {
    && (forall c :: c in BudgetCategories ==> c in state)
    && (forall c :: c in ExpenseCategories ==> c in state)
  }

  /** The record saved for the entered period, amounts and comment. */
  function Save(year: int, month: string, state: map<string, int>, comment: string): (r: PeriodRecord)
    requires HasAllCategories(state)
    ensures r.key == PeriodKey(year, month)
    ensures r.comment == comment
    ensures DistinctKeys(r.budgets) && DistinctKeys(r.expenses)
  {
    PeriodRecord(PeriodKey(year, month),
                 FromKeys(BudgetCategories, state),
                 FromKeys(ExpenseCategories, state),
                 comment)
  }

  /** One entry per category of `cats`, in order, holding the entered amount. */
  ghost predicate ShapedBy(m: Mapping, cats: seq<string>, state: map<string, int>)
    requires forall c :: c in cats ==> c in state
  {
    && Keys(m) == cats
    && |m| == |cats|
    && (forall i :: 0 <= i < |m| ==> m[i].1 == state[cats[i]])
  }

  /** Node names that never repeat give category lists that never repeat. */
  lemma DistinctParts(budgetCats: seq<string>, expenseCats: seq<string>)
    requires Distinct(budgetCats + [Sankey.TotalLabel] + expenseCats)
    ensures Distinct(budgetCats) && Distinct(expenseCats)
  {
    var s := budgetCats + [Sankey.TotalLabel] + expenseCats;
    assert forall i :: 0 <= i < |budgetCats| ==> s[i] == budgetCats[i];
    assert forall i :: 0 <= i < |expenseCats| ==> s[|budgetCats| + 1 + i] == expenseCats[i];
  }

  lemma BudgetsShape(state: map<string, int>)
    requires HasAllCategories(state)
    ensures ShapedBy(FromKeys(BudgetCategories, state), BudgetCategories, state)
  {
    BudgetCategoriesDistinct();
    FromDistinctKeys(BudgetCategories, state);
  }

  lemma ExpensesShape(state: map<string, int>)
    requires HasAllCategories(state)
    ensures ShapedBy(FromKeys(ExpenseCategories, state), ExpenseCategories, state)
  {
    ExpenseCategoriesDistinct();
    FromDistinctKeys(ExpenseCategories, state);
  }

  /** A saved record has exactly the category names as keys, in declaration
      order, one entry per category, each holding the amount entered for it. */
  lemma SavedRecordShape(year: int, month: string, state: map<string, int>, comment: string)
    requires HasAllCategories(state)
    ensures var r := Save(year, month, state, comment);
      && ShapedBy(r.budgets, BudgetCategories, state)
      && ShapedBy(r.expenses, ExpenseCategories, state)
  {
    BudgetsShape(state);
    ExpensesShape(state);
  }

  /** The amounts the form accepts are non-negative, and so are the saved ones. */
  lemma SavedAmountsNonNegative(year: int, month: string, state: map<string, int>, comment: string)
    requires HasAllCategories(state)
    requires forall c :: c in state ==> state[c] >= 0
    ensures var r := Save(year, month, state, comment);
      && (forall i :: 0 <= i < |r.budgets| ==> r.budgets[i].1 >= 0)
      && (forall i :: 0 <= i < |r.expenses| ==> r.expenses[i].1 >= 0)
  {
  }

  /** The chart's node names for the fixed schema: 5 budget categories, the
      total node and 12 expense categories, no name repeated. */
  lemma FixedLabelsDistinct()
    ensures |BudgetCategories| == 5 && |ExpenseCategories| == 12
    ensures Distinct(BudgetCategories + [Sankey.TotalLabel] + ExpenseCategories)
  {
  }

  /** The chart of mappings built from category lists whose names, together
      with the total node, never repeat: budget i flows into the total node,
      and the total node flows out to each expense on its own node. */
  lemma ChartOfCategories(budgetCats: seq<string>, expenseCats: seq<string>, state: map<string, int>)
    requires forall c :: c in budgetCats ==> c in state
    requires forall c :: c in expenseCats ==> c in state
    requires Distinct(budgetCats + [Sankey.TotalLabel] + expenseCats)
    ensures var c := Sankey.Build(FromKeys(budgetCats, state), FromKeys(expenseCats, state));
      var nb, ne := |budgetCats|, |expenseCats|;
      && c.labels == budgetCats + [Sankey.TotalLabel] + expenseCats
      && |c.source| == |c.target| == |c.value| == nb + ne
      && (forall i :: 0 <= i < nb ==> c.source[i] == i && c.target[i] == nb)
      && (forall i :: nb <= i < nb + ne ==> c.source[i] == nb && c.target[i] == i + 1)
  {
    var budgets, expenses := FromKeys(budgetCats, state), FromKeys(expenseCats, state);
    DistinctParts(budgetCats, expenseCats);
    FromDistinctKeys(budgetCats, state);
    FromDistinctKeys(expenseCats, state);
    var c := Sankey.Build(budgets, expenses);
    assert c.labels == c.labels[..|budgets|] + [c.labels[|budgets|]] + c.labels[|budgets| + 1..];
    Sankey.DistinctLabelsTargets(budgets, expenses);
  }

  /** The chart of a saved record: the 5 budget categories, "Total budget" at
      index 5 and the 12 expense categories as nodes; each budget category
      flows into the total node, which flows out to each expense category on
      its own node. */
  lemma SavedRecordChart(year: int, month: string, state: map<string, int>, comment: string)
    requires HasAllCategories(state)
    ensures |BudgetCategories| == 5 && |ExpenseCategories| == 12
    ensures var r := Save(year, month, state, comment);
      var c := Sankey.Build(r.budgets, r.expenses);
      var nb, ne := |BudgetCategories|, |ExpenseCategories|;
      && c.labels == BudgetCategories + [Sankey.TotalLabel] + ExpenseCategories
      && |c.source| == |c.target| == |c.value| == nb + ne
      && (forall i :: 0 <= i < nb ==> c.source[i] == i && c.target[i] == nb)
      && (forall i :: nb <= i < nb + ne ==> c.source[i] == nb && c.target[i] == i + 1)
  {
    FixedLabelsDistinct();
    ChartOfCategories(BudgetCategories, ExpenseCategories, state);
  }
}
