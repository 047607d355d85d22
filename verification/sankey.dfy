/** The four parallel arrays of the flow diagram: every budget category flows
    into one synthetic "Total budget" node, which flows out to every expense
    category. Node indices point into `labels`; links are index-aligned across
    `source`, `target` and `value`. */
module Sankey {
  import opened Seqs
  import opened OrderedMap
  import opened Aggregation

  const TotalLabel: string := "Total budget"

  datatype Chart = Chart(labels: seq<string>, source: seq<nat>, target: seq<nat>, value: seq<int>)

  /** Every link has a source, a target and a value, and both ends name a node. */
  ghost predicate WellIndexed(c: Chart) {
    && |c.source| == |c.target| == |c.value|
    && (forall i :: 0 <= i < |c.source| ==> c.source[i] < |c.labels|)
    && (forall i :: 0 <= i < |c.target| ==> c.target[i] < |c.labels|)
  }

  /** The arrays handed to the chart renderer for one period. An expense link
      targets the FIRST labels equal to the expense's name, as `list.index` does. */
  function Build(budgets: Mapping, expenses: Mapping): (c: Chart)
    ensures |c.labels| == |budgets| + 1 + |expenses|
    ensures c.labels[..|budgets|] == Keys(budgets)
    ensures c.labels[|budgets|] == TotalLabel
    ensures c.labels[|budgets| + 1..] == Keys(expenses)
    ensures |c.source| == |c.target| == |c.value| == |budgets| + |expenses|
    ensures WellIndexed(c)
    ensures forall i :: 0 <= i < |budgets| ==> c.source[i] == i && c.target[i] == |budgets|
    ensures forall i :: |budgets| <= i < |c.source| ==> c.source[i] == |budgets|
    ensures forall i :: |budgets| <= i < |c.target| ==>
      c.target[i] <= i + 1 && IsFirstIndex(c.labels, c.target[i], expenses[i - |budgets|].0)
    ensures forall i :: 0 <= i < |budgets| ==> c.value[i] == budgets[i].1
    ensures forall j :: 0 <= j < |expenses| ==> c.value[|budgets| + j] == expenses[j].1
  {
    var nb := |budgets|;
    var names := Keys(expenses);
    var labels := Keys(budgets) + [TotalLabel] + names;
    var expenseTargets := seq(|names|, j requires 0 <= j < |names| =>
      assert labels[nb + 1 + j] == names[j];
      IndexOf(labels, names[j]));
    assert forall j :: 0 <= j < |names| ==> expenseTargets[j] <= nb + 1 + j by {
      forall j | 0 <= j < |names|
        ensures expenseTargets[j] <= nb + 1 + j
      {
        assert labels[nb + 1 + j] == names[j];
      }
    }
    Chart(labels,
          Range(nb) + Repeat(nb, |expenses|),
          Repeat(nb, nb) + expenseTargets,
          Values(budgets) + Values(expenses))
  }

  /** An expense link lands on the expense's own node exactly when no earlier
      labels carries the same name; otherwise it lands on that earlier node. */
  lemma ExpenseTargetOwnNode(budgets: Mapping, expenses: Mapping, j: nat)
    requires j < |expenses|
    ensures var c := Build(budgets, expenses);
      c.target[|budgets| + j] == |budgets| + 1 + j
      <==> (forall k :: 0 <= k < |budgets| + 1 + j ==> c.labels[k] != expenses[j].0)
  {
    var c := Build(budgets, expenses);
    assert c.labels[|budgets| + 1 + j] == c.labels[|budgets| + 1..][j] == expenses[j].0;
    assert c.target[|budgets| + j] <= |budgets| + 1 + j;
  }

  /** When all labels are different, expense `j` links to node B + 1 + j: the
      link at position `i` past the budget links targets node `i + 1`. */
  lemma DistinctLabelsTargets(budgets: Mapping, expenses: Mapping)
    requires Distinct(Keys(budgets) + [TotalLabel] + Keys(expenses))
    ensures var c := Build(budgets, expenses);
      forall i :: |budgets| <= i < |c.target| ==> c.target[i] == i + 1
  {
    var c := Build(budgets, expenses);
    assert c.labels == Keys(budgets) + [TotalLabel] + Keys(expenses);
    forall i | |budgets| <= i < |c.target|
      ensures c.target[i] == i + 1
    {
      ExpenseTargetOwnNode(budgets, expenses, i - |budgets|);
    }
  }

  /** The value array splits into the budget amounts, summing to the total
      budget, and the expense amounts, summing to the total expense; their
      difference is the remaining budget. */
  lemma ChartSums(budgets: Mapping, expenses: Mapping)
    ensures var c := Build(budgets, expenses);
      var m := Aggregate(budgets, expenses);
      && Sum(c.value[..|budgets|]) == m.totalBudget
      && Sum(c.value[|budgets|..]) == m.totalExpense
      && Sum(c.value) == m.totalBudget + m.totalExpense
      && m.remaining == Sum(c.value[..|budgets|]) - Sum(c.value[|budgets|..])
  {
    var c := Build(budgets, expenses);
    assert c.value == Values(budgets) + Values(expenses);
    assert c.value[..|budgets|] == Values(budgets);
    assert c.value[|budgets|..] == Values(expenses);
    SumAppend(Values(budgets), Values(expenses));
  }

  /** Reads the two mappings back from a chart whose first `nb` links are the
      budget links. */
  ghost function Unbuild(c: Chart, nb: nat): (r: (Mapping, Mapping))
    requires |c.value| + 1 == |c.labels| && nb <= |c.value|
  {
    var ne := |c.value| - nb;
    (seq(nb, i requires 0 <= i < nb => (c.labels[i], c.value[i])),
     seq(ne, j requires 0 <= j < ne => (c.labels[nb + 1 + j], c.value[nb + j])))
  }

  /** The chart loses nothing: both mappings, with their key order and
      amounts, are recovered from it. */
  lemma BuildRoundTrip(budgets: Mapping, expenses: Mapping)
    ensures Unbuild(Build(budgets, expenses), |budgets|) == (budgets, expenses)
  {
    var c := Build(budgets, expenses);
    var (b, e) := Unbuild(c, |budgets|);
    assert forall i :: 0 <= i < |budgets| ==> c.labels[i] == c.labels[..|budgets|][i];
    assert b == budgets;
    assert forall i :: |budgets| + 1 <= i < |c.labels| ==> c.labels[i] == Keys(expenses)[i - |budgets| - 1];
    assert e == expenses;
  }

  /** Two budgets and two expenses with different names. */
  lemma ExampleTwoByTwo()
    ensures var c := Build([("A", 100), ("B", 200)], [("X", 50), ("Y", 80)]);
      && c.labels == ["A", "B", TotalLabel, "X", "Y"]
      && c.source == [0, 1, 2, 2]
      && c.target == [2, 2, 3, 4]
      && c.value == [100, 200, 50, 80]
  {
    var b := [("A", 100), ("B", 200)];
    var e := [("X", 50), ("Y", 80)];
    var c := Build(b, e);
    assert Keys(b) == ["A", "B"];
    assert Keys(e) == ["X", "Y"];
    assert c.labels == ["A", "B", TotalLabel, "X", "Y"];
    DistinctLabelsTargets(b, e);
  }

  /** No expenses: one budget link into the total node and nothing after it. */
  lemma ExampleNoExpenses()
    ensures var c := Build([("A", 10)], []);
      && c.labels == ["A", TotalLabel]
      && c.source == [0]
      && c.target == [1]
      && c.value == [10]
  {
    var c := Build([("A", 10)], []);
    assert Keys([("A", 10)]) == ["A"];
    assert c.labels == ["A", TotalLabel];
  }
}
