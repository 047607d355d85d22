/** The closed, ordered category lists of the schema. */
module Categories {
  import opened Seqs

  const BudgetCategories: seq<string> :=
    ["Brand Marketing", "Digital Marketing", "Functional Marketing", "Product Marketing", "Other budget"]

  const ExpenseCategories: seq<string> :=
    ["Social ads", "Search ads", "Display ads", "Video ads", "Affiliate ads", "TV ads",
     "Radio ads", "Print ads", "Email marketing", "Influencers", "Tech subscriptions", "Other expenses"]

  lemma BudgetCategoriesDistinct()
    ensures |BudgetCategories| == 5 && Distinct(BudgetCategories)
  {
  }

  lemma ExpenseCategoriesDistinct()
    ensures |ExpenseCategories| == 12 && Distinct(ExpenseCategories)
  {
  }
}
