/**
 * The built-in category table offered by the front end and its filter by transaction
 * type: a category of type `both` is offered for income and for expenses alike.
 */
module Categories {
  import opened Text

  datatype CategoryType = IncomeType | ExpenseType | BothTypes

  datatype DefaultCategory = DefaultCategory(name: string, color: string, icon: string, kind: CategoryType)

  /** `defaultCategories`: three income categories, twelve expense ones and 'Outros' for both. */
  const DefaultCategories: seq<DefaultCategory> := [
    DefaultCategory("Salário", "#22C55E", "💵", IncomeType),
    DefaultCategory("Freelance", "#8B5CF6", "💻", IncomeType),
    DefaultCategory("Airbnb", "#EC4899", "🏨", IncomeType),
    DefaultCategory("Mercado", "#F59E0B", "🛒", ExpenseType),
    DefaultCategory("Empréstimo", "#EF4444", "🏦", ExpenseType),
    DefaultCategory("Combustível", "#6B7280", "⛽", ExpenseType),
    DefaultCategory("Farmácia", "#10B981", "💊", ExpenseType),
    DefaultCategory("Roupas", "#F97316", "👕", ExpenseType),
    DefaultCategory("Alimentação", "#FF6B6B", "🍽️", ExpenseType),
    DefaultCategory("Moradia", "#4ECDC4", "🏠", ExpenseType),
    DefaultCategory("Transporte", "#45B7D1", "🚗", ExpenseType),
    DefaultCategory("Lazer", "#96CEB4", "🎮", ExpenseType),
    DefaultCategory("Saúde", "#FFEAA7", "⚕️", ExpenseType),
    DefaultCategory("Educação", "#DDA0DD", "📚", ExpenseType),
    DefaultCategory("Investimentos", "#98D8C8", "💰", ExpenseType),
    DefaultCategory("Outros", "#F7DC6F", "📦", BothTypes)
  ]

  predicate ForIncome(c: DefaultCategory)
  {
    c.kind == IncomeType || c.kind == BothTypes
  }

  predicate ForExpenses(c: DefaultCategory)
  {
    c.kind == ExpenseType || c.kind == BothTypes
  }

  /**
   * `getCategoriesByType`: 'income' keeps the income and both-type categories,
   * 'expense' the expense and both-type ones, and any other argument yields the table.
   */
  function CategoriesByType(t: string): (r: seq<DefaultCategory>)
    ensures t == "income" ==> forall c :: c in r <==> c in DefaultCategories && ForIncome(c)
    ensures t == "expense" ==> forall c :: c in r <==> c in DefaultCategories && ForExpenses(c)
    ensures t != "income" && t != "expense" ==> r == DefaultCategories
    ensures IsSubsequence(r, DefaultCategories)
  {
    if t == "income" then Filter(DefaultCategories, ForIncome)
    else if t == "expense" then Filter(DefaultCategories, ForExpenses)
    else
      IsSubsequenceRefl(DefaultCategories);
      DefaultCategories
  }

  /** The both-type 'Outros' entry, the last of the table. */
  lemma OthersEntry()
    ensures DefaultCategories[15].name == "Outros" && DefaultCategories[15].kind == BothTypes
  {
  }

  /** 'Outros' is offered for income. */
  lemma OthersOfferedForIncome()
    ensures exists c :: c in CategoriesByType("income") && c.name == "Outros"
  {
    OthersEntry();
    assert DefaultCategories[15] in CategoriesByType("income");
  }

  /** 'Outros' is offered for expenses. */
  lemma OthersOfferedForExpenses()
    ensures exists c :: c in CategoriesByType("expense") && c.name == "Outros"
  {
    OthersEntry();
    assert DefaultCategories[15] in CategoriesByType("expense");
  }

  /** Every category of the table is offered for at least one of the two types. */
  lemma EveryCategoryOffered(c: DefaultCategory)
    requires c in DefaultCategories
    ensures c in CategoriesByType("income") || c in CategoriesByType("expense")
  {
  }

  /** The two filtered lists overlap in the both-type categories alone. */
  lemma SharedCategoriesAreBoth(c: DefaultCategory)
    ensures c in CategoriesByType("income") && c in CategoriesByType("expense")
        <==> c in DefaultCategories && c.kind == BothTypes
  {
  }
}
