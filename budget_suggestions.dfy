/**
 * Suggested monthly budget amounts per category name, with a fallback amount for
 * categories the table does not list.
 */
module BudgetSuggestions {
  import opened Base
  import Categories

  datatype Period = Monthly

  datatype DefaultBudget = DefaultBudget(categoryName: string, amount: int, period: Period, icon: string)

  /** `defaultBudgets`. */
  const DefaultBudgets: seq<DefaultBudget> := [
    DefaultBudget("Alimentação", 800, Monthly, "🍽️"),
    DefaultBudget("Moradia", 1200, Monthly, "🏠"),
    DefaultBudget("Transporte", 400, Monthly, "🚗"),
    DefaultBudget("Saúde", 300, Monthly, "⚕️"),
    DefaultBudget("Lazer", 200, Monthly, "🎮"),
    DefaultBudget("Educação", 150, Monthly, "📚"),
    DefaultBudget("Roupas", 100, Monthly, "👕"),
    DefaultBudget("Outros", 250, Monthly, "📦")
  ]

  /** The amount suggested for a category the table does not list. */
  const FallbackAmount := 500

  /** `Array.prototype.find`: the index of the first entry named `name`, if any. */
  function FindBudget(bs: seq<DefaultBudget>, name: string): (r: Option<nat>)
    ensures r.None? <==> forall k :: 0 <= k < |bs| ==> bs[k].categoryName != name
    ensures r.Some? ==> r.value < |bs| && bs[r.value].categoryName == name
    ensures r.Some? ==> forall k :: 0 <= k < r.value ==> bs[k].categoryName != name
    decreases |bs|
  {
    if bs == [] then None
    else if bs[0].categoryName == name then Some(0)
    else
      var rest := FindBudget(bs[1..], name);
      if rest.None? then None else Some(rest.value + 1)
  }

  /** Entry `k` is the first of `bs` named `name`. */
  predicate FirstNamedIn(bs: seq<DefaultBudget>, k: int, name: string)
  {
    && 0 <= k < |bs|
    && bs[k].categoryName == name
    && forall j :: 0 <= j < k ==> bs[j].categoryName != name
  }

  /** The amount of the first entry of `bs` with the name, else the fallback. */
  function SuggestionIn(bs: seq<DefaultBudget>, name: string): (r: int)
    ensures (forall k :: 0 <= k < |bs| ==> bs[k].categoryName != name) ==> r == FallbackAmount
    ensures forall k :: FirstNamedIn(bs, k, name) ==> r == bs[k].amount
  {
    var found := FindBudget(bs, name);
    if found.Some? then bs[found.value].amount else FallbackAmount
  }

  /** `getBudgetSuggestion`: the amount of the first entry with the name, else 500. */
  function BudgetSuggestion(name: string): (r: int)
    ensures (forall k :: 0 <= k < |DefaultBudgets| ==> DefaultBudgets[k].categoryName != name) ==> r == FallbackAmount
    ensures forall k :: FirstNamedIn(DefaultBudgets, k, name) ==> r == DefaultBudgets[k].amount
  {
    SuggestionIn(DefaultBudgets, name)
  }

  /** Every suggestion is a positive amount. */
  lemma {:induction false} SuggestionPositive(name: string)
    ensures BudgetSuggestion(name) > 0
  {
    var found := FindBudget(DefaultBudgets, name);
    if found.Some? {
      var k := found.value;
      assert k in {0, 1, 2, 3, 4, 5, 6, 7};
      assert DefaultBudgets[k].amount >= 100;
    }
  }

  /** Each listed category name occurs once, so the first match is the only one. */
  lemma NamesDistinct()
    ensures forall i, j :: 0 <= i < j < |DefaultBudgets| ==> DefaultBudgets[i].categoryName != DefaultBudgets[j].categoryName
  {
  }

  /** Every category with a suggested budget is one the expense form offers. */
  lemma SuggestionsAreExpenseCategories(k: nat)
    requires k < |DefaultBudgets|
    ensures exists c :: c in Categories.CategoriesByType("expense") && c.name == DefaultBudgets[k].categoryName
  {
    var names := ["Alimentação", "Moradia", "Transporte", "Saúde", "Lazer", "Educação", "Roupas", "Outros"];
    var at := [8, 9, 10, 12, 11, 13, 7, 15];
    var c := Categories.DefaultCategories[at[k]];
    assert c.name == names[k] == DefaultBudgets[k].categoryName;
    assert Categories.ForExpenses(c);
    assert c in Categories.CategoriesByType("expense");
  }
}
