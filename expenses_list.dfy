/** The general-expenses page: the description search, the total over every
    expense, the add form and the pages of ten. */
module ExpensesList {
  import opened Seqs
  import opened Records
  import opened Store
  import opened Pagination

  const PAGE_SIZE: nat := 10

  function DescriptionMatches(term: string): GeneralExpense -> bool {
    (e: GeneralExpense) => Contains(Lower(e.description), Lower(term))
  }

  function DescriptionMisses(term: string): GeneralExpense -> bool {
    (e: GeneralExpense) => !Contains(Lower(e.description), Lower(term))
  }

  /** The expenses whose description contains the term, ignoring letter case. */
  function FilteredExpenses(expenses: seq<GeneralExpense>, searchTerm: string): (r: seq<GeneralExpense>)
    ensures forall e :: e in r <==> e in expenses && Contains(Lower(e.description), Lower(searchTerm))
    ensures IsSubseq(r, expenses)
  {
    FilterMembers(expenses, DescriptionMatches(searchTerm));
    FilterIsSubseq(expenses, DescriptionMatches(searchTerm));
    Filter(expenses, DescriptionMatches(searchTerm))
  }

  /** The summary card's total: every general expense, whatever the search. */
  function TotalExpenses(expenses: seq<GeneralExpense>): int {
    Sum(expenses, GeneralExpenseAmount)
  }

  /** The total is the listed expenses plus the ones the search hides. */
  lemma TotalCountsHiddenExpenses(expenses: seq<GeneralExpense>, searchTerm: string)
    ensures TotalExpenses(expenses) ==
      Sum(FilteredExpenses(expenses, searchTerm), GeneralExpenseAmount)
      + Sum(Filter(expenses, DescriptionMisses(searchTerm)), GeneralExpenseAmount)
  {
    SumFilterSplit(expenses, DescriptionMatches(searchTerm), DescriptionMisses(searchTerm), GeneralExpenseAmount);
  }

  /** An empty search lists every expense, so the list and the total agree. */
  lemma EmptySearchListsAll(expenses: seq<GeneralExpense>)
    ensures FilteredExpenses(expenses, "") == expenses
    ensures Sum(FilteredExpenses(expenses, ""), GeneralExpenseAmount) == TotalExpenses(expenses)
  {
    forall e | e in expenses ensures DescriptionMatches("")(e) {
      ContainsEmpty(Lower(e.description));
    }
    FilterAll(expenses, DescriptionMatches(""));
  }

  // ---------------------------------------------------------------------------
  // The add form

  /** The form fields; `amount` is the value of the amount text. */
  datatype ExpenseForm = ExpenseForm(description: string, amountText: string, amount: int, date: string)

  function BlankForm(today: string): ExpenseForm {
    ExpenseForm("", "", 0, today)
  }

  datatype Submitted = Submitted(expenses: seq<GeneralExpense>, form: ExpenseForm)

  /** `handleSubmit`: adds the form as a new expense, with no check on its
      fields, then clears the form to today's date. */
  function Submit(expenses: seq<GeneralExpense>, form: ExpenseForm, newId: string, now: nat, today: string): (r: Submitted)
    ensures |r.expenses| == |expenses| + 1 && r.expenses[..|expenses|] == expenses
    ensures r.expenses[|expenses|] ==
      GeneralExpense(newId, form.description, form.amount, form.date, now, 0)
    ensures r.form == BlankForm(today)
  {
    var record := GeneralExpense("", form.description, form.amount, form.date, 0, 0);
    Submitted(expenses + [NewGeneralExpense(record, newId, now)], BlankForm(today))
  }

  /** A submit raises the total by the amount entered. */
  lemma SubmitRaisesTotal(expenses: seq<GeneralExpense>, form: ExpenseForm, newId: string, now: nat, today: string)
    ensures TotalExpenses(Submit(expenses, form, newId, now, today).expenses) == TotalExpenses(expenses) + form.amount
  {
    var r := Submit(expenses, form, newId, now, today).expenses;
    assert r == expenses + [r[|expenses|]];
    SumConcat(expenses, [r[|expenses|]], GeneralExpenseAmount);
  }

  // ---------------------------------------------------------------------------
  // Pages

  /** The rows the table shows: the page of matching expenses. */
  function VisibleExpenses(expenses: seq<GeneralExpense>, searchTerm: string, currentPage: int): (r: seq<GeneralExpense>)
    ensures |r| <= PAGE_SIZE
    ensures forall e :: e in r ==> e in expenses && Contains(Lower(e.description), Lower(searchTerm))
  {
    Page(FilteredExpenses(expenses, searchTerm), currentPage, PAGE_SIZE)
  }

  /** A new search goes back to page 1, which shows the first ten matches. */
  lemma NewSearchShowsFirstMatches(expenses: seq<GeneralExpense>, searchTerm: string)
    ensures var f := FilteredExpenses(expenses, searchTerm);
      VisibleExpenses(expenses, searchTerm, 1) == f[..Min(PAGE_SIZE, |f|)]
  {
    var f := FilteredExpenses(expenses, searchTerm);
    PageWindow(f, 1, PAGE_SIZE);
  }
}
