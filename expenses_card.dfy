/** The dashboard's expenses card: the total of the listed expenses and a small form that
    records a new expense, dated now, once its description and amount pass the checks. */
module ExpensesCard {
  import opened Seqs
  import opened Text
  import opened Records

  /** Why an expense was refused. */
  datatype ExpenseError = MissingDescription | InvalidAmount

  function ExpenseAmount(e: Expense): int { e.amount }

  /** `totalExpenses`: the sum of the listed amounts. */
  function TotalExpenses(expenses: seq<Expense>): int
  {
    SumOf(expenses, ExpenseAmount)
  }

  /** The total of a longer list is the totals of its parts added; with positive amounts (the
      only ones the form records) it is never negative and grows with each expense. */
  lemma {:induction false} TotalExpensesSpec(expenses: seq<Expense>, more: seq<Expense>)
    ensures TotalExpenses(expenses + more) == TotalExpenses(expenses) + TotalExpenses(more)
    ensures (forall i :: 0 <= i < |expenses| ==> expenses[i].amount > 0) ==> TotalExpenses(expenses) >= 0
    ensures TotalExpenses([]) == 0
  {
    SumOfAppend(expenses, more, ExpenseAmount);
    if forall i :: 0 <= i < |expenses| ==> expenses[i].amount > 0 {
      SumOfNonNegative(expenses, ExpenseAmount);
    }
  }

  /** The checks of `handleAddExpense`, in order: a blank description first, then an amount
      that is not a number (`None`) or not positive. */
  function CheckExpense(description: string, amount: Option<int>): (r: Option<ExpenseError>)
    ensures r == Some(MissingDescription) <==> IsBlank(description)
    ensures r == Some(InvalidAmount) <==> !IsBlank(description) && (amount.None? || amount.value <= 0)
    ensures r.None? <==> !IsBlank(description) && amount.Some? && amount.value > 0
  {
    TrimEmptyIffBlank(description);
    if Trim(description) == [] then Some(MissingDescription)
    else if amount.None? || amount.value <= 0 then Some(InvalidAmount)
    else None
  }

  class Card {
    /** The expenses the dashboard passes in. */
    var expenses: seq<Expense>
    /** Every expense the card has sent to the expense store, oldest first. */
    var recorded: seq<Expense>
    var showAddExpense: bool
    var description: string
    var amountText: string

    /** Every recorded expense passed the checks. */
    predicate Valid()
      reads this
    {
      forall i :: 0 <= i < |recorded| ==> recorded[i].amount > 0 && !IsBlank(recorded[i].description)
    }

    constructor(expenses: seq<Expense>)
      ensures Valid()
      ensures this.expenses == expenses && recorded == [] && !showAddExpense
      ensures description == "" && amountText == ""
    {
      this.expenses := expenses;
      recorded := [];
      showAddExpense := false;
      description := "";
      amountText := "";
    }

    /** The figure the card shows. */
    function Total(): int
      reads this
    {
      TotalExpenses(expenses)
    }

    /** The "Añadir" button opens the form. */
    method Open()
      modifies this
      ensures showAddExpense
      ensures expenses == old(expenses) && recorded == old(recorded)
      ensures description == old(description) && amountText == old(amountText)
    {
      showAddExpense := true;
    }

    /** The two inputs store what was typed. */
    method EditForm(description': string, amountText': string)
      modifies this
      ensures description == description' && amountText == amountText'
      ensures expenses == old(expenses) && recorded == old(recorded) && showAddExpense == old(showAddExpense)
    {
      description := description';
      amountText := amountText';
    }

    /** `handleAddExpense`: `amount` is what `parseFloat` made of the amount text and `now` the
        clock. A refused form is left as it is and nothing is recorded; an accepted one records
        exactly one expense with the typed description, that amount and the current time, which
        adds its amount to the recorded total, and the form is cleared and closed. */
    method HandleAddExpense(amount: Option<int>, now: int) returns (r: Option<ExpenseError>)
      requires Valid()
      modifies this
      ensures Valid()
      ensures r == CheckExpense(old(description), amount)
      ensures r.Some? ==> recorded == old(recorded) && showAddExpense == old(showAddExpense)
      ensures r.Some? ==> description == old(description) && amountText == old(amountText)
      ensures r.None? ==> recorded == old(recorded) + [Expense(old(description), amount.value, now)]
      ensures r.None? ==> description == "" && amountText == "" && !showAddExpense
      ensures r.None? ==> TotalExpenses(recorded) == TotalExpenses(old(recorded)) + amount.value
      ensures expenses == old(expenses)
    {
      r := CheckExpense(description, amount);
      if r.Some? {
        return;
      }
      var expense := Expense(description, amount.value, now);
      TotalExpensesSpec(recorded, [expense]);
      assert TotalExpenses([expense]) == expense.amount by {
        assert [expense][1..] == [];
      }
      recorded := recorded + [expense];
      description := "";
      amountText := "";
      showAddExpense := false;
    }

    /** The cancel button: the form is cleared and closed, nothing is recorded. */
    method Cancel()
      modifies this
      ensures !showAddExpense && description == "" && amountText == ""
      ensures expenses == old(expenses) && recorded == old(recorded)
    {
      showAddExpense := false;
      description := "";
      amountText := "";
    }
  }
}
