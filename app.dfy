/** The `App` component's state and handlers: the expense list, the add form's
    fields and the category filter, changed in place by the form setters, the
    add and delete handlers and the two buttons under the form. */
module App {
  import opened Wrappers
  import opened Text
  import opened Money
  import opened Ledger

  class Tracker {
    /** The stored list, newest first. */
    var expenses: seq<Expense>
    /** The add form's fields, as typed, and the list's category filter. */
    var title: string
    var amount: string
    var date: string
    var category: string
    var filter: string

    /** Startup: `stored` is the list read back from the browser store, `None`
        when the key is missing or empty or its text fails to parse. The form
        starts blank on "Food" and the filter on "All". */
    constructor (stored: Option<seq<Expense>>)
      ensures stored.Some? ==> expenses == stored.value
      ensures stored.None? ==> expenses == []
      ensures title == [] && amount == [] && date == []
      ensures category == DefaultCategory && filter == All
    {
      expenses := stored.GetOr([]);
      title, amount, date := "", "", "";
      category, filter := DefaultCategory, All;
    }

    /** The form's `onChange` setters and its Reset button. */
    method SetTitle(v: string)
      modifies this
      ensures title == v
      ensures expenses == old(expenses) && amount == old(amount) && date == old(date)
      ensures category == old(category) && filter == old(filter)
    {
      title := v;
    }

    method SetAmount(v: string)
      modifies this
      ensures amount == v
      ensures expenses == old(expenses) && title == old(title) && date == old(date)
      ensures category == old(category) && filter == old(filter)
    {
      amount := v;
    }

    method SetDate(v: string)
      modifies this
      ensures date == v
      ensures expenses == old(expenses) && title == old(title) && amount == old(amount)
      ensures category == old(category) && filter == old(filter)
    {
      date := v;
    }

    method SetCategory(v: string)
      modifies this
      ensures category == v
      ensures expenses == old(expenses) && title == old(title) && amount == old(amount)
      ensures date == old(date) && filter == old(filter)
    {
      category := v;
    }

    method SetFilter(v: string)
      modifies this
      ensures filter == v
      ensures expenses == old(expenses) && title == old(title) && amount == old(amount)
      ensures date == old(date) && category == old(category)
    {
      filter := v;
    }

    method ResetForm()
      modifies this
      ensures title == [] && amount == [] && date == [] && category == DefaultCategory
      ensures expenses == old(expenses) && filter == old(filter)
    {
      title, amount, date, category := "", "", "", DefaultCategory;
    }

    /** The add form's submit handler. `parseFloat` stands for the number the
        amount text parses to (`None` for NaN) and `id` for the clock reading
        used as the new id. A rejected submission changes nothing; an accepted
        one puts the new expense in front of the list and resets the form. */
    method Add(id: string, parseFloat: string -> Option<Decimal>)
      modifies this
      ensures filter == old(filter)
      ensures Rejected(old(title), parseFloat(old(amount)), old(date)) ==>
                && expenses == old(expenses)
                && title == old(title) && amount == old(amount)
                && date == old(date) && category == old(category)
      ensures !Rejected(old(title), parseFloat(old(amount)), old(date)) ==>
                && |expenses| == |old(expenses)| + 1
                && expenses[1..] == old(expenses)
                && expenses[0] == Expense(id, Trim(old(title)), RoundToCents(parseFloat(old(amount)).value),
                                          old(date), old(category))
                && title == [] && amount == [] && date == [] && category == DefaultCategory
                && Overall() == old(Overall()) + expenses[0].amount
      ensures NewExpense(id, old(title), parseFloat(old(amount)), old(date), old(category))
              == if Rejected(old(title), parseFloat(old(amount)), old(date)) then None else Some(expenses[0])
    {
      var r := NewExpense(id, title, parseFloat(amount), date, category);
      if r.None? {
        return;
      }
      SumCons(r.value, expenses);
      expenses := [r.value] + expenses;
      title, amount, date, category := "", "", "", DefaultCategory;
    }

    /** A row's Delete button: every entry with this id goes. */
    method Remove(id: string)
      modifies this
      ensures expenses == WithoutId(old(expenses), id)
      ensures title == old(title) && amount == old(amount) && date == old(date)
      ensures category == old(category) && filter == old(filter)
    {
      expenses := WithoutId(expenses, id);
    }

    /** "Load demo data": the four demo entries go in front of the list. */
    method LoadDemo()
      modifies this
      ensures expenses == Demo() + old(expenses)
      ensures Overall() == old(Overall()) + 13818
      ensures title == old(title) && amount == old(amount) && date == old(date)
      ensures category == old(category) && filter == old(filter)
    {
      DemoOverall(expenses);
      expenses := Demo() + expenses;
    }

    /** "Clear all", once the user has confirmed it. */
    method ClearAll()
      modifies this
      ensures expenses == [] && Overall() == 0
      ensures title == old(title) && amount == old(amount) && date == old(date)
      ensures category == old(category) && filter == old(filter)
    {
      expenses := [];
    }

    /** `filtered`: the entries the list shows under the current filter. */
    function FilteredView(): (r: seq<Expense>)
      reads this
      ensures |r| <= |expenses|
      ensures forall e :: e in r ==> e in expenses && Ledger.Shown(e, filter)
      ensures filter == All ==> r == expenses
    {
      Filtered(expenses, filter)
    }

    /** `total`: the sum of the shown amounts, in cents. */
    function Total(): (r: int)
      reads this
      ensures r == SumOfAmounts(FilteredView())
      ensures filter == All ==> r == Overall()
    {
      TotalAllIsOverall(expenses);
      Sum(Filtered(expenses, filter))
    }

    /** `overall`: the `reduce` fold over every entry, which is the sum of
        every amount, in cents; 0 for an empty list. */
    function Overall(): (r: int)
      reads this
      ensures r == SumOfAmounts(expenses)
      ensures expenses == [] ==> r == 0
    {
      Sum(expenses)
    }
  }
}
