/** The expense ledger: the `Expense` record, the add rule, removal by id, the
    demo entries and the derived views (category filter and totals). */
module Ledger {
  import opened Wrappers
  import opened Text
  import opened Money

  /** One recorded expense. `amount` is in cents. `id` is whatever the caller
      supplied; nothing keeps ids unique. `category` is free text: entries
      read back from storage may carry any string. */
  datatype Expense = Expense(id: string, title: string, amount: int, date: string, category: string)

  /** The wildcard filter value and the category the form starts with. */
  const All: string := "All"
  const DefaultCategory: string := "Food"

  // ---------------------------------------------------------------------
  // Adding

  /** Why the add form returns without adding anything: the title is nothing
      but whitespace, the amount is NaN, or the date is empty. */
  predicate Rejected(title: string, parsed: Option<Decimal>, date: string)
    ensures Rejected(title, parsed, date) <==> (AllTrimmable(title) || parsed.None? || date == [])
  {
    TrimIsTrimOf(title);
    Trim(title) == [] || parsed.None? || date == []
  }

  /** The expense the add form builds from its fields, or `None` when it
      returns early: the trimmed title is empty, the amount text is not a
      number, or no date is set. Negative amounts and any category pass. */
  function NewExpense(id: string, title: string, parsed: Option<Decimal>, date: string, category: string): (r: Option<Expense>)
    ensures r.None? <==> (AllTrimmable(title) || parsed.None? || date == [])
    ensures r.Some? ==> && r.value.id == id && r.value.title != []
                        && r.value.date == date && r.value.category == category
  {
    TrimIsTrimOf(title);
    if Rejected(title, parsed, date) then None
    else Some(Expense(id, Trim(title), RoundToCents(parsed.value), date, category))
  }

  /** The stored title and amount of a new expense are the trimmed title and
      the amount rounded to cents, each as its characterisation determines it.
      (Kept out of `NewExpense`'s contract, where the existential in `IsTrimOf`
      would be instantiated in every proof that builds an expense.) */
  lemma NewExpenseFields(id: string, title: string, parsed: Option<Decimal>, date: string, category: string)
    requires NewExpense(id, title, parsed, date, category).Some?
    ensures var e := NewExpense(id, title, parsed, date, category).value;
            IsTrimOf(e.title, title) && IsRoundedCents(parsed.value, e.amount)
  {
    TrimIsTrimOf(title);
  }

  // ---------------------------------------------------------------------
  // Removing

  /** `list.filter(e => e.id !== id)`. */
  function WithoutId(list: seq<Expense>, id: string): (r: seq<Expense>)
    ensures |r| <= |list|
    ensures forall e :: e in r ==> e in list && e.id != id
  {
    if list == [] then []
    else (if list[0].id != id then [list[0]] else []) + WithoutId(list[1..], id)
  }

  predicate HasId(list: seq<Expense>, id: string) {
    exists k :: 0 <= k < |list| && list[k].id == id
  }

  /** Removal keeps every entry with another id, and nothing else, as many
      times as it occurs. */
  lemma {:induction false} WithoutIdCount(list: seq<Expense>, id: string, e: Expense)
    ensures multiset(WithoutId(list, id))[e] == if e.id == id then 0 else multiset(list)[e]
  {
    if list != [] {
      WithoutIdCount(list[1..], id, e);
      assert list == [list[0]] + list[1..];
    }
  }

  /** Concatenation regroups freely. */
  lemma AppendAssoc(x: seq<Expense>, y: seq<Expense>, z: seq<Expense>)
    ensures x + (y + z) == (x + y) + z
  {
  }

  /** Removal keeps the surviving entries in their order: it distributes over
      concatenation. */
  lemma {:induction false} WithoutIdAppend(a: seq<Expense>, b: seq<Expense>, id: string)
    ensures WithoutId(a + b, id) == WithoutId(a, id) + WithoutId(b, id)
  {
    if a == [] {
      assert a + b == b;
    } else {
      assert (a + b)[0] == a[0] && (a + b)[1..] == a[1..] + b;
      var head := if a[0].id != id then [a[0]] else [];
      calc {
        WithoutId(a + b, id);
        head + WithoutId(a[1..] + b, id);
        { WithoutIdAppend(a[1..], b, id); }
        head + (WithoutId(a[1..], id) + WithoutId(b, id));
        { AppendAssoc(head, WithoutId(a[1..], id), WithoutId(b, id)); }
        (head + WithoutId(a[1..], id)) + WithoutId(b, id);
        WithoutId(a, id) + WithoutId(b, id);
      }
    }
  }

  /** An id that no entry carries leaves the list as it is. */
  lemma {:induction false} WithoutAbsentId(list: seq<Expense>, id: string)
    requires !HasId(list, id)
    ensures WithoutId(list, id) == list
  {
    if list != [] {
      assert !HasId(list[1..], id) by {
        forall k | 0 <= k < |list[1..]| ensures list[1..][k].id != id {
          assert list[1..][k] == list[k + 1];
        }
      }
      WithoutAbsentId(list[1..], id);
    }
  }

  /** Removing an id twice is removing it once. */
  lemma WithoutIdIdempotent(list: seq<Expense>, id: string)
    ensures WithoutId(WithoutId(list, id), id) == WithoutId(list, id)
  {
    var r := WithoutId(list, id);
    assert !HasId(r, id) by {
      forall k | 0 <= k < |r| ensures r[k].id != id {
        assert r[k] in r;
      }
    }
    WithoutAbsentId(r, id);
  }

  // ---------------------------------------------------------------------
  // Demo data

  /** The four entries "Load demo data" puts in front of the list: $138.18
      in all, each with its own id. */
  function Demo(): (r: seq<Expense>)
    ensures |r| == 4 && SumOfAmounts(r) == 13818
    ensures forall i, j :: 0 <= i < j < |r| ==> r[i].id != r[j].id
    ensures forall e :: e in r ==> e.amount > 0
  {
    [ Expense("d1", "Groceries", 4235, "2026-01-05", "Food"),
      Expense("d2", "Bus pass", 2500, "2026-01-06", "Transport"),
      Expense("d3", "Movie", 1200, "2026-01-07", "Entertainment"),
      Expense("d4", "Electricity", 5883, "2026-01-02", "Utilities") ]
  }

  // ---------------------------------------------------------------------
  // Derived views

  /** Whether the list view shows `e` under `filter`. */
  predicate Shown(e: Expense, filter: string) {
    filter == All || e.category == filter
  }

  /** `expenses.filter(exp => filter === 'All' ? true : exp.category === filter)`. */
  function Filtered(list: seq<Expense>, filter: string): (r: seq<Expense>)
    ensures |r| <= |list|
    ensures forall e :: e in r ==> e in list && Shown(e, filter)
    ensures filter == All ==> r == list
  {
    if list == [] then []
    else (if Shown(list[0], filter) then [list[0]] else []) + Filtered(list[1..], filter)
  }

  /** The view holds each shown entry as often as the list does, and no other. */
  lemma {:induction false} FilteredCount(list: seq<Expense>, filter: string, e: Expense)
    ensures multiset(Filtered(list, filter))[e] == if Shown(e, filter) then multiset(list)[e] else 0
  {
    if list != [] {
      FilteredCount(list[1..], filter, e);
      assert list == [list[0]] + list[1..];
    }
  }

  /** The view keeps the list's order: filtering distributes over
      concatenation. */
  lemma {:induction false} FilteredAppend(a: seq<Expense>, b: seq<Expense>, filter: string)
    ensures Filtered(a + b, filter) == Filtered(a, filter) + Filtered(b, filter)
  {
    if a == [] {
      assert a + b == b;
    } else {
      assert (a + b)[0] == a[0] && (a + b)[1..] == a[1..] + b;
      var head := if Shown(a[0], filter) then [a[0]] else [];
      calc {
        Filtered(a + b, filter);
        head + Filtered(a[1..] + b, filter);
        { FilteredAppend(a[1..], b, filter); }
        head + (Filtered(a[1..], filter) + Filtered(b, filter));
        { AppendAssoc(head, Filtered(a[1..], filter), Filtered(b, filter)); }
        (head + Filtered(a[1..], filter)) + Filtered(b, filter);
        Filtered(a, filter) + Filtered(b, filter);
      }
    }
  }

  /** The sum of the amounts of `list`, in cents, taken from the front: the
      reference the folds below are measured against. */
  ghost function SumOfAmounts(list: seq<Expense>): int {
    if list == [] then 0 else list[0].amount + SumOfAmounts(list[1..])
  }

  /** `list.reduce((s, e) => s + e.amount, acc)`: a left-to-right fold, which
      adds the amounts to its start value. */
  function SumFrom(acc: int, list: seq<Expense>): (r: int)
    ensures r == acc + SumOfAmounts(list)
    decreases |list|
  {
    if list == [] then acc else SumFrom(acc + list[0].amount, list[1..])
  }

  /** The fold from 0 that `total` and `overall` compute. */
  function Sum(list: seq<Expense>): (r: int)
    ensures r == SumOfAmounts(list)
    ensures list == [] ==> r == 0
  {
    SumFrom(0, list)
  }

  /** The sum of a list with one more entry in front grows by that entry. */
  lemma SumCons(e: Expense, list: seq<Expense>)
    ensures Sum([e] + list) == e.amount + Sum(list)
  {
    assert ([e] + list)[1..] == list;
  }

  /** The sum of two lists put together is the sum of their sums. */
  lemma {:induction false} SumAppend(a: seq<Expense>, b: seq<Expense>)
    ensures Sum(a + b) == Sum(a) + Sum(b)
  {
    if a != [] {
      SumAppend(a[1..], b);
      assert a + b == [a[0]] + (a[1..] + b);
      SumCons(a[0], a[1..] + b);
      assert a == [a[0]] + a[1..];
      SumCons(a[0], a[1..]);
    } else {
      assert a + b == b;
    }
  }

  /** Under the wildcard filter the filtered total is the overall total. */
  lemma TotalAllIsOverall(list: seq<Expense>)
    ensures Sum(Filtered(list, All)) == Sum(list)
  {
  }

  /** A new entry in front of the list raises the filtered total by its
      amount when the filter shows it, and leaves it alone otherwise. */
  lemma TotalCons(e: Expense, list: seq<Expense>, filter: string)
    ensures Sum(Filtered([e] + list, filter))
            == (if Shown(e, filter) then e.amount else 0) + Sum(Filtered(list, filter))
  {
    FilteredAppend([e], list, filter);
    assert Filtered([e], filter) == if Shown(e, filter) then [e] else [];
    SumAppend(Filtered([e], filter), Filtered(list, filter));
    if Shown(e, filter) {
      SumCons(e, []);
    }
  }

  /** Loading the demo data raises the overall total by $138.18. */
  lemma DemoOverall(list: seq<Expense>)
    ensures Sum(Demo() + list) == Sum(list) + 13818
  {
    SumAppend(Demo(), list);
  }

  /** Of the demo entries the "Food" filter shows only the $42.35 groceries. */
  lemma DemoFoodTotal()
    ensures Filtered(Demo(), "Food") == [Demo()[0]]
    ensures Sum(Filtered(Demo(), "Food")) == 4235
  {
    var d := Demo();
    assert d[1..][1..][1..][1..] == [];
    assert Sum([d[0]]) == d[0].amount == 4235;
  }

  /** The form turns "Coffee", "3.5", any non-empty date and "Food" into one entry of
      350 cents with the title as typed. */
  lemma CoffeeAdded(id: string, date: string)
    requires date != []
    ensures NewExpense(id, "Coffee", Some(Decimal(35, 1)), date, DefaultCategory)
            == Some(Expense(id, "Coffee", 350, date, DefaultCategory))
  {
    TrimUnpadded("Coffee");
    assert !Rejected("Coffee", Some(Decimal(35, 1)), date);
    assert RoundToCents(Decimal(35, 1)) == 350 by {
      assert Pow10(1) == 10;
    }
  }

  /** Adding "Coffee" at "3.5" to an empty ledger gives one $3.50 entry:
      $3.50 in total, $0.00 under "Transport". */
  lemma CoffeeScenario(id: string)
    ensures var r := NewExpense(id, "Coffee", Some(Decimal(35, 1)), "2026-02-01", DefaultCategory);
            && r.Some? && r.value.title == "Coffee" && r.value.amount == 350
            && Sum(Filtered([r.value], All)) == 350
            && Sum(Filtered([r.value], "Transport")) == 0
  {
    CoffeeAdded(id, "2026-02-01");
    var e := Expense(id, "Coffee", 350, "2026-02-01", DefaultCategory);
    assert Filtered([e], "Transport") == [] by {
      assert !Shown(e, "Transport");
    }
    assert Sum([e]) == 350;
  }
}
