# Expense tracker ledger, in Dafny

This project models the expense ledger kept by the `App` component of a
browser expense tracker (`src/App.tsx`). The ledger is an ordered list of
expenses, newest first, beside the add form's fields (`title`, `amount`,
`date`, `category`) and the list's category `filter`. The handlers change
that state in place:

- the add form validates its fields, trims the title, rounds the amount to
  cents and puts the new expense in front;
- a row's Delete button removes every entry with that id;
- "Load demo data" puts four fixed entries in front;
- "Clear all" empties the list.

The list view and the two totals are derived from that state.

Layout:

- `wrappers.dfy` (`Wrappers`): `Option`, for a stored list that is missing
  or unreadable and for an amount text that is not a number.
- `text.dfy` (`Text`): JavaScript's `String.prototype.trim`, with an
  independent characterisation (`IsTrimOf`) and proofs that the two agree.
- `money.dfy` (`Money`): the parsed amount as an exact decimal and
  `Math.round(amt * 100)` as rounding to the nearest cent, halves toward +∞.
- `ledger.dfy` (`Ledger`): the `Expense` record and the pure rules: building
  a new expense, removal by id, the demo entries, the category filter and the
  sums, with their lemmas.
- `app.dfy` (`App`): class `Tracker`, the component's mutable state and its
  handlers as methods, plus the derived views as functions.

Amounts are integer cents everywhere. The totals are therefore exact sums of
cents.

The model follows the code where it is looser than a ledger might be expected
to be:

- The code accepts negative amounts. `addExpense` only rejects an amount
  that parses to NaN.
- The code does not validate categories. Entries read back from storage may
  carry any string.
- The code does not keep ids unique. Loading the demo data twice repeats
  `d1`..`d4`, and a delete then removes both copies.

## Model

| member | source | states |
|---|---|---|
| `Text.TrimStart` | src/App.tsx:43 | the result is a suffix of the input, everything cut is trimmable, and it does not start with a trimmable character |
| `Text.TrimEnd` | src/App.tsx:43 | the result is a prefix of the input, everything cut is trimmable, and it does not end with a trimmable character |
| `Text.LeadingRun` | src/App.tsx:43 | the length of the longest prefix of trimmable characters: everything before it is trimmable and the character after it is not |
| `Text.TrailingRun` | src/App.tsx:43 | the length of the longest suffix of trimmable characters: everything in it is trimmable and the character before it is not |
| `Text.Trim` | src/App.tsx:43-47 | `title.trim()`: the trailing run cut after the leading run, never longer than the title; its meaning is given by `TrimIsTrimOf` and `TrimUnique` |
| `Text.TrimIsTrimOf` | src/App.tsx:43 | `title.trim()` is a contiguous piece of the title flanked only by ECMAScript whitespace and line terminators, neither starting nor ending with one; it is empty exactly when the title is all whitespace (the `!title.trim()` rejection) |
| `Text.TrimUnique` | src/App.tsx:47 | any string meeting that characterisation is the trim, so the stored title is determined by it |
| `Text.TrimUnpadded` | src/App.tsx:47 | a title that neither starts nor ends with whitespace is stored as typed |
| `Text.TrimIdempotent` | src/App.tsx:47 | trimming a stored title again changes nothing |
| `Money.RoundToCents` | src/App.tsx:48 | `Math.round(amt * 100)` is the whole number of cents c with c - 1/2 <= 100·amt < c + 1/2, so ties go toward +∞ |
| `Money.RoundedCentsUnique` | src/App.tsx:48 | exactly one number of cents meets that bound |
| `Money.RoundWholeCents` | src/App.tsx:48 | an amount that is already whole cents is stored unchanged |
| `Money.RoundAtMostTwoPlaces` | src/App.tsx:48 | an amount typed with at most two decimals keeps its exact value: `units`·10^(2-`places`) cents |
| `Ledger.Rejected` | src/App.tsx:43 | the early return happens exactly when the title is all whitespace, the amount is NaN or the date is empty |
| `Ledger.NewExpense` | src/App.tsx:42-51 | no expense exactly when the title is all whitespace, the amount is NaN or the date is empty; otherwise the expense has the given id, date and category and a non-empty title |
| `Ledger.NewExpenseFields` | src/App.tsx:47-48 | the new expense's title is the trim of the typed title (`IsTrimOf`) and its amount is the parsed amount rounded to cents (`IsRoundedCents`) |
| `Ledger.WithoutId` | src/App.tsx:65 | the result is no longer than the list and every entry in it comes from the list and has another id |
| `Ledger.WithoutIdCount` | src/App.tsx:65 | every entry with another id survives as often as it occurs, and no entry with the id does |
| `Ledger.WithoutIdAppend` | src/App.tsx:65 | removal keeps the surviving entries in their order (it distributes over concatenation) |
| `Ledger.WithoutAbsentId` | src/App.tsx:65 | removing an id no entry carries leaves the list unchanged |
| `Ledger.WithoutIdIdempotent` | src/App.tsx:65 | removing the same id twice is removing it once |
| `Ledger.Filtered` | src/App.tsx:60 | the view is no longer than the list, holds only list entries the filter shows, and is the whole list under "All" |
| `Ledger.FilteredCount` | src/App.tsx:60 | every shown entry appears in the view as often as in the list, and no other entry does |
| `Ledger.FilteredAppend` | src/App.tsx:60 | the view keeps the list's order (filtering distributes over concatenation) |
| `Ledger.SumFrom` | src/App.tsx:61-62 | the `reduce` fold from a start value is that value plus the sum of the amounts |
| `Ledger.Sum` | src/App.tsx:61-62 | the fold from 0 is the sum of the amounts, and 0 for an empty list |
| `Ledger.SumCons` | src/App.tsx:62 | one more entry in front raises the sum by its amount |
| `Ledger.SumAppend` | src/App.tsx:61-62 | the sum of two lists put together is the sum of their sums |
| `Ledger.TotalAllIsOverall` | src/App.tsx:60-62 | under "All" `total` equals `overall` |
| `Ledger.TotalCons` | src/App.tsx:60-61 | a new front entry raises `total` by its amount when the filter shows it, and not otherwise |
| `Ledger.Demo` | src/App.tsx:127-132 | the demo list has four entries with distinct ids and positive amounts, 13818 cents ($138.18) in all |
| `Ledger.DemoOverall` | src/App.tsx:127-133 | loading the demo entries raises `overall` by 13818 cents ($138.18) |
| `Ledger.DemoFoodTotal` | src/App.tsx:127-132 | of the demo entries only the $42.35 groceries show under "Food" |
| `Ledger.CoffeeAdded` | src/App.tsx:42-51 | "Coffee", "3.5", any non-empty date and "Food" become exactly the entry titled "Coffee" of 350 cents with that date and category |
| `Ledger.CoffeeScenario` | src/App.tsx:42-61 | adding "Coffee" at "3.5" on "2026-02-01" with category "Food" gives one 350-cent entry: total 350 under "All", 0 under "Transport" (`Tracker.Add` puts exactly `NewExpense`'s entry in front) |
| `App.Tracker.constructor` | src/App.tsx:21-34 | the list is the stored list when one was read back, empty otherwise; the form is blank on "Food" and the filter is "All" |
| `App.Tracker.SetTitle` | src/App.tsx:82 | sets the title field and nothing else |
| `App.Tracker.SetAmount` | src/App.tsx:86 | sets the amount text and nothing else |
| `App.Tracker.SetDate` | src/App.tsx:93 | sets the date field and nothing else |
| `App.Tracker.SetCategory` | src/App.tsx:97 | sets the category field and nothing else |
| `App.Tracker.SetFilter` | src/App.tsx:119 | sets the filter and nothing else |
| `App.Tracker.ResetForm` | src/App.tsx:107 | clears title, amount and date and sets category to "Food", leaving the list and filter |
| `App.Tracker.Add` | src/App.tsx:40-58 | a rejected submission changes nothing; an accepted one makes the list one longer with the old list as its tail and the new expense (trimmed title, rounded amount, form date and category) at its head, resets the form, and raises `overall` by the new amount; the entry added is exactly `NewExpense` of the old form fields, and none is added exactly when `NewExpense` gives none |
| `App.Tracker.Remove` | src/App.tsx:64-66 | the list becomes the old list without the entries carrying the id; the form and filter stay |
| `App.Tracker.LoadDemo` | src/App.tsx:126-134 | the list becomes the four demo entries followed by the old list, and `overall` rises by 13818 cents |
| `App.Tracker.ClearAll` | src/App.tsx:136 | the list becomes empty and `overall` 0; the form and filter stay |
| `App.Tracker.FilteredView` | src/App.tsx:60 | `filtered` holds only list entries the filter shows, and is the whole list under "All" |
| `App.Tracker.Total` | src/App.tsx:61 | `total` is the sum of the amounts the view shows, and under "All" it equals `overall` |
| `App.Tracker.Overall` | src/App.tsx:62 | `overall` is the sum of every amount in the list, 0 when it is empty |

## Left out

- Persistence: `localStorage.getItem`/`setItem` and `JSON.parse`/`stringify` (src/App.tsx:23-24, 36-38) are browser I/O and library code. The constructor takes the read-back list as an `Option`, and the write after every change is not modelled. So the store round trip is not stated.
- Stored text that parses as JSON but is not an array (`null`, a number) becomes the list as it is in the source, and the first render throws at `expenses.filter` (src/App.tsx:60).
- Stored text that parses to an array is kept as it is, with no check on its items (src/App.tsx:24). An item that is `null`, or whose `amount` is missing or `null`, makes the first render throw (at `s + e.amount`, src/App.tsx:61, or at `value.toLocaleString` in `formatCurrency`, src/App.tsx:17, called at :154). Other items are shown, and a string, array or object amount turns the totals into concatenated strings (`0 + "5"` is `"05"`).
- The constructor's `Option<seq<Expense>>` cannot represent either case, so neither is modelled.
- Amounts of entries read back from storage are whole cents in the model. The source keeps whatever value was stored.
- `parseFloat` is a parameter of `Add`. Its reading of the amount text is not modelled: the leading-prefix parse ("12abc" is 12), exponents, and `Infinity`, which the source accepts and stores.
- IEEE double arithmetic is not modelled. `Math.round(amt * 100)` acts on the exact decimal, so cases such as 1.005 rounding to 100 cents through binary error are not captured. `total` and `overall` sum exact cents and do not reproduce floating-point drift in the sums.
- Ids: `Date.now().toString()` is a clock read, so the new id is a parameter of `Add`.
- The `confirm()` dialog is UI. `ClearAll` models the confirmed case; a declined dialog changes nothing.
- Rendering, CSS, the footer, `formatCurrency` and the date display (src/App.tsx:16-18, 68-166 apart from the handlers) are presentation and locale formatting.
- React's `useState`/`useEffect` scheduling is framework behaviour. Each handler is modelled as one atomic update of the state.
- The `CATEGORIES` list (src/App.tsx:14) only feeds the select options. Nothing in the ledger checks categories against it.
