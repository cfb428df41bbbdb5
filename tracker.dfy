/** The ExpenseTracker class of expense_tracker.py: a list of expense records
    held in memory and rewritten in full to its CSV file after each change. */
module Tracker {
  import opened Records
  import opened Aggregation

  /** The CSV file named by `ExpenseTracker.filename`, seen at the level of the
      records it holds; `None` while no such file exists. */
  class ExpenseFile {
    var rows: Option<seq<Expense>>

    constructor (rows: Option<seq<Expense>>)
      ensures this.rows == rows
    {
      this.rows := rows;
    }
  }

  /** What `load_expenses` reads: the file's rows, or nothing when opening the
      file raises FileNotFoundError. */
  function Loaded(rows: Option<seq<Expense>>): seq<Expense>
  {
    match rows
    case None => []
    case Some(r) => r
  }

  class ExpenseTracker {
    const file: ExpenseFile
    var expenses: seq<Expense>

    /** Loading the file now would give back the list held in memory. */
    ghost predicate Valid()
      reads this, file
    {
      expenses == Loaded(file.rows)
    }

    /** `__init__`: start from an empty list, then load the file. */
    constructor (file: ExpenseFile)
      ensures this.file == file
      ensures expenses == Loaded(file.rows)
      ensures Valid()
    {
      this.file := file;
      expenses := [];
      new;
      LoadExpenses();
    }

    /** `load_expenses`: replace the list by the file's rows, or by the empty
        list when the file does not exist. The file is only read. */
    method LoadExpenses()
      modifies this
      ensures expenses == Loaded(file.rows)
      ensures Valid()
    {
      match file.rows
      case None =>
        expenses := [];
      case Some(rows) =>
        expenses := rows;
    }

    /** `save_expenses`: overwrite the file with the whole list. */
    method SaveExpenses()
      modifies file
      ensures file.rows == Some(expenses)
      ensures Valid()
    {
      file.rows := Some(expenses);
    }

    /** `add_expense`: `amount` is the outcome of `float(amount)`, `None` when
        that conversion raises. On success the record is appended after the
        untouched earlier records and the file is rewritten; on failure neither
        the list nor the file changes. */
    method AddExpense(category: string, amount: Option<int>, date: string) returns (ok: bool)
      modifies this, file
      ensures ok == amount.Some?
      ensures ok ==> expenses == old(expenses) + [Expense(category, amount.value, date)]
      ensures ok ==> file.rows == Some(expenses)
      ensures !ok ==> expenses == old(expenses) && file.rows == old(file.rows)
      ensures old(Valid()) ==> Valid()
    {
      if amount.None? {
        return false;
      }
      expenses := expenses + [Expense(category, amount.value, date)];
      SaveExpenses();
      ok := true;
    }

    /** `clear_expenses`: empty the list and rewrite the file; the resulting
        state does not depend on the previous one. */
    method ClearExpenses()
      modifies this, file
      ensures expenses == []
      ensures file.rows == Some([])
      ensures Valid()
    {
      expenses := [];
      SaveExpenses();
    }

    /** `filter_expenses_by_category`, without the display: changes nothing. */
    method FilterExpensesByCategory(category: string) returns (filtered: seq<Expense>)
      ensures filtered == FilterByCategory(expenses, category)
      ensures forall e :: e in filtered <==> e in expenses && Lower(e.category) == Lower(category)
      ensures IsSubsequence(filtered, expenses)
    {
      filtered := FilterByCategory(expenses, category);
    }

    /** `filter_expenses_by_date`, without the display: changes nothing. */
    method FilterExpensesByDate(date: string) returns (filtered: seq<Expense>)
      ensures filtered == FilterByDate(expenses, date)
      ensures forall e :: e in filtered <==> e in expenses && e.date == date
      ensures IsSubsequence(filtered, expenses)
    {
      filtered := FilterByDate(expenses, date);
    }

    /** The dictionary-building loop of `visualize_expenses`, without the chart.
        `labels` is the key order of the Python dictionary (`categories.keys()`).
        Every bucket is keyed by a raw category string and holds the sum of the
        amounts carrying exactly that string; the buckets add up to the total;
        the dictionary is empty, and nothing is plotted, exactly when there
        are no expenses. */
    method VisualizeExpenses() returns (categories: map<string, int>, labels: seq<string>)
      ensures categories == Aggregate(expenses) && labels == KeyOrder(expenses)
      ensures forall c :: c in categories <==> c in Categories(expenses)
      ensures forall c :: c in categories ==> categories[c] == CategoryTotal(expenses, c)
      ensures Distinct(labels) && forall c :: c in labels <==> c in categories
      ensures SumValues(labels, categories) == Total(expenses)
      ensures categories == map[] <==> expenses == []
    {
      categories, labels := map[], [];
      ghost var done: seq<Expense> := [];
      for i := 0 to |expenses|
        invariant done == expenses[..i]
        invariant categories == Aggregate(done)
        invariant labels == KeyOrder(done)
      {
        var e := expenses[i];
        LoopStep(done, e);
        if e.category in categories {
          categories := categories[e.category := categories[e.category] + e.amount];
        } else {
          categories := categories[e.category := e.amount];
          labels := labels + [e.category];
        }
        done := done + [e];
      }
      assert expenses[..|expenses|] == expenses;
      AggregateFacts(expenses);
    }
  }

  /** A tracker opened later on the same file (the program started again)
      holds the list as it was after the last successful `add_expense`. */
  method ReopenAfterAdd(file: ExpenseFile, category: string, amount: int, date: string)
    returns (first: ExpenseTracker, second: ExpenseTracker)
    modifies file
    ensures first.expenses == old(Loaded(file.rows)) + [Expense(category, amount, date)]
    ensures second.expenses == first.expenses
  {
    first := new ExpenseTracker(file);
    var ok := first.AddExpense(category, Some(amount), date);
    second := new ExpenseTracker(file);
  }

  /** Clearing twice leaves the same list and file as clearing once. */
  method ClearTwice(tracker: ExpenseTracker)
    modifies tracker, tracker.file
    ensures tracker.expenses == [] && tracker.file.rows == Some([])
  {
    tracker.ClearExpenses();
    ghost var once := (tracker.expenses, tracker.file.rows);
    tracker.ClearExpenses();
    assert (tracker.expenses, tracker.file.rows) == once;
  }

  /** The pure part of FoodScenario. */
  lemma FoodFacts(expenses: seq<Expense>)
    requires expenses == [Expense("Food", 1000, "2024-01-01"), Expense("Food", 500, "2024-01-02")]
    ensures FilterByCategory(expenses, "food") == expenses
    ensures Aggregate(expenses) == map["Food" := 1500]
    ensures FilterByDate(expenses, "2024-01-01") == [expenses[0]]
  {
    assert Lower("Food") == "food" && Lower("food") == "food";
    FilterAllKept(expenses, MatchesCategory("food"));
    assert expenses[..1][..0] == [];
    assert Aggregate(expenses[..1]) == map["Food" := 1000];
    assert expenses[..|expenses| - 1] == expenses[..1];
  }

  /** Two purchases of food on consecutive days, in a store that starts with no
      file: the category filter finds both whatever the case of the query, the
      date filter only the first, and the dictionary has one bucket. */
  method FoodScenario() returns (byCategory: seq<Expense>, categories: map<string, int>, byDate: seq<Expense>)
    ensures byCategory == [Expense("Food", 1000, "2024-01-01"), Expense("Food", 500, "2024-01-02")]
    ensures categories == map["Food" := 1500]
    ensures byDate == [Expense("Food", 1000, "2024-01-01")]
  {
    var file := new ExpenseFile(None);
    var tracker := new ExpenseTracker(file);
    var ok := tracker.AddExpense("Food", Some(1000), "2024-01-01");
    ok := tracker.AddExpense("Food", Some(500), "2024-01-02");
    FoodFacts(tracker.expenses);
    byCategory := tracker.FilterExpensesByCategory("food");
    var labels;
    categories, labels := tracker.VisualizeExpenses();
    byDate := tracker.FilterExpensesByDate("2024-01-01");
  }
}
