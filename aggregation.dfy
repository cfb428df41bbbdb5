/** The per-category totals that `visualize_expenses` builds before plotting
    (expense_tracker.py:65-73): a declarative reference definition, the order in
    which the Python dictionary receives its keys, and the facts about both. */
module Aggregation {
  import opened Records

  /** The sum of all amounts. */
  function Total(expenses: seq<Expense>): int
  {
    if expenses == [] then 0 else expenses[0].amount + Total(expenses[1..])
  }

  lemma {:induction false} TotalConcat(a: seq<Expense>, b: seq<Expense>)
    ensures Total(a + b) == Total(a) + Total(b)
  {
    if a != [] {
      TotalConcat(a[1..], b);
      assert (a + b)[1..] == a[1..] + b;
    } else {
      assert a + b == b;
    }
  }

  /** The distinct category strings present, compared case-sensitively. */
  function Categories(expenses: seq<Expense>): set<string>
    decreases |expenses|
  {
    if expenses == [] then {}
    else Categories(expenses[..|expenses| - 1]) + {expenses[|expenses| - 1].category}
  }

  /** A category is present exactly when some record carries it. */
  lemma {:induction false} CategoriesSpec(expenses: seq<Expense>)
    ensures forall c :: c in Categories(expenses) <==> exists e :: e in expenses && e.category == c
    decreases |expenses|
  {
    if expenses != [] {
      var init := expenses[..|expenses| - 1];
      var last := expenses[|expenses| - 1];
      CategoriesSpec(init);
      assert expenses == init + [last];
      assert forall e :: e in expenses <==> e in init || e == last;
    }
  }

  /** The condition of an aggregation bucket: the raw category, no lowering. */
  function HasCategory(category: string): Expense -> bool
  {
    (e: Expense) => e.category == category
  }

  /** The sum of the amounts of the records whose category is exactly `category`. */
  function CategoryTotal(expenses: seq<Expense>, category: string): int
  {
    Total(Filter(expenses, HasCategory(category)))
  }

  /** The dictionary `categories` after the loop at expense_tracker.py:66-71
      has run over `expenses`: the last record's amount is added to its
      category's bucket when that key is present, and opens it otherwise. */
  function Aggregate(expenses: seq<Expense>): map<string, int>
    decreases |expenses|
  {
    if expenses == [] then map[]
    else
      var m := Aggregate(expenses[..|expenses| - 1]);
      var e := expenses[|expenses| - 1];
      if e.category in m then m[e.category := m[e.category] + e.amount]
      else m[e.category := e.amount]
  }

  /** The order in which the dictionary receives its keys (Python dictionaries
      keep insertion order): each category where it first occurs. */
  function KeyOrder(expenses: seq<Expense>): seq<string>
    decreases |expenses|
  {
    if expenses == [] then []
    else
      var order := KeyOrder(expenses[..|expenses| - 1]);
      var c := expenses[|expenses| - 1].category;
      if c in order then order else order + [c]
  }

  predicate Distinct<T(==)>(s: seq<T>)
  {
    forall i, j :: 0 <= i < j < |s| ==> s[i] != s[j]
  }

  /** The dictionary's values summed in key order (`categories.values()`).
      A key missing from the map adds nothing. */
  function SumValues(keys: seq<string>, m: map<string, int>): int
    decreases |keys|
  {
    if keys == [] then 0
    else
      var k := keys[|keys| - 1];
      SumValues(keys[..|keys| - 1], m) + (if k in m then m[k] else 0)
  }

  lemma CategoriesAppend(expenses: seq<Expense>, e: Expense)
    ensures Categories(expenses + [e]) == Categories(expenses) + {e.category}
  {
    assert (expenses + [e])[..|expenses|] == expenses;
  }

  /** A category that does not occur has total 0. */
  lemma CategoryTotalAbsent(expenses: seq<Expense>, category: string)
    requires category !in Categories(expenses)
    ensures CategoryTotal(expenses, category) == 0
  {
    var kept := Filter(expenses, HasCategory(category));
    FilterSpec(expenses, HasCategory(category));
    CategoriesSpec(expenses);
    assert kept == [];
  }

  /** Appending one record adds its amount to its own category's total only. */
  lemma CategoryTotalAppend(expenses: seq<Expense>, e: Expense, category: string)
    ensures CategoryTotal(expenses + [e], category) ==
            CategoryTotal(expenses, category) + (if e.category == category then e.amount else 0)
  {
    var p := HasCategory(category);
    FilterConcat(expenses, [e], p);
    TotalConcat(Filter(expenses, p), Filter([e], p));
    assert [e][1..] == [];
  }

  /** The dictionary has one key per distinct category, compared
      case-sensitively, and maps it to the sum of the amounts of exactly the
      records carrying that category. */
  lemma {:induction false} AggregateSpec(expenses: seq<Expense>)
    ensures forall c :: c in Aggregate(expenses) <==> c in Categories(expenses)
    ensures forall c :: c in Aggregate(expenses) ==> Aggregate(expenses)[c] == CategoryTotal(expenses, c)
    decreases |expenses|
  {
    if expenses != [] {
      var init := expenses[..|expenses| - 1];
      var e := expenses[|expenses| - 1];
      assert expenses == init + [e];
      AggregateSpec(init);
      CategoriesAppend(init, e);
      if e.category !in Categories(init) {
        CategoryTotalAbsent(init, e.category);
      }
      forall c | c in Aggregate(expenses)
        ensures Aggregate(expenses)[c] == CategoryTotal(expenses, c)
      {
        CategoryTotalAppend(init, e, c);
      }
    }
  }

  /** KeyOrder lists each category present exactly once and nothing else. */
  lemma {:induction false} KeyOrderSpec(expenses: seq<Expense>)
    ensures Distinct(KeyOrder(expenses))
    ensures forall c :: c in KeyOrder(expenses) <==> c in Categories(expenses)
    decreases |expenses|
  {
    if expenses != [] {
      var init := expenses[..|expenses| - 1];
      var e := expenses[|expenses| - 1];
      KeyOrderSpec(init);
      assert expenses == init + [e];
      CategoriesAppend(init, e);
    }
  }

  /** Changing the value of a key that is not listed leaves the sum alone. */
  lemma {:induction false} SumValuesFrame(keys: seq<string>, m: map<string, int>, k: string, v: int)
    requires k !in keys
    ensures SumValues(keys, m[k := v]) == SumValues(keys, m)
    decreases |keys|
  {
    if keys != [] {
      SumValuesFrame(keys[..|keys| - 1], m, k, v);
    }
  }

  /** Adding `d` to the value of a key listed once adds `d` to the sum. */
  lemma {:induction false} SumValuesBump(keys: seq<string>, m: map<string, int>, k: string, d: int)
    requires k in keys && k in m && Distinct(keys)
    ensures SumValues(keys, m[k := m[k] + d]) == SumValues(keys, m) + d
    decreases |keys|
  {
    var init := keys[..|keys| - 1];
    if keys[|keys| - 1] == k {
      assert k !in init;
      SumValuesFrame(init, m, k, m[k] + d);
    } else {
      assert k in init;
      SumValuesBump(init, m, k, d);
    }
  }

  /** The buckets together hold the total of all amounts. */
  lemma {:induction false} AggregateConservesTotal(expenses: seq<Expense>)
    ensures SumValues(KeyOrder(expenses), Aggregate(expenses)) == Total(expenses)
    decreases |expenses|
  {
    if expenses != [] {
      var init := expenses[..|expenses| - 1];
      var e := expenses[|expenses| - 1];
      assert expenses == init + [e];
      AggregateConservesTotal(init);
      TotalConcat(init, [e]);
      assert Total([e]) == e.amount;
      ConservesStep(init, e);
    }
  }

  /** The induction step of AggregateConservesTotal. */
  lemma ConservesStep(init: seq<Expense>, e: Expense)
    ensures SumValues(KeyOrder(init + [e]), Aggregate(init + [e])) ==
            SumValues(KeyOrder(init), Aggregate(init)) + e.amount
  {
    var m := Aggregate(init);
    var order := KeyOrder(init);
    var c := e.category;
    LoopStep(init, e);
    OrderListsKeys(init);
    if c in m {
      SumValuesBump(order, m, c, e.amount);
    } else {
      SumValuesFrame(order, m, c, e.amount);
      SumValuesSnoc(order, m[c := e.amount], c);
    }
  }

  lemma SumValuesSnoc(keys: seq<string>, m: map<string, int>, k: string)
    requires k in m
    ensures SumValues(keys + [k], m) == SumValues(keys, m) + m[k]
  {
    assert (keys + [k])[..|keys|] == keys;
  }

  /** KeyOrder lists the dictionary's keys, each once. */
  lemma OrderListsKeys(expenses: seq<Expense>)
    ensures Distinct(KeyOrder(expenses))
    ensures forall c :: c in KeyOrder(expenses) <==> c in Aggregate(expenses)
  {
    KeyOrderSpec(expenses);
    AggregateSpec(expenses);
  }

  /** One pass of the loop body at expense_tracker.py:67-71, with the key
      order: a category already in the dictionary keeps its place. */
  lemma LoopStep(done: seq<Expense>, e: Expense)
    ensures var m, order, c := Aggregate(done), KeyOrder(done), e.category;
            && Aggregate(done + [e]) == (if c in m then m[c := m[c] + e.amount] else m[c := e.amount])
            && KeyOrder(done + [e]) == (if c in m then order else order + [c])
  {
    assert (done + [e])[..|done|] == done;
    assert (done + [e])[|done|] == e;
    OrderListsKeys(done);
  }

  /** Everything the loop's result promises, in one place. */
  lemma AggregateFacts(expenses: seq<Expense>)
    ensures forall c :: c in Aggregate(expenses) <==> c in Categories(expenses)
    ensures forall c :: c in Aggregate(expenses) ==> Aggregate(expenses)[c] == CategoryTotal(expenses, c)
    ensures Distinct(KeyOrder(expenses))
    ensures forall c :: c in KeyOrder(expenses) <==> c in Aggregate(expenses)
    ensures SumValues(KeyOrder(expenses), Aggregate(expenses)) == Total(expenses)
    ensures Aggregate(expenses) == map[] <==> expenses == []
  {
    AggregateSpec(expenses);
    OrderListsKeys(expenses);
    AggregateConservesTotal(expenses);
    AggregateEmptyIff(expenses);
  }

  /** The dictionary is empty exactly when there are no records, which is when
      `visualize_expenses` reports that there is nothing to visualize. */
  lemma AggregateEmptyIff(expenses: seq<Expense>)
    ensures Aggregate(expenses) == map[] <==> expenses == []
  {
    if expenses != [] {
      AggregateSpec(expenses);
      CategoriesAppend(expenses[..|expenses| - 1], expenses[|expenses| - 1]);
      assert expenses == expenses[..|expenses| - 1] + [expenses[|expenses| - 1]];
      assert expenses[|expenses| - 1].category in Aggregate(expenses);
    }
  }

  /** The category filter and the dictionary disagree on case: "Food" and
      "food" are one category to the filter and two buckets to the loop. */
  lemma CaseAsymmetry()
    ensures var expenses := [Expense("Food", 1000, "2024-01-01"), Expense("food", 500, "2024-01-02")];
            && FilterByCategory(expenses, "FOOD") == expenses
            && Aggregate(expenses) == map["Food" := 1000, "food" := 500]
  {
    var expenses := [Expense("Food", 1000, "2024-01-01"), Expense("food", 500, "2024-01-02")];
    assert Lower("Food") == "food" && Lower("food") == "food" && Lower("FOOD") == "food";
    FilterAllKept(expenses, MatchesCategory("FOOD"));
    assert expenses[..1] == [expenses[0]];
    assert expenses[..1][..0] == [];
  }
}
