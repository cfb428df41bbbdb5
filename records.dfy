/** Expense records and the two list-comprehension filters of ExpenseTracker
    (expense_tracker.py, filter_expenses_by_category and filter_expenses_by_date). */
module Records {

  datatype Option<+T> = None | Some(value: T)

  /** One row of `self.expenses`: the positional triple [category, amount, date].
      The amount is kept in integer pence instead of a Python float. */
  datatype Expense = Expense(category: string, amount: int, date: string)

  /** Python's `str.lower()` on one character, for the ASCII letters. */
  function LowerChar(c: char): char
  {
    if 'A' <= c <= 'Z' then (c as int - 'A' as int + 'a' as int) as char else c
  }

  /** Python's `str.lower()`, for the ASCII letters. */
  function Lower(s: string): (r: string)
    ensures |r| == |s|
    ensures forall i :: 0 <= i < |s| ==> r[i] == LowerChar(s[i])
  {
    if s == [] then [] else [LowerChar(s[0])] + Lower(s[1..])
  }

  /** Lowering twice is lowering once. */
  lemma LowerIdempotent(s: string)
    ensures Lower(Lower(s)) == Lower(s)
  {
    assert forall i :: 0 <= i < |s| ==> Lower(Lower(s))[i] == Lower(s)[i];
  }

  /** `[x for x in s if p(x)]`: the elements of `s` that satisfy `p`, in order. */
  function Filter<T>(s: seq<T>, p: T -> bool): seq<T>
  {
    if s == [] then [] else (if p(s[0]) then [s[0]] else []) + Filter(s[1..], p)
  }

  /** `r` is `s` with some elements dropped and the rest kept in their order. */
  predicate IsSubsequence<T(==)>(r: seq<T>, s: seq<T>)
  {
    if r == [] then true
    else if s == [] then false
    else if r[0] == s[0] then IsSubsequence(r[1..], s[1..])
    else IsSubsequence(r, s[1..])
  }

  /** A filter keeps exactly the elements that satisfy its condition, each as
      often as it occurs, and keeps them in their original order. */
  lemma {:induction false} FilterSpec<T>(s: seq<T>, p: T -> bool)
    ensures forall x :: x in Filter(s, p) <==> x in s && p(x)
    ensures forall x :: multiset(Filter(s, p))[x] == if p(x) then multiset(s)[x] else 0
    ensures IsSubsequence(Filter(s, p), s)
  {
    if s != [] {
      var rest := Filter(s[1..], p);
      FilterSpec(s[1..], p);
      assert s == [s[0]] + s[1..];
      if p(s[0]) {
        assert Filter(s, p) == [s[0]] + rest;
        assert Filter(s, p)[1..] == rest;
      } else {
        assert Filter(s, p) == rest;
        if rest != [] {
          assert rest[0] in rest;
        }
      }
    }
  }

  /** Filtering a concatenation filters each part. */
  lemma {:induction false} FilterConcat<T>(a: seq<T>, b: seq<T>, p: T -> bool)
    ensures Filter(a + b, p) == Filter(a, p) + Filter(b, p)
  {
    if a != [] {
      FilterConcat(a[1..], b, p);
      assert (a + b)[1..] == a[1..] + b;
    } else {
      assert a + b == b;
    }
  }

  /** Two conditions that agree on every element select the same elements. */
  lemma {:induction false} FilterPointwise<T>(s: seq<T>, p: T -> bool, q: T -> bool)
    requires forall i :: 0 <= i < |s| ==> p(s[i]) == q(s[i])
    ensures Filter(s, p) == Filter(s, q)
  {
    if s != [] {
      FilterPointwise(s[1..], p, q);
    }
  }

  /** The condition of the category filter: both sides lowered, then compared. */
  function MatchesCategory(category: string): Expense -> bool
  {
    (e: Expense) => Lower(e.category) == Lower(category)
  }

  /** The condition of the date filter: plain string equality. */
  function MatchesDate(date: string): Expense -> bool
  {
    (e: Expense) => e.date == date
  }

  /** filter_expenses_by_category: the records whose category equals the query
      once both are lowered, each kept as often as it occurs, in list order. */
  function FilterByCategory(expenses: seq<Expense>, category: string): (r: seq<Expense>)
    ensures forall e :: e in r <==> e in expenses && Lower(e.category) == Lower(category)
    ensures forall e :: multiset(r)[e] == (if Lower(e.category) == Lower(category) then multiset(expenses)[e] else 0)
    ensures IsSubsequence(r, expenses)
  {
    FilterSpec(expenses, MatchesCategory(category));
    Filter(expenses, MatchesCategory(category))
  }

  /** filter_expenses_by_date: the records whose date string equals the query
      exactly, each kept as often as it occurs, in list order. */
  function FilterByDate(expenses: seq<Expense>, date: string): (r: seq<Expense>)
    ensures forall e :: e in r <==> e in expenses && e.date == date
    ensures forall e :: multiset(r)[e] == if e.date == date then multiset(expenses)[e] else 0
    ensures IsSubsequence(r, expenses)
  {
    FilterSpec(expenses, MatchesDate(date));
    Filter(expenses, MatchesDate(date))
  }

  /** The case of the query does not matter to the category filter. */
  lemma FilterByCategoryIgnoresQueryCase(expenses: seq<Expense>, category: string)
    ensures FilterByCategory(expenses, category) == FilterByCategory(expenses, Lower(category))
  {
    LowerIdempotent(category);
    FilterPointwise(expenses, MatchesCategory(category), MatchesCategory(Lower(category)));
  }

  /** Nor does the case of the stored categories: records that differ only in
      the case of their category are selected together. */
  lemma FilterByCategoryIgnoresRecordCase(expenses: seq<Expense>, category: string, e: Expense, e': Expense)
    requires e in expenses && e' in expenses
    requires Lower(e.category) == Lower(e'.category)
    ensures e in FilterByCategory(expenses, category) <==> e' in FilterByCategory(expenses, category)
  {
  }

  /** Filtering by date twice with the same query changes nothing more. */
  lemma FilterByDateIdempotent(expenses: seq<Expense>, date: string)
    ensures FilterByDate(FilterByDate(expenses, date), date) == FilterByDate(expenses, date)
  {
    var once := FilterByDate(expenses, date);
    FilterSpec(once, MatchesDate(date));
    FilterAllKept(once, MatchesDate(date));
  }

  /** A filter whose condition holds of every element returns the list itself. */
  lemma {:induction false} FilterAllKept<T>(s: seq<T>, p: T -> bool)
    requires forall i :: 0 <= i < |s| ==> p(s[i])
    ensures Filter(s, p) == s
  {
    if s != [] {
      FilterAllKept(s[1..], p);
      assert s == [s[0]] + s[1..];
    }
  }
}
