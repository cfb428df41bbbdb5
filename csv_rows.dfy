/** The text level of the CSV file: what `save_expenses` writes for each
    record and what `load_expenses` gets back (expense_tracker.py:13-26), and
    how the aggregation loop of `visualize_expenses` (expense_tracker.py:65-71)
    behaves on the rows as Python then holds them. */
module CsvRows {
  import opened Records
  import opened Aggregation

  /** A Python value held in a row: a number, as `add_expense` stores the
      amount, or text, as every field `csv.reader` returns. */
  datatype Value = Number(n: int) | Text(s: string)

  /** One element of `self.expenses` as Python holds it: a list of values of
      any length, indexed by position. */
  type PyRow = seq<Value>

  /** The row that `add_expense` appends for a record. */
  function Stored(e: Expense): PyRow
  {
    [Text(e.category), Number(e.amount), Text(e.date)]
  }

  function DigitChar(d: nat): char
    requires d < 10
  {
    ('0' as int + d) as char
  }

  predicate IsDigit(c: char)
  {
    '0' <= c <= '9'
  }

  predicate AllDigits(s: string)
  {
    forall i :: 0 <= i < |s| ==> IsDigit(s[i])
  }

  /** The decimal digits of `n`, most significant first. */
  function Digits(n: nat): string
  {
    if n < 10 then [DigitChar(n)] else Digits(n / 10) + [DigitChar(n % 10)]
  }

  /** The text `csv.writer` writes for an amount. */
  function ShowAmount(n: int): string
  {
    if n < 0 then "-" + Digits(-n) else Digits(n)
  }

  /** The number a string of decimal digits denotes. */
  function ParseDigits(s: string): nat
    requires AllDigits(s)
    decreases |s|
  {
    if s == [] then 0 else ParseDigits(s[..|s| - 1]) * 10 + (s[|s| - 1] as int - '0' as int)
  }

  /** An optional minus sign followed by at least one decimal digit. */
  predicate IsAmountText(s: string)
  {
    if |s| > 0 && s[0] == '-' then |s| > 1 && AllDigits(s[1..]) else |s| > 0 && AllDigits(s)
  }

  /** The parser of the integer-pence text that `WriteRow` writes, used by the
      corrected loader in place of `float(text)`: an optional minus sign and
      decimal digits; `None` on any other text. It accepts less than `float`
      does. */
  function ParseAmount(s: string): (r: Option<int>)
    ensures r.Some? <==> IsAmountText(s)
    ensures r.Some? && s[0] != '-' ==> r.value >= 0
  {
    if |s| > 0 && s[0] == '-' then
      if |s| > 1 && AllDigits(s[1..]) then Some(-(ParseDigits(s[1..]) as int)) else None
    else if |s| > 0 && AllDigits(s) then Some(ParseDigits(s))
    else None
  }

  lemma {:induction false} DigitsRoundTrip(n: nat)
    ensures |Digits(n)| > 0 && AllDigits(Digits(n))
    ensures ParseDigits(Digits(n)) == n
    decreases n
  {
    if n >= 10 {
      DigitsRoundTrip(n / 10);
      var s := Digits(n);
      assert s[..|s| - 1] == Digits(n / 10);
    }
  }

  /** Reading an amount back gives the amount that was written. */
  lemma ParseShowAmount(n: int)
    ensures ParseAmount(ShowAmount(n)) == Some(n)
  {
    if n < 0 {
      DigitsRoundTrip(-n);
      assert ShowAmount(n)[1..] == Digits(-n);
    } else {
      DigitsRoundTrip(n);
    }
  }

  /** The three fields `csv.writer` writes for a record. */
  function WriteRow(e: Expense): seq<string>
  {
    [e.category, ShowAmount(e.amount), e.date]
  }

  /** `writer.writerows(self.expenses)`: one row per record, in list order. */
  function WriteAll(expenses: seq<Expense>): (rows: seq<seq<string>>)
    ensures |rows| == |expenses|
    ensures forall i :: 0 <= i < |expenses| ==> rows[i] == WriteRow(expenses[i])
  {
    if expenses == [] then [] else [WriteRow(expenses[0])] + WriteAll(expenses[1..])
  }

  /** The fields of one CSV line as `csv.reader` returns them: all text. */
  function TextFields(fields: seq<string>): seq<Value>
  {
    if fields == [] then [] else [Text(fields[0])] + TextFields(fields[1..])
  }

  /** expense_tracker.py:18 as written: every line becomes a row, whatever
      its length, and every field stays text. */
  function ReadAllAsWritten(lines: seq<seq<string>>): (rows: seq<PyRow>)
    ensures |rows| == |lines|
    ensures forall i :: 0 <= i < |lines| ==> |rows[i]| == |lines[i]|
    ensures forall i, j :: 0 <= i < |lines| && 0 <= j < |lines[i]| ==> rows[i][j] == Text(lines[i][j])
  {
    TextFieldsSpec(if lines == [] then [] else lines[0]);
    if lines == [] then [] else [TextFields(lines[0])] + ReadAllAsWritten(lines[1..])
  }

  lemma {:induction false} TextFieldsSpec(fields: seq<string>)
    ensures |TextFields(fields)| == |fields|
    ensures forall j :: 0 <= j < |fields| ==> TextFields(fields)[j] == Text(fields[j])
  {
    if fields != [] {
      TextFieldsSpec(fields[1..]);
    }
  }

  /** The loader with the amount converted back, as `add_expense` does with
      `float(amount)`: a row whose amount is not integer-pence text is
      rejected. */
  function ReadRow(fields: seq<string>): Option<Expense>
  {
    if |fields| != 3 then None
    else match ParseAmount(fields[1])
      case Some(n) => Some(Expense(fields[0], n, fields[2]))
      case None => None
  }

  function ReadAll(rows: seq<seq<string>>): Option<seq<Expense>>
  {
    if rows == [] then Some([])
    else match (ReadRow(rows[0]), ReadAll(rows[1..]))
      case (Some(e), Some(rest)) => Some([e] + rest)
      case _ => None
  }

  lemma ReadWriteRow(e: Expense)
    ensures ReadRow(WriteRow(e)) == Some(e)
  {
    ParseShowAmount(e.amount);
  }

  /** With the amount converted on load, reading the file back gives exactly
      the records that were saved, in the same order. */
  lemma {:induction false} ReadWriteRoundTrip(expenses: seq<Expense>)
    ensures ReadAll(WriteAll(expenses)) == Some(expenses)
  {
    if expenses != [] {
      var e, rest := expenses[0], expenses[1..];
      ReadWriteRoundTrip(rest);
      ReadWriteRow(e);
      ReadAllCons(WriteRow(e), WriteAll(rest));
      WriteAllCons(e, rest);
      assert expenses == [e] + rest;
    }
  }

  lemma WriteAllCons(e: Expense, rest: seq<Expense>)
    ensures WriteAll([e] + rest) == [WriteRow(e)] + WriteAll(rest)
  {
    assert ([e] + rest)[1..] == rest;
  }

  lemma ReadAllCons(line: seq<string>, lines: seq<seq<string>>)
    ensures ReadAll([line] + lines) ==
            match (ReadRow(line), ReadAll(lines))
            case (Some(e), Some(rest)) => Some([e] + rest)
            case _ => None
  {
    assert ([line] + lines)[1..] == lines;
  }

  /** The row `csv.reader` gives back, as written, for a saved record. */
  function AsText(e: Expense): PyRow
  {
    [Text(e.category), Text(ShowAmount(e.amount)), Text(e.date)]
  }

  /** As written, a reloaded record keeps its category and date but its
      amount comes back as the text that was written. */
  lemma ReloadAsWritten(expenses: seq<Expense>)
    ensures var rows := ReadAllAsWritten(WriteAll(expenses));
            |rows| == |expenses| && forall i :: 0 <= i < |expenses| ==> rows[i] == AsText(expenses[i])
  {
  }

  /** Python's `+` on two amounts: numbers add, strings concatenate, and a
      number and a string raise TypeError (`None`). */
  function PyAdd(a: Value, b: Value): (r: Option<Value>)
    ensures r.Some? <==> a.Number? == b.Number?
    ensures r.Some? ==> r.value.Number? == a.Number?
  {
    match (a, b)
    case (Number(x), Number(y)) => Some(Number(x + y))
    case (Text(x), Text(y)) => Some(Text(x + y))
    case _ => None
  }

  /** The loop at expense_tracker.py:66-71 on rows as Python holds them,
      keyed by `expense[0]`; `None` where `expense[1]` raises IndexError or
      `+=` raises TypeError. */
  function AggregateRows(rows: seq<PyRow>): (r: Option<map<Value, Value>>)
    ensures r.Some? ==> forall i :: 0 <= i < |rows| ==> |rows[i]| >= 2 && rows[i][0] in r.value
    decreases |rows|
  {
    if rows == [] then Some(map[])
    else
      var row := rows[|rows| - 1];
      match AggregateRows(rows[..|rows| - 1])
      case None => None
      case Some(m) =>
        if |row| < 2 then None
        else if row[0] in m then
          match PyAdd(m[row[0]], row[1])
          case None => None
          case Some(v) => Some(m[row[0] := v])
        else Some(m[row[0] := row[1]])
  }

  /** The rows `add_expense` stores for a list of records. */
  function StoredRows(expenses: seq<Expense>): seq<PyRow>
    decreases |expenses|
  {
    if expenses == [] then []
    else StoredRows(expenses[..|expenses| - 1]) + [Stored(expenses[|expenses| - 1])]
  }

  /** A dictionary of numbers keyed by category strings, as Python values. */
  function Numbers(m: map<string, int>): map<Value, Value>
  {
    map c | c in m :: Text(c) := Number(m[c])
  }

  lemma NumbersLookup(m: map<string, int>, c: string)
    ensures Text(c) in Numbers(m) <==> c in m
    ensures c in m ==> Numbers(m)[Text(c)] == Number(m[c])
  {
  }

  lemma NumbersUpdate(m: map<string, int>, c: string, v: int)
    ensures Numbers(m[c := v]) == Numbers(m)[Text(c) := Number(v)]
  {
    var l, r := Numbers(m[c := v]), Numbers(m)[Text(c) := Number(v)];
    forall k | k in l ensures k in r && l[k] == r[k] {
    }
    forall k | k in r ensures k in l {
    }
  }

  /** On the rows `add_expense` stores, the loop computes Aggregate. */
  lemma {:induction false} AggregateStoredRows(expenses: seq<Expense>)
    ensures AggregateRows(StoredRows(expenses)) == Some(Numbers(Aggregate(expenses)))
    decreases |expenses|
  {
    if expenses != [] {
      var init := expenses[..|expenses| - 1];
      var e := expenses[|expenses| - 1];
      AggregateStoredRows(init);
      StoredRowsStep(init, e);
      assert expenses == init + [e];
      NumbersStep(init, e);
    }
  }

  lemma StoredRowsStep(init: seq<Expense>, e: Expense)
    ensures StoredRows(init + [e]) == StoredRows(init) + [Stored(e)]
  {
    assert (init + [e])[..|init|] == init;
  }

  /** One more pass of the loop, on a row of at least two values. */
  lemma AggregateRowsSnoc(rows: seq<PyRow>, row: PyRow)
    requires |row| >= 2 && AggregateRows(rows).Some?
    ensures var m := AggregateRows(rows).value;
            AggregateRows(rows + [row]) ==
              if row[0] !in m then Some(m[row[0] := row[1]])
              else match PyAdd(m[row[0]], row[1])
                case None => None
                case Some(v) => Some(m[row[0] := v])
  {
    assert (rows + [row])[..|rows|] == rows;
  }

  /** One pass of the loop on a stored row, lifted to Python values. */
  lemma NumbersStep(init: seq<Expense>, e: Expense)
    requires AggregateRows(StoredRows(init)) == Some(Numbers(Aggregate(init)))
    ensures AggregateRows(StoredRows(init) + [Stored(e)]) == Some(Numbers(Aggregate(init + [e])))
  {
    var rows := StoredRows(init) + [Stored(e)];
    var m := Aggregate(init);
    AggregateRowsSnoc(StoredRows(init), Stored(e));
    LoopStep(init, e);
    var c := e.category;
    var prev := Numbers(m);
    var v := if c in m then m[c] + e.amount else e.amount;
    assert Aggregate(init + [e]) == m[c := v];
    NumbersLookup(m, c);
    NumbersUpdate(m, c, v);
    if c in m {
      assert PyAdd(prev[Text(c)], Number(e.amount)) == Some(Number(v));
    }
    assert AggregateRows(rows) == Some(prev[Text(c) := Number(v)]);
  }

  /** As written, reloading a file with two amounts in the same category and
      aggregating it joins the two amounts' texts instead of adding them. */
  lemma ReloadedAmountsConcatenate()
    ensures var expenses := [Expense("Food", 1000, "2024-01-01"), Expense("Food", 500, "2024-01-02")];
            && Aggregate(expenses) == map["Food" := 1500]
            && ReadAllAsWritten(WriteAll(expenses)) ==
                 [[Text("Food"), Text("1000"), Text("2024-01-01")], [Text("Food"), Text("500"), Text("2024-01-02")]]
            && AggregateRows(ReadAllAsWritten(WriteAll(expenses))) == Some(map[Text("Food") := Text("1000500")])
  {
    var expenses := [Expense("Food", 1000, "2024-01-01"), Expense("Food", 500, "2024-01-02")];
    var rows := [[Text("Food"), Text("1000"), Text("2024-01-01")], [Text("Food"), Text("500"), Text("2024-01-02")]];
    assert Digits(1000) == "1000";
    assert Digits(500) == "500";
    ReloadAsWritten(expenses);
    assert ReadAllAsWritten(WriteAll(expenses)) == rows;
    assert AggregateRows(rows[..1]) == Some(map[Text("Food") := Text("1000")]) by {
      assert rows[..1][..0] == [];
    }
    assert rows[..|rows| - 1] == rows[..1];
    var first := map[Text("Food") := Text("1000")];
    assert "1000" + "500" == "1000500";
    assert PyAdd(first[Text("Food")], rows[1][1]) == Some(Text("1000500"));
    assert first[Text("Food") := Text("1000500")] == map[Text("Food") := Text("1000500")];
    assert AggregateRows(rows) == Some(map[Text("Food") := Text("1000500")]);
    assert expenses[..1] == [expenses[0]];
    assert expenses[..1][..0] == [];
  }

  /** As written, a reloaded amount and one added in the same session cannot
      be added: the loop raises TypeError. */
  lemma ReloadedAndNewAmountsClash()
    ensures AggregateRows([[Text("Food"), Text("1000"), Text("2024-01-01")], Stored(Expense("Food", 500, "2024-01-02"))])
            == None
  {
    var rows := [[Text("Food"), Text("1000"), Text("2024-01-01")], Stored(Expense("Food", 500, "2024-01-02"))];
    assert rows[..1] == [rows[0]];
  }

  /** As written, a line with a single field is loaded as a one-element row,
      and the loop then raises IndexError on `expense[1]`. */
  lemma ShortLineKeptThenRaises()
    ensures ReadAllAsWritten([["Food"]]) == [[Text("Food")]]
    ensures AggregateRows(ReadAllAsWritten([["Food"]])) == None
  {
    assert ReadAllAsWritten([["Food"]])[0] == [Text("Food")];
  }
}
