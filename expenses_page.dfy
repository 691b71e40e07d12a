// The logic of components/pages/expenses-page.tsx: the CSV export (quoted
// descriptions as in section 2, rule 7 of RFC 4180), the total, the distinct
// categories, the category filter and the create guard. Number-to-text
// conversion of amounts is supplied by the caller.
module ExpensesPage {
  import opened Wrappers
  import opened Numbers
  import opened Text

  /** An expense; `amount` is `None` when missing (the `|| 0` case). */
  datatype Expense = Expense(id: int, description: string, amount: Option<real>, category: string, date: string)

  // ---------------------------------------------------------------------------
  // CSV export

  const Header := "Tavsif,Kategoriya,Miqdor,Sana\n"

  /** `description.replace(/"/g, '""')`: every double quote doubled. */
  function Escape(d: string): (r: string)
    ensures |r| >= |d|
  {
    if d == [] then []
    else (if d[0] == '"' then "\"\"" else [d[0]]) + Escape(d[1..])
  }

  /** The quoted description field. */
  function Quote(d: string): string {
    "\"" + Escape(d) + "\""
  }

  /**
   * The reading side of rule 7: the text after an opening quote, up to the
   * closing quote, with each `""` read as one `"`. Returns the field and what
   * follows the closing quote, or `None` when the quote is never closed.
   */
  function Unescape(s: string): Option<(string, string)>
    decreases |s|
  {
    if s == [] then None
    else if s[0] == '"' then
      if |s| >= 2 && s[1] == '"' then
        match Unescape(s[2..])
        case None => None
        case Some((d, rest)) => Some(("\"" + d, rest))
      else Some(([], s[1..]))
    else
      match Unescape(s[1..])
      case None => None
      case Some((d, rest)) => Some(([s[0]] + d, rest))
  }

  /** A quoted field at the start of `s`. */
  function ParseQuoted(s: string): Option<(string, string)> {
    if s != [] && s[0] == '"' then Unescape(s[1..]) else None
  }

  /** One CSV row: the quoted description, then category, amount and date as they are. */
  function Row(e: Expense, amountText: Option<real> -> string): string {
    Quote(e.description) + "," + e.category + "," + amountText(e.amount) + "," + e.date
  }

  function Rows(expenses: seq<Expense>, amountText: Option<real> -> string): (rows: seq<string>)
    ensures |rows| == |expenses|
    ensures forall i :: 0 <= i < |expenses| ==> rows[i] == Row(expenses[i], amountText)
  {
    seq(|expenses|, i requires 0 <= i < |expenses| => Row(expenses[i], amountText))
  }

  /** `handleExport`'s file text: `None` when there is nothing to export. */
  function ExportCsv(expenses: seq<Expense>, amountText: Option<real> -> string): Option<string> {
    if |expenses| == 0 then None
    else Some(Header + Join(Rows(expenses, amountText), "\n"))
  }

  // ---------------------------------------------------------------------------
  // Total, categories, filter

  /** `expenses.reduce((sum, exp) => sum + (exp.amount || 0), 0)` */
  function Total(expenses: seq<Expense>): real {
    if expenses == [] then 0.0
    else Total(expenses[..|expenses| - 1]) + OrElse(expenses[|expenses| - 1].amount, 0.0)
  }

  /** `[...new Set(xs)]`: each value once, where it first occurs. */
  function Distinct(xs: seq<string>): seq<string> {
    if xs == [] then []
    else
      var d := Distinct(xs[..|xs| - 1]);
      if xs[|xs| - 1] in d then d else d + [xs[|xs| - 1]]
  }

  function CategoryList(expenses: seq<Expense>): (cs: seq<string>)
    ensures |cs| == |expenses|
    ensures forall i :: 0 <= i < |expenses| ==> cs[i] == expenses[i].category
  {
    seq(|expenses|, i requires 0 <= i < |expenses| => expenses[i].category)
  }

  /** `categories` */
  function Categories(expenses: seq<Expense>): seq<string> {
    Distinct(CategoryList(expenses))
  }

  /** `expenses.filter((expense) => expense.category === c)` */
  function InCategory(expenses: seq<Expense>, c: string): seq<Expense> {
    if expenses == [] then []
    else
      var rest := InCategory(expenses[..|expenses| - 1], c);
      var e := expenses[|expenses| - 1];
      if e.category == c then rest + [e] else rest
  }

  /** `filteredExpenses` */
  function Filtered(expenses: seq<Expense>, categoryFilter: string): seq<Expense> {
    if categoryFilter == "all" then expenses else InCategory(expenses, categoryFilter)
  }

  // ---------------------------------------------------------------------------
  // Create guard

  datatype Form = Form(description: string, amount: string, category: string, date: string)

  datatype NewExpense = NewExpense(description: string, amount: real, category: string, date: string)

  /** `handleCreate`: refuse a blank description, amount or category; default the date to `today`. */
  function HandleCreate(form: Form, parseFloat: string -> real, today: string): Option<NewExpense> {
    if form.description == "" || form.amount == "" || form.category == "" then None
    else Some(NewExpense(form.description, parseFloat(form.amount), form.category,
      if form.date != "" then form.date else today))
  }

  // ---------------------------------------------------------------------------
  // Properties

  /** Reading back an escaped field, closed by a quote, gives the field and the text after it. */
  lemma {:induction false} UnescapeEscape(d: string, rest: string)
    requires rest == [] || rest[0] != '"'
    ensures Unescape(Escape(d) + "\"" + rest) == Some((d, rest))
    decreases |d|
  {
    if d == [] {
      assert Escape(d) + "\"" + rest == "\"" + rest;
    } else {
      UnescapeEscape(d[1..], rest);
      var tail := Escape(d[1..]) + "\"" + rest;
      EscapeHead(d, tail, rest);
      if d[0] == '"' {
        UnescapePair(tail, d[1..], rest);
      } else {
        UnescapeChar(d[0], tail, d[1..], rest);
      }
      assert [d[0]] + d[1..] == d;
    }
  }

  /** The escaped first character followed by the rest of the escaped text. */
  lemma EscapeHead(d: string, tail: string, rest: string)
    requires d != [] && tail == Escape(d[1..]) + "\"" + rest
    ensures Escape(d) + "\"" + rest == (if d[0] == '"' then "\"\"" else [d[0]]) + tail
  {
  }

  /** A doubled quote is read as one quote. */
  lemma UnescapePair(tail: string, d: string, rest: string)
    requires Unescape(tail) == Some((d, rest))
    ensures Unescape("\"\"" + tail) == Some(("\"" + d, rest))
  {
    assert ("\"\"" + tail)[2..] == tail;
  }

  /** Any other character is read as itself. */
  lemma UnescapeChar(c: char, tail: string, d: string, rest: string)
    requires c != '"' && Unescape(tail) == Some((d, rest))
    ensures Unescape([c] + tail) == Some(([c] + d, rest))
  {
    assert ([c] + tail)[1..] == tail;
  }

  /** Rule 7 round trip: the description is read back from its row, and the rest of the row follows the comma. */
  lemma RowDescription(e: Expense, amountText: Option<real> -> string)
    ensures ParseQuoted(Row(e, amountText)) ==
      Some((e.description, "," + e.category + "," + amountText(e.amount) + "," + e.date))
  {
    var rest := "," + e.category + "," + amountText(e.amount) + "," + e.date;
    assert Row(e, amountText) == "\"" + (Escape(e.description) + "\"" + rest);
    UnescapeEscape(e.description, rest);
  }

  /** Inside the quotes no double quote stands alone: each `"` of the description becomes `""`. */
  lemma {:induction false} EscapeCountsQuotes(d: string)
    ensures |Escape(d)| == |d| + QuoteCount(d)
    decreases |d|
  {
    if d != [] {
      EscapeCountsQuotes(d[1..]);
    }
  }

  /** The number of double quotes in `d`. */
  function QuoteCount(d: string): nat {
    if d == [] then 0 else (if d[0] == '"' then 1 else 0) + QuoteCount(d[1..])
  }

  /** A description without double quotes is only wrapped in quotes. */
  lemma {:induction false} EscapeNoQuotes(d: string)
    requires forall i :: 0 <= i < |d| ==> d[i] != '"'
    ensures Escape(d) == d
    decreases |d|
  {
    if d != [] {
      EscapeNoQuotes(d[1..]);
    }
  }

  /** Export refuses an empty list; otherwise the text is the header and the rows joined by line breaks. */
  lemma ExportShape(expenses: seq<Expense>, amountText: Option<real> -> string)
    ensures ExportCsv(expenses, amountText).None? <==> expenses == []
    ensures expenses != [] ==> StartsWith(ExportCsv(expenses, amountText).value, Header)
  {
    if expenses != [] {
      var body := Join(Rows(expenses, amountText), "\n");
      assert (Header + body)[..|Header|] == Header;
    }
  }

  /** The first line break of `a + "\n" + b` is right after `a` when `a` has none. */
  lemma FirstBreak(a: string, b: string)
    requires forall i :: 0 <= i < |a| ==> a[i] != '\n'
    ensures IndexOf(a + "\n" + b, "\n", 0) == Some(|a|)
  {
    var s := a + "\n" + b;
    forall j | 0 <= j < |a| ensures !OccursAt(s, "\n", j) {
      assert s[j] == a[j];
    }
    assert OccursAt(s, "\n", |a|);
  }

  /** A string without line breaks has no line break to find. */
  lemma NoBreak(a: string)
    requires forall i :: 0 <= i < |a| ==> a[i] != '\n'
    ensures IndexOf(a, "\n", 0).None?
  {
    forall j: nat ensures !OccursAt(a, "\n", j) {
      if j + 1 <= |a| {
        assert a[j..j + 1] == [a[j]];
      }
    }
  }

  /** Splitting rows joined by line breaks gives the rows back when none holds a line break. */
  lemma {:induction false} SplitJoinLines(rows: seq<string>)
    requires |rows| >= 1
    requires forall k, i :: 0 <= k < |rows| && 0 <= i < |rows[k]| ==> rows[k][i] != '\n'
    ensures Lines(Join(rows, "\n")) == rows
    decreases |rows|
  {
    if |rows| == 1 {
      assert Join(rows, "\n") == rows[0];
      NoBreak(rows[0]);
    } else {
      var tail := rows[1..];
      var rest := Join(tail, "\n");
      JoinCons(rows[0], tail, "\n");
      assert [rows[0]] + tail == rows;
      FirstBreak(rows[0], rest);
      var s := rows[0] + "\n" + rest;
      assert s[..|rows[0]|] == rows[0];
      assert s[|rows[0]| + 1..] == rest;
      SplitJoinLines(tail);
    }
  }

  /** With no line break in any field, the file's lines after the header are exactly the rows, in order. */
  lemma ExportLines(expenses: seq<Expense>, amountText: Option<real> -> string)
    requires expenses != []
    requires forall k, i :: 0 <= k < |expenses| && 0 <= i < |Row(expenses[k], amountText)| ==>
      Row(expenses[k], amountText)[i] != '\n'
    ensures ExportCsv(expenses, amountText).value == Header + Join(Rows(expenses, amountText), "\n")
    ensures Lines(Join(Rows(expenses, amountText), "\n")) == Rows(expenses, amountText)
  {
    SplitJoinLines(Rows(expenses, amountText));
  }

  /** Totals add up over concatenation, a missing amount counting as 0. */
  lemma {:induction false} TotalAppend(a: seq<Expense>, b: seq<Expense>)
    ensures Total(a + b) == Total(a) + Total(b)
    decreases |b|
  {
    if b != [] {
      var bi := b[..|b| - 1];
      assert (a + b)[..|a + b| - 1] == a + bi;
      assert (a + b)[|a + b| - 1] == b[|b| - 1];
      TotalAppend(a, bi);
    } else {
      assert a + b == a;
    }
  }

  lemma TotalOfMissing(e: Expense)
    requires e.amount.None? || e.amount == Some(0.0)
    ensures Total([e]) == 0.0
  {
    assert [e][..0] == [];
  }

  /** Each category is listed once, and exactly the categories of the expenses are listed. */
  lemma {:induction false} DistinctRule(xs: seq<string>)
    ensures forall x :: x in Distinct(xs) <==> x in xs
    ensures forall i, j :: 0 <= i < j < |Distinct(xs)| ==> Distinct(xs)[i] != Distinct(xs)[j]
    decreases |xs|
  {
    if xs != [] {
      var init := xs[..|xs| - 1];
      DistinctRule(init);
      assert xs == init + [xs[|xs| - 1]];
    }
  }

  /** Appending values keeps the earlier distinct list as a prefix: first occurrences keep their order. */
  lemma {:induction false} DistinctPrefix(xs: seq<string>, ys: seq<string>)
    ensures Distinct(xs) <= Distinct(xs + ys)
    decreases |ys|
  {
    if ys != [] {
      var yi := ys[..|ys| - 1];
      assert (xs + ys)[..|xs + ys| - 1] == xs + yi;
      assert (xs + ys)[|xs + ys| - 1] == ys[|ys| - 1];
      DistinctPrefix(xs, yi);
    } else {
      assert xs + ys == xs;
    }
  }

  lemma CategoriesRule(expenses: seq<Expense>)
    ensures forall c :: c in Categories(expenses) <==> exists i :: 0 <= i < |expenses| && expenses[i].category == c
    ensures forall i, j :: 0 <= i < j < |Categories(expenses)| ==> Categories(expenses)[i] != Categories(expenses)[j]
  {
    var cs := CategoryList(expenses);
    DistinctRule(cs);
    forall c ensures c in cs <==> exists i :: 0 <= i < |expenses| && expenses[i].category == c {
      if c in cs {
        var i :| 0 <= i < |cs| && cs[i] == c;
        assert expenses[i].category == c;
      }
    }
  }

  /** The filter keeps exactly the expenses of that category. */
  lemma {:induction false} InCategoryMembers(expenses: seq<Expense>, c: string)
    ensures forall e :: e in InCategory(expenses, c) <==> e in expenses && e.category == c
    decreases |expenses|
  {
    if expenses != [] {
      var init := expenses[..|expenses| - 1];
      InCategoryMembers(init, c);
      assert expenses == init + [expenses[|expenses| - 1]];
    }
  }

  /** Filtering a concatenation filters each part: the kept expenses stay in their order. */
  lemma {:induction false} InCategoryAppend(a: seq<Expense>, b: seq<Expense>, c: string)
    ensures InCategory(a + b, c) == InCategory(a, c) + InCategory(b, c)
    decreases |b|
  {
    if b != [] {
      var bi := b[..|b| - 1];
      assert (a + b)[..|a + b| - 1] == a + bi;
      assert (a + b)[|a + b| - 1] == b[|b| - 1];
      InCategoryAppend(a, bi, c);
    } else {
      assert a + b == a;
    }
  }

  /** "all" keeps everything; any other filter keeps exactly the expenses of that category. */
  lemma FilterRule(expenses: seq<Expense>, categoryFilter: string)
    ensures categoryFilter == "all" ==> Filtered(expenses, categoryFilter) == expenses
    ensures categoryFilter != "all" ==>
      forall e :: e in Filtered(expenses, categoryFilter) <==> e in expenses && e.category == categoryFilter
  {
    InCategoryMembers(expenses, categoryFilter);
  }

  /** The category totals of a filter and of the rest add up to the total. */
  lemma {:induction false} SplitTotal(expenses: seq<Expense>, c: string)
    ensures Total(InCategory(expenses, c)) + Total(OutOfCategory(expenses, c)) == Total(expenses)
    decreases |expenses|
  {
    if expenses != [] {
      var init := expenses[..|expenses| - 1];
      var e := expenses[|expenses| - 1];
      SplitTotal(init, c);
      if e.category == c {
        TotalAppend(InCategory(init, c), [e]);
        assert [e][..0] == [];
      } else {
        TotalAppend(OutOfCategory(init, c), [e]);
        assert [e][..0] == [];
      }
    }
  }

  /** The expenses of other categories. */
  function OutOfCategory(expenses: seq<Expense>, c: string): seq<Expense> {
    if expenses == [] then []
    else
      var rest := OutOfCategory(expenses[..|expenses| - 1], c);
      var e := expenses[|expenses| - 1];
      if e.category != c then rest + [e] else rest
  }

  /** `handleCreate` refuses exactly a blank description, amount or category, and dates an undated expense `today`. */
  lemma CreateRule(form: Form, parseFloat: string -> real, today: string)
    ensures HandleCreate(form, parseFloat, today).None? <==>
      form.description == "" || form.amount == "" || form.category == ""
    ensures HandleCreate(form, parseFloat, today).Some? ==>
      && HandleCreate(form, parseFloat, today).value.date == (if form.date == "" then today else form.date)
      && HandleCreate(form, parseFloat, today).value.amount == parseFloat(form.amount)
  {
  }
}
