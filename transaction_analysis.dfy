/**
 * The data logic of `analyze_transactions` in server.py, with the file read taken
 * out: the rows of the transactions file are the input. The tool optionally keeps
 * only one user's rows, reports that there are none, and then either summarises
 * (total of the debits and per-category totals, largest first) or returns the last
 * ten rows. The result is a structured report rather than the Markdown text.
 */
module TransactionAnalysis {
  import opened Wrappers

  /** The Amount cell as read from the file: a number, or anything `pd.to_numeric` cannot read (an empty cell too). */
  datatype AmountCell = Number(value: real) | NotANumber

  /** One row of the transactions file; `userId` is the User ID cell as text (`astype(str)`). */
  datatype Row = Row(userId: string, date: string, description: string, amount: AmountCell,
                     transactionType: string, category: string, accountName: string)

  /** One line of the "Spending by Category" table. */
  datatype CategoryTotal = CategoryTotal(category: string, total: real)

  /** What the tool answers, before it is laid out as Markdown. */
  datatype Report =
    | NoTransactions(userId: string)
    | Summary(totalDebits: real, breakdown: seq<CategoryTotal>)
    | Recent(rows: seq<Row>)

  /** How many rows `df.tail(10)` returns at most. */
  const RecentCount: nat := 10

  /** `pd.to_numeric(..., errors='coerce').fillna(0)` on one cell. */
  function Coerce(a: AmountCell): real
  {
    match a
    case Number(v) => v
    case NotANumber => 0.0
  }

  // ---------------------------------------------------------------- filtering

  /** `if user_id:` — the filter applies only to a present, non-empty user id. */
  predicate Filtering(userId: Option<string>)
  {
    userId.Some? && userId.value != ""
  }

  /** Whether a row survives the filter. */
  predicate Keeps(userId: Option<string>, r: Row)
  {
    !Filtering(userId) || r.userId == userId.value
  }

  /** The rows the filter keeps, in their original order: never more than given, and all of them when no user id is given. */
  function Filter(rows: seq<Row>, userId: Option<string>): (kept: seq<Row>)
    ensures |kept| <= |rows|
    ensures !Filtering(userId) ==> kept == rows
  {
    if rows == [] then []
    else
      var init := rows[..|rows| - 1];
      var last := rows[|rows| - 1];
      assert rows == init + [last];
      Filter(init, userId) + (if Keeps(userId, last) then [last] else [])
  }

  /** Filtering distributes over concatenation: the kept rows keep their original order. */
  lemma {:induction false} FilterAppend(a: seq<Row>, b: seq<Row>, userId: Option<string>)
    ensures Filter(a + b, userId) == Filter(a, userId) + Filter(b, userId)
  {
    if b == [] {
      assert a + b == a;
    } else {
      var init, last := b[..|b| - 1], b[|b| - 1];
      assert b == init + [last];
      assert a + b == (a + init) + [last];
      FilterAppend(a, init, userId);
      FilterSnoc(a + init, last, userId);
      FilterSnoc(init, last, userId);
    }
  }

  /** Filtering one more row appends it exactly when it is kept. */
  lemma FilterSnoc(rows: seq<Row>, x: Row, userId: Option<string>)
    ensures Filter(rows + [x], userId) == Filter(rows, userId) + (if Keeps(userId, x) then [x] else [])
  {
    assert (rows + [x])[..|rows|] == rows;
  }

  /** The filter keeps exactly the user's rows, each as often as it occurs. */
  lemma {:induction false} FilterSpec(rows: seq<Row>, userId: Option<string>)
    ensures forall r :: multiset(Filter(rows, userId))[r] == if Keeps(userId, r) then multiset(rows)[r] else 0
    ensures forall r :: r in Filter(rows, userId) <==> r in rows && Keeps(userId, r)
  {
    if rows != [] {
      var init := rows[..|rows| - 1];
      FilterSpec(init, userId);
      assert rows == init + [rows[|rows| - 1]];
    }
  }

  // ---------------------------------------------------------------- sums

  /**
   * Sum of the coerced amounts of the rows whose type is exactly "debit" (case-sensitive):
   * it is zero when no row is a debit, and the total of all amounts when every row is.
   */
  function TotalDebits(rows: seq<Row>): (total: real)
    ensures (forall i :: 0 <= i < |rows| ==> rows[i].transactionType != "debit") ==> total == 0.0
    ensures (forall i :: 0 <= i < |rows| ==> rows[i].transactionType == "debit") ==> total == TotalAmount(rows)
  {
    if rows == [] then 0.0
    else
      var last := rows[|rows| - 1];
      TotalDebits(rows[..|rows| - 1]) + (if last.transactionType == "debit" then Coerce(last.amount) else 0.0)
  }

  /** Sum of the coerced amounts of all rows, whatever their type. */
  function TotalAmount(rows: seq<Row>): real
  {
    if rows == [] then 0.0 else TotalAmount(rows[..|rows| - 1]) + Coerce(rows[|rows| - 1].amount)
  }

  /** The total of debits is a sum over the rows: it adds up over any split of them. */
  lemma {:induction false} TotalDebitsAppend(a: seq<Row>, b: seq<Row>)
    ensures TotalDebits(a + b) == TotalDebits(a) + TotalDebits(b)
  {
    if b == [] {
      assert a + b == a;
    } else {
      TotalDebitsAppend(a, b[..|b| - 1]);
      assert (a + b)[..|a + b| - 1] == a + b[..|b| - 1];
      assert (a + b)[|a + b| - 1] == b[|b| - 1];
    }
  }

  /** Sum of the coerced amounts of the rows of one category, whatever their type. */
  function CategorySum(rows: seq<Row>, c: string): real
  {
    if rows == [] then 0.0
    else
      var last := rows[|rows| - 1];
      CategorySum(rows[..|rows| - 1], c) + (if last.category == c then Coerce(last.amount) else 0.0)
  }

  /** Some row has category `c`. */
  ghost predicate HasCategory(rows: seq<Row>, c: string)
  {
    exists i :: 0 <= i < |rows| && rows[i].category == c
  }

  /**
   * The categories of the rows, each once, in order of first appearance (pandas would
   * list the groups by category name; the table is sorted by total afterwards).
   */
  function Categories(rows: seq<Row>): seq<string>
  {
    if rows == [] then []
    else
      var seen := Categories(rows[..|rows| - 1]);
      var c := rows[|rows| - 1].category;
      if c in seen then seen else seen + [c]
  }

  predicate Distinct(s: seq<string>)
  {
    forall i, j :: 0 <= i < j < |s| ==> s[i] != s[j]
  }

  /** A category that occurs in no row sums to zero. */
  lemma {:induction false} CategorySumAbsent(rows: seq<Row>, c: string)
    requires !HasCategory(rows, c)
    ensures CategorySum(rows, c) == 0.0
  {
    if rows != [] {
      var init := rows[..|rows| - 1];
      assert forall i :: 0 <= i < |init| ==> init[i] == rows[i];
      CategorySumAbsent(init, c);
    }
  }

  /** `Categories` lists every category of the rows, and nothing else, without repeats. */
  lemma {:induction false} CategoriesSpec(rows: seq<Row>)
    ensures Distinct(Categories(rows))
    ensures forall c :: c in Categories(rows) <==> HasCategory(rows, c)
  {
    if rows != [] {
      var init := rows[..|rows| - 1];
      var last := rows[|rows| - 1];
      CategoriesSpec(init);
      forall c ensures HasCategory(rows, c) <==> HasCategory(init, c) || last.category == c {
        if HasCategory(rows, c) {
          var i :| 0 <= i < |rows| && rows[i].category == c;
          if i < |init| {
            assert init[i] == rows[i];
          }
        }
        if HasCategory(init, c) {
          var i :| 0 <= i < |init| && init[i].category == c;
          assert rows[i] == init[i];
        }
      }
    }
  }

  // ---------------------------------------------------------------- group by and sort

  /** The per-category totals for the listed categories, in list order. */
  function Tally(cats: seq<string>, rows: seq<Row>): (r: seq<CategoryTotal>)
    ensures |r| == |cats|
    ensures forall i :: 0 <= i < |cats| ==> r[i] == CategoryTotal(cats[i], CategorySum(rows, cats[i]))
  {
    if cats == [] then []
    else
      var c := cats[|cats| - 1];
      Tally(cats[..|cats| - 1], rows) + [CategoryTotal(c, CategorySum(rows, c))]
  }

  /** The per-category sums of `groupby('Category')['Amount'].sum()`, with the categories in order of first appearance. */
  function ByCategory(rows: seq<Row>): seq<CategoryTotal>
  {
    Tally(Categories(rows), rows)
  }

  predicate NonIncreasing(s: seq<CategoryTotal>)
  {
    forall i, j :: 0 <= i < j < |s| ==> s[i].total >= s[j].total
  }

  predicate DistinctCategories(s: seq<CategoryTotal>)
  {
    forall i, j :: 0 <= i < j < |s| ==> s[i].category != s[j].category
  }

  /** Puts `x` before the first entry whose total is not larger than its own. */
  function InsertByTotal(x: CategoryTotal, s: seq<CategoryTotal>): seq<CategoryTotal>
  {
    if s == [] || s[0].total <= x.total then [x] + s else [s[0]] + InsertByTotal(x, s[1..])
  }

  /** `sort_values(ascending=False)`, as an insertion sort. */
  function SortByTotal(s: seq<CategoryTotal>): seq<CategoryTotal>
  {
    if s == [] then [] else InsertByTotal(s[0], SortByTotal(s[1..]))
  }

  /** Sum of the totals of the entries. */
  function TotalOf(s: seq<CategoryTotal>): real
  {
    if s == [] then 0.0 else s[0].total + TotalOf(s[1..])
  }

  /** Inserting adds `x` to the entries and its total to their total. */
  lemma {:induction false} InsertByTotalContents(x: CategoryTotal, s: seq<CategoryTotal>)
    ensures multiset(InsertByTotal(x, s)) == multiset(s) + multiset{x}
    ensures TotalOf(InsertByTotal(x, s)) == x.total + TotalOf(s)
  {
    if s != [] && s[0].total > x.total {
      InsertByTotalContents(x, s[1..]);
      assert s == [s[0]] + s[1..];
    }
  }

  /** Every entry after inserting is `x` or was there before. */
  lemma InsertByTotalMembers(x: CategoryTotal, s: seq<CategoryTotal>)
    ensures forall y :: y in InsertByTotal(x, s) ==> y == x || y in s
  {
  }

  /** Inserting into a non-increasing sequence keeps it non-increasing. */
  lemma {:induction false} InsertByTotalOrdered(x: CategoryTotal, s: seq<CategoryTotal>)
    requires NonIncreasing(s)
    ensures NonIncreasing(InsertByTotal(x, s))
  {
    if s != [] && s[0].total > x.total {
      InsertByTotalOrdered(x, s[1..]);
      InsertByTotalMembers(x, s[1..]);
      var t := InsertByTotal(x, s[1..]);
      forall j | 0 <= j < |t| ensures s[0].total >= t[j].total {
        assert t[j] in t;
        if t[j] != x {
          var k :| 0 <= k < |s[1..]| && s[1..][k] == t[j];
          assert s[k + 1] == t[j];
        }
      }
    }
  }

  /** Inserting an entry of a new category keeps categories distinct. */
  lemma {:induction false} InsertByTotalDistinct(x: CategoryTotal, s: seq<CategoryTotal>)
    requires DistinctCategories(s)
    requires forall y :: y in s ==> y.category != x.category
    ensures DistinctCategories(InsertByTotal(x, s))
  {
    if s != [] && s[0].total > x.total {
      InsertByTotalDistinct(x, s[1..]);
      InsertByTotalMembers(x, s[1..]);
      var t := InsertByTotal(x, s[1..]);
      forall j | 0 <= j < |t| ensures s[0].category != t[j].category {
        assert t[j] in t;
        if t[j] != x {
          var k :| 0 <= k < |s[1..]| && s[1..][k] == t[j];
          assert s[k + 1] == t[j];
        }
      }
    }
  }

  /** Sorting yields a non-increasing permutation with the same total. */
  lemma {:induction false} SortByTotalSpec(s: seq<CategoryTotal>)
    ensures multiset(SortByTotal(s)) == multiset(s)
    ensures TotalOf(SortByTotal(s)) == TotalOf(s)
    ensures NonIncreasing(SortByTotal(s))
  {
    if s != [] {
      var rest := SortByTotal(s[1..]);
      SortByTotalSpec(s[1..]);
      InsertByTotalContents(s[0], rest);
      InsertByTotalOrdered(s[0], rest);
      assert s == [s[0]] + s[1..];
    }
  }

  /** Sorting keeps the categories distinct. */
  lemma {:induction false} SortByTotalDistinct(s: seq<CategoryTotal>)
    requires DistinctCategories(s)
    ensures DistinctCategories(SortByTotal(s))
  {
    if s != [] {
      var rest := SortByTotal(s[1..]);
      SortByTotalDistinct(s[1..]);
      SortByTotalSpec(s[1..]);
      forall y | y in rest ensures y.category != s[0].category {
        assert y in multiset(rest);
        var k :| 0 <= k < |s[1..]| && s[1..][k] == y;
        assert s[k + 1] == y;
      }
      InsertByTotalDistinct(s[0], rest);
    }
  }


  /**
   * What the category table promises: one entry per category that occurs, each with
   * the sum of all that category's amounts whatever their type, largest first.
   */
  ghost predicate IsBreakdown(rows: seq<Row>, bd: seq<CategoryTotal>)
  {
    && NonIncreasing(bd)
    && DistinctCategories(bd)
    && (forall i :: 0 <= i < |bd| ==> HasCategory(rows, bd[i].category) && bd[i].total == CategorySum(rows, bd[i].category))
    && (forall c :: HasCategory(rows, c) ==> exists i :: 0 <= i < |bd| && bd[i].category == c)
  }

  /** The sorted category table is what the table promises. */
  lemma BreakdownSpec(rows: seq<Row>)
    ensures IsBreakdown(rows, SortByTotal(ByCategory(rows)))
  {
    CategoriesSpec(rows);
    var cats := Categories(rows);
    var u := ByCategory(rows);
    SortByTotalSpec(u);
    SortByTotalDistinct(u);
    var bd := SortByTotal(u);
    forall i | 0 <= i < |bd|
      ensures HasCategory(rows, bd[i].category) && bd[i].total == CategorySum(rows, bd[i].category)
    {
      assert bd[i] in multiset(u);
      var k :| 0 <= k < |u| && u[k] == bd[i];
      assert cats[k] in cats;
    }
    forall c | HasCategory(rows, c) ensures exists i :: 0 <= i < |bd| && bd[i].category == c {
      var k :| 0 <= k < |cats| && cats[k] == c;
      assert u[k] in multiset(bd);
      var i :| 0 <= i < |bd| && bd[i] == u[k];
    }
  }

  lemma {:induction false} TotalOfAppend(a: seq<CategoryTotal>, x: CategoryTotal)
    ensures TotalOf(a + [x]) == TotalOf(a) + x.total
  {
    if a != [] {
      TotalOfAppend(a[1..], x);
      assert (a + [x])[1..] == a[1..] + [x];
    }
  }

  /**
   * Adding one row raises the tally of its category, if listed, by its amount and leaves
   * every other entry as it was, so the grand total rises by that amount.
   */
  lemma {:induction false} TallyStep(cats: seq<string>, rows: seq<Row>, r: Row)
    requires Distinct(cats)
    ensures forall i :: 0 <= i < |cats| ==>
              Tally(cats, rows + [r])[i].total
              == Tally(cats, rows)[i].total + (if cats[i] == r.category then Coerce(r.amount) else 0.0)
    ensures TotalOf(Tally(cats, rows + [r]))
         == TotalOf(Tally(cats, rows)) + (if r.category in cats then Coerce(r.amount) else 0.0)
  {
    if cats != [] {
      var front := cats[..|cats| - 1];
      var k := cats[|cats| - 1];
      assert cats == front + [k];
      TallyStep(front, rows, r);
      TotalOfAppend(Tally(front, rows + [r]), CategoryTotal(k, CategorySum(rows + [r], k)));
      TotalOfAppend(Tally(front, rows), CategoryTotal(k, CategorySum(rows, k)));
      assert (rows + [r])[..|rows|] == rows;
    }
  }

  /** The category totals add up to the total of all amounts: every row lands in exactly one category. */
  lemma {:induction false} BreakdownAddsUp(rows: seq<Row>)
    ensures TotalOf(SortByTotal(ByCategory(rows))) == TotalAmount(rows)
  {
    SortByTotalSpec(ByCategory(rows));
    TallyAddsUp(rows);
  }

  /**
   * `groupby('Category')['Amount'].sum().sort_values(ascending=False)`: one entry per
   * category, with the sum of all its amounts, largest first, adding up to the total.
   */
  function Breakdown(rows: seq<Row>): (bd: seq<CategoryTotal>)
    ensures IsBreakdown(rows, bd)
    ensures TotalOf(bd) == TotalAmount(rows)
  {
    BreakdownSpec(rows);
    BreakdownAddsUp(rows);
    SortByTotal(ByCategory(rows))
  }

  lemma {:induction false} TallyAddsUp(rows: seq<Row>)
    ensures TotalOf(ByCategory(rows)) == TotalAmount(rows)
  {
    if rows != [] {
      var init := rows[..|rows| - 1];
      var r := rows[|rows| - 1];
      assert rows == init + [r];
      TallyAddsUp(init);
      CategoriesSpec(init);
      var cats := Categories(init);
      TallyStep(cats, init, r);
      if r.category !in cats {
        assert Categories(rows) == cats + [r.category];
        assert (cats + [r.category])[..|cats|] == cats;
        TotalOfAppend(Tally(cats, rows), CategoryTotal(r.category, CategorySum(rows, r.category)));
        CategorySumAbsent(init, r.category);
      }
    }
  }

  // ---------------------------------------------------------------- the tool

  /** `df.tail(n)`: the last min(n, |rows|) rows, in their original order. */
  function Tail(rows: seq<Row>, n: nat): (r: seq<Row>)
    ensures |r| == if |rows| < n then |rows| else n
    ensures rows == rows[..|rows| - |r|] + r
  {
    rows[|rows| - (if |rows| < n then |rows| else n)..]
  }

  /**
   * The report `analyze_transactions` gives for the rows of the file: "No transactions
   * found" exactly when a user id is given and no row carries it; otherwise, in summary
   * mode, the debit total of the kept rows and their category table, and in any other
   * mode the last ten (or fewer) kept rows, in their original order. The tool's
   * defaults (`query_type="summary"`, `user_id=None`) make a call with no arguments
   * `Analysis(rows, "summary", None)`.
   */
  function Analysis(rows: seq<Row>, queryType: string, userId: Option<string>): (report: Report)
    ensures report.NoTransactions? <==> Filtering(userId) && forall r :: r in rows ==> r.userId != userId.value
    ensures report.NoTransactions? ==> report.userId == userId.value
    ensures report.Summary? <==> !report.NoTransactions? && queryType == "summary"
    ensures report.Summary? ==>
              && report.totalDebits == TotalDebits(Filter(rows, userId))
              && IsBreakdown(Filter(rows, userId), report.breakdown)
              && TotalOf(report.breakdown) == TotalAmount(Filter(rows, userId))
    ensures report.Recent? ==>
              var kept := Filter(rows, userId);
              && |report.rows| == (if |kept| < RecentCount then |kept| else RecentCount)
              && kept == kept[..|kept| - |report.rows|] + report.rows
  {
    var kept := Filter(rows, userId);
    FilterSpec(rows, userId);
    assert kept != [] ==> kept[0] in kept;
    if Filtering(userId) && kept == [] then NoTransactions(userId.value)
    else if queryType == "summary" then Summary(TotalDebits(kept), Breakdown(kept))
    else Recent(Tail(kept, RecentCount))
  }

  /** `df[df['User ID'].astype(str) == str(user_id)]` for a non-empty user id. */
  method FilterRows(rows: seq<Row>, u: string) returns (kept: seq<Row>)
    requires u != ""
    ensures kept == Filter(rows, Some(u))
  {
    kept := [];
    for i := 0 to |rows|
      invariant kept == Filter(rows[..i], Some(u))
    {
      assert rows[..i + 1][..i] == rows[..i];
      if rows[i].userId == u {
        kept := kept + [rows[i]];
      }
    }
    assert rows[..|rows|] == rows;
  }

  /** `pd.to_numeric(df['Amount'], errors='coerce').fillna(0)`: the Amount column as numbers. */
  method CoerceAmounts(rows: seq<Row>) returns (amounts: seq<real>)
    ensures |amounts| == |rows|
    ensures forall j :: 0 <= j < |rows| ==> amounts[j] == Coerce(rows[j].amount)
  {
    amounts := [];
    for i := 0 to |rows|
      invariant |amounts| == i
      invariant forall j :: 0 <= j < i ==> amounts[j] == Coerce(rows[j].amount)
    {
      amounts := amounts + [Coerce(rows[i].amount)];
    }
  }

  /** `df[df['Transaction Type'] == 'debit']['Amount'].sum()` over the coerced column. */
  method SumDebits(rows: seq<Row>, amounts: seq<real>) returns (total: real)
    requires |amounts| == |rows|
    requires forall j :: 0 <= j < |rows| ==> amounts[j] == Coerce(rows[j].amount)
    ensures total == TotalDebits(rows)
  {
    total := 0.0;
    for i := 0 to |rows|
      invariant total == TotalDebits(rows[..i])
    {
      assert rows[..i + 1][..i] == rows[..i];
      if rows[i].transactionType == "debit" {
        total := total + amounts[i];
      }
    }
    assert rows[..|rows|] == rows;
  }

  /**
   * `df.groupby('Category')['Amount'].sum()` over the coerced column, with the categories
   * in order of first appearance rather than by name as pandas lists them.
   */
  method GroupByCategory(rows: seq<Row>, amounts: seq<real>) returns (grouped: seq<CategoryTotal>)
    requires |amounts| == |rows|
    requires forall j :: 0 <= j < |rows| ==> amounts[j] == Coerce(rows[j].amount)
    ensures grouped == ByCategory(rows)
  {
    var sums: map<string, real> := map[];
    var order: seq<string> := [];
    for i := 0 to |rows|
      invariant order == Categories(rows[..i])
      invariant forall c :: c in sums <==> c in order
      invariant forall c :: c in order ==> sums[c] == CategorySum(rows[..i], c)
    {
      assert rows[..i + 1][..i] == rows[..i];
      var c := rows[i].category;
      if c in sums {
        sums := sums[c := sums[c] + amounts[i]];
      } else {
        CategoriesSpec(rows[..i]);
        CategorySumAbsent(rows[..i], c);
        sums := sums[c := amounts[i]];
        order := order + [c];
      }
    }
    assert rows[..|rows|] == rows;
    grouped := [];
    for j := 0 to |order|
      invariant grouped == Tally(order[..j], rows)
    {
      assert order[..j + 1][..j] == order[..j];
      grouped := grouped + [CategoryTotal(order[j], sums[order[j]])];
    }
    assert order[..|order|] == order;
  }

  /** `analyze_transactions`, step by step: filter, coerce the Amount column, total the debits, group, sort. */
  method AnalyzeTransactions(rows: seq<Row>, queryType: string, userId: Option<string>) returns (report: Report)
    ensures report == Analysis(rows, queryType, userId)
  {
    var kept := rows;
    if userId.Some? && userId.value != "" {
      kept := FilterRows(rows, userId.value);
      if kept == [] {
        return NoTransactions(userId.value);
      }
    }
    if queryType == "summary" {
      var amounts := CoerceAmounts(kept);
      var totalSpent := SumDebits(kept, amounts);
      var grouped := GroupByCategory(kept, amounts);
      report := Summary(totalSpent, SortByTotal(grouped));
    } else {
      report := Recent(Tail(kept, RecentCount));
    }
  }

  // ---------------------------------------------------------------- what the report promises

  /** Without a user id (None or empty) every row takes part, and the report is never "No transactions found". */
  lemma WithoutUserKeepsAll(rows: seq<Row>, queryType: string, userId: Option<string>)
    requires !Filtering(userId)
    ensures Analysis(rows, queryType, userId)
         == if queryType == "summary" then Summary(TotalDebits(rows), Breakdown(rows))
            else Recent(Tail(rows, RecentCount))
  {
  }

  // ---------------------------------------------------------------- an example

  // User 7 has groceries and a refund whose amount cannot be read (so it counts as 0),
  // a cafe bill typed "Debit" (not counted as a debit: the test is case-sensitive) and
  // a salary; user 8's rent is filtered out.
  const Groceries := Row("7", "2023-08-01", "Groceries", Number(60.0), "debit", "Food", "Checking")
  const Cafe := Row("7", "2023-08-02", "Cafe", Number(5.0), "Debit", "Food", "Checking")
  const Rent := Row("8", "2023-08-02", "Rent", Number(900.0), "debit", "Housing", "Checking")
  const Salary := Row("7", "2023-08-03", "Salary", Number(1000.0), "credit", "Income", "Checking")
  const Refund := Row("7", "2023-08-04", "Refund", NotANumber, "debit", "Food", "Card")

  lemma ExampleFilter()
    ensures Filter([Groceries, Cafe, Rent, Salary, Refund], Some("7")) == [Groceries, Cafe, Salary, Refund]
  {
    var u := Some("7");
    var r1, r2, r3, r4, r5 := [Groceries], [Groceries, Cafe], [Groceries, Cafe, Rent],
      [Groceries, Cafe, Rent, Salary], [Groceries, Cafe, Rent, Salary, Refund];
    assert r1[..0] == [] && r2[..1] == r1 && r3[..2] == r2 && r4[..3] == r3 && r5[..4] == r4;
    assert Filter(r1, u) == [Groceries];
    assert Filter(r2, u) == [Groceries, Cafe];
    assert Filter(r3, u) == [Groceries, Cafe];
    assert Filter(r4, u) == [Groceries, Cafe, Salary];
  }

  lemma ExampleSums()
    ensures TotalDebits([Groceries, Cafe, Salary, Refund]) == 60.0
    ensures ByCategory([Groceries, Cafe, Salary, Refund]) == [CategoryTotal("Food", 65.0), CategoryTotal("Income", 1000.0)]
  {
    var k1, k2, k3, k4 := [Groceries], [Groceries, Cafe], [Groceries, Cafe, Salary], [Groceries, Cafe, Salary, Refund];
    assert k1[..0] == [] && k2[..1] == k1 && k3[..2] == k2 && k4[..3] == k3;
    assert TotalDebits(k1) == 60.0 && TotalDebits(k2) == 60.0 && TotalDebits(k3) == 60.0;
    assert Categories(k1) == ["Food"] && Categories(k2) == ["Food"];
    assert Categories(k3) == ["Food", "Income"];
    assert Categories(k4) == ["Food", "Income"];
    assert CategorySum(k1, "Food") == 60.0;
    assert CategorySum(k2, "Food") == 65.0;
    assert CategorySum(k3, "Food") == 65.0;
    assert CategorySum(k4, "Food") == 65.0;
    assert CategorySum(k1, "Income") == 0.0;
    assert CategorySum(k2, "Income") == 0.0;
    assert CategorySum(k3, "Income") == 1000.0;
    assert CategorySum(k4, "Income") == 1000.0;
    assert ["Food", "Income"][..1] == ["Food"];
  }

  /** The summary for user 7: debits 60, then Income 1000 and Food 65 (the cafe bill counts for its category). */
  lemma SummaryExample()
    ensures Analysis([Groceries, Cafe, Rent, Salary, Refund], "summary", Some("7"))
         == Summary(60.0, [CategoryTotal("Income", 1000.0), CategoryTotal("Food", 65.0)])
  {
    ExampleFilter();
    ExampleSums();
    var food, income := CategoryTotal("Food", 65.0), CategoryTotal("Income", 1000.0);
    assert [food, income][1..] == [income] && [income][1..] == [];
    assert SortByTotal([income]) == [income];
    assert InsertByTotal(food, [income]) == [income, food] by {
      assert [income][1..] == [];
    }
  }
}
