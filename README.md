# Psychology assistant and transaction tools: a verified model

This project models the three pieces of logic in server.py, main.py and import_CSV.py:

1. **The cognitive-distortion keyword tools** (`analyze_thought_pattern` and
   `get_coping_strategy`, present both in server.py and main.py). Each lower-cases its
   input and tests keywords as substrings in a fixed order; the first hit picks one of
   four fixed messages. Module `ServerTools` models server.py, module `MainTools`
   models main.py separately and proves that both files answer alike. Module `Text`
   holds lower-casing and the substring test.
2. **The data logic of `analyze_transactions`** (server.py), module
   `TransactionAnalysis`. The rows of the transactions file are the input. The tool
   keeps one user's rows when a non-empty user id is given, and answers "no
   transactions" when none are left. In summary mode it coerces unreadable amounts to
   0, totals the rows typed exactly `debit`, and groups all rows by category, largest
   total first. In any other mode it returns the last ten rows, or all of them when
   there are fewer. Called with no arguments the tool is `Analysis(rows, "summary",
   None)`, from its defaults `query_type="summary"` and `user_id=None`. `AnalyzeTransactions`
   runs the filter, the coercion, the debit total and the grouping as loops, one
   method each; the sort and the tail are functions. It is proved equal to the
   function `Analysis`, whose contract states what the report means.
3. **The CSV import** (`import_csv` in import_CSV.py), module `CsvImport`, with
   `insert_transaction` modelled in module `Database` as an append to the store's
   ghost sequence of records. All seven required columns are checked first, and the
   first missing one raises. Only then is one record inserted per row, in row order,
   with the transaction type lower-cased.

Amounts are exact `real` numbers, not floating point. The result of
`analyze_transactions` is a `Report` value (`NoTransactions`, `Summary` or `Recent`),
not Markdown text. A CSV row is given as a map from column name to the cell's text,
and Python's `float` on the Amount cell is the parameter `toFloat`.

The four files modelled here (server.py, main.py, import_CSV.py and database.py)
contain no income or savings aggregate, personality classifier, forecaster or risk
alert. The model covers only what these files contain.

## Model

| member | source | states |
|---|---|---|
| `Text.Lower` | server.py:19 | `lower()` keeps the length and lower-cases each character in place (ASCII letters) |
| `Text.LowerIsIdempotent` | import_CSV.py:34 | a lower-cased string is lower-case, and lower-casing it again changes nothing |
| `Text.LowerDecidesCase` | server.py:19 | two strings have the same lower-case form exactly when they agree up to letter case |
| `Text.Contains` | server.py:20-25 | the substring test `p in s` holds exactly when `p` stands in `s` at some index |
| `Text.ContainsLowerIff` | server.py:19-25 | searching the lower-cased text for a lower-case keyword succeeds exactly when the keyword occurs in the text in any mixture of cases |
| `ServerTools.AnalyzeThoughtPattern` | server.py:17-27 | total: every thought gets one of the four fixed messages |
| `ServerTools.ThoughtKeywords` | server.py:19-25 | each of the seven keyword tests succeeds exactly when its keyword occurs in the thought, ignoring case |
| `ServerTools.AllOrNothingIff` | server.py:20-21 | All-or-Nothing exactly when "always" or "never" occurs (as a substring, any case), whatever other keywords occur |
| `ServerTools.CatastrophizingIff` | server.py:22-23 | Catastrophizing exactly when "disaster", "awful" or "worst" occurs and neither "always" nor "never" does |
| `ServerTools.EmotionalReasoningIff` | server.py:24-25 | Emotional Reasoning exactly when both "feel" and "must" occur and no keyword of the two earlier groups does |
| `ServerTools.NoDistortionIff` | server.py:26-27 | the default message exactly when no keyword group fires |
| `ServerTools.AnalyzeIgnoresCase` | server.py:19 | thoughts that differ only in letter case get the same message |
| `ServerTools.SubstringWithinWord` | server.py:20-23 | "NEVERtheless, it feels awful" is All-or-Nothing: keywords match inside words, and the first group outranks "awful" |
| `ServerTools.GetCopingStrategy` | server.py:30-40 | total: every key gets one of the four fixed strategies |
| `ServerTools.CopingStrategyIff` | server.py:32-40 | Decatastrophizing iff "catastrophizing" occurs; else Shades of Gray iff "all_or_nothing" occurs; else Feelings are not Facts iff "emotional_reasoning" occurs; else Mindfulness |
| `ServerTools.CopingStrategyIgnoresCase` | server.py:32 | keys that differ only in letter case get the same strategy |
| `MainTools.AnalyzeThoughtPattern` | main.py:12-27 | total: every thought gets one of the four fixed messages |
| `MainTools.GetCopingStrategy` | main.py:30-43 | total: every key gets one of the four fixed strategies |
| `MainTools.AnalyzeAgreesWithServer` | main.py:12-27 | main.py's classifier returns the same string as server.py's for every thought |
| `MainTools.CopingStrategyAgreesWithServer` | main.py:30-43 | main.py's strategy selector returns the same string as server.py's for every key |
| `MainTools.AnalyzePrecedence` | main.py:17-27 | main.py: All-or-Nothing, then Catastrophizing, then Emotional Reasoning, then the default, each an if-and-only-if on keyword occurrence |
| `MainTools.AnalyzeIgnoresCase` | main.py:17 | main.py's classifier depends only on the lower-cased thought |
| `MainTools.CopingStrategyPrecedence` | main.py:35-43 | main.py: catastrophizing, then all_or_nothing, then emotional_reasoning, then Mindfulness, each an if-and-only-if on occurrence |
| `TransactionAnalysis.Coerce` | server.py:79 | one cell of `pd.to_numeric(..., errors='coerce').fillna(0)`: its number, or 0 when unreadable; see `CoerceAmounts` and `ExampleSums` |
| `TransactionAnalysis.Filtering` | server.py:71 | `if user_id:`, true exactly for a present, non-empty id; see `Filter`, `FilterSpec` and `WithoutUserKeepsAll` |
| `TransactionAnalysis.Filter` | server.py:71-72 | the filter keeps no more rows than it is given, and with no id, or an empty one, it keeps every row unchanged |
| `TransactionAnalysis.FilterSpec` | server.py:71-72 | the filter keeps exactly the rows whose User ID equals the given id, each as many times as it occurs in the file |
| `TransactionAnalysis.FilterAppend` | server.py:72 | filtering a concatenation filters each part and concatenates the results, so the kept rows stay in their original order |
| `TransactionAnalysis.FilterSnoc` | server.py:72 | one more row is appended to the kept rows exactly when it survives the filter |
| `TransactionAnalysis.FilterRows` | server.py:72 | the filtering loop yields exactly the filtered rows, in order |
| `TransactionAnalysis.CoerceAmounts` | server.py:79 | the Amount column becomes numbers, each unreadable cell 0 |
| `TransactionAnalysis.SumDebits` | server.py:81 | the loop's total equals the sum of the coerced amounts of the rows typed exactly "debit" |
| `TransactionAnalysis.TotalDebits` | server.py:81 | only rows typed exactly "debit" count: the total is 0 when no row is a debit, and the total of all amounts when every row is |
| `TransactionAnalysis.TotalDebitsAppend` | server.py:81 | the debit total adds up over any split of the rows |
| `TransactionAnalysis.CategoriesSpec` | server.py:82 | the category list names every category of the rows, nothing else, each once |
| `TransactionAnalysis.CategorySumAbsent` | server.py:82 | a category no row has sums to 0 |
| `TransactionAnalysis.ByCategory` | server.py:82 | `groupby('Category')['Amount'].sum()`; see `CategoriesSpec`, `Tally`'s ensures and `TallyAddsUp` |
| `TransactionAnalysis.GroupByCategory` | server.py:82 | the grouping loops yield each category once with the sum of all its amounts (listed in order of first appearance, not by name as pandas lists them) |
| `TransactionAnalysis.InsertByTotalContents` | server.py:82 | inserting an entry adds exactly that entry, and its total, to the table |
| `TransactionAnalysis.InsertByTotalOrdered` | server.py:82 | inserting into a table sorted by descending total keeps it sorted |
| `TransactionAnalysis.InsertByTotalDistinct` | server.py:82 | inserting an entry of a new category keeps the categories distinct |
| `TransactionAnalysis.SortByTotal` | server.py:82 | `sort_values(ascending=False)`; see `SortByTotalSpec` and `SortByTotalDistinct` |
| `TransactionAnalysis.SortByTotalSpec` | server.py:82 | sorting gives a permutation in non-increasing order of total, with the same grand total |
| `TransactionAnalysis.SortByTotalDistinct` | server.py:82 | sorting keeps the categories distinct |
| `TransactionAnalysis.BreakdownSpec` | server.py:82 | the sorted grouping lists every category of the rows once, each with the sum of all its amounts whatever their type, largest first |
| `TransactionAnalysis.TallyStep` | server.py:82 | one more row raises its category's entry, if listed, by its coerced amount, leaves every other entry unchanged, and so raises the grand total by that amount |
| `TransactionAnalysis.TallyAddsUp` | server.py:82 | the unsorted category sums add up to the total of all amounts |
| `TransactionAnalysis.BreakdownAddsUp` | server.py:82 | the sorted grouping's totals add up to the total of all amounts |
| `TransactionAnalysis.Breakdown` | server.py:82 | the category table lists every category of the rows once, each with the sum of all its amounts, largest first, and its totals add up to the total of all amounts |
| `TransactionAnalysis.Tail` | server.py:93 | `tail(n)` is a suffix of the rows of length min(n, number of rows) |
| `TransactionAnalysis.AnalyzeTransactions` | server.py:54-93 | the step-by-step tool gives exactly the report `Analysis` describes |
| `TransactionAnalysis.Analysis` | server.py:71-93 | "No transactions found" for the given id exactly when an id is given and no row carries it; otherwise summary mode gives the debit total of the kept rows and a category table listing each category once with its sum, largest first, adding up to the total of all amounts, and any other mode gives the last min(10, n) kept rows in their original order |
| `TransactionAnalysis.WithoutUserKeepsAll` | server.py:71 | with no id or an empty id every row takes part and the answer is never "No transactions found" |
| `TransactionAnalysis.ExampleFilter` | server.py:72 | on a five-row example, user 7's four rows are kept in order |
| `TransactionAnalysis.ExampleSums` | server.py:79-82 | on the kept rows, the debit total is 60 (a "Debit" row and a credit are not counted, an unreadable amount counts 0), and Food sums to 65 and Income to 1000 |
| `TransactionAnalysis.SummaryExample` | server.py:71-88 | the whole summary of the example: debits 60, then Income 1000 and Food 65 |
| `Database.Store.InsertTransaction` | database.py:28-39 | an insert appends exactly the given record and changes nothing else |
| `CsvImport.FirstMissing` | import_CSV.py:24-26 | nothing is missing exactly when every required column is present; otherwise the result is the earliest absent column in list order |
| `CsvImport.ExceptionText` | import_CSV.py:26 | the text `Missing column: <col>` raised for a missing column; see `ImportCsv` |
| `CsvImport.CheckColumns` | import_CSV.py:14-26 | the column-check loop stops at the first required column, in list order, that the header lacks |
| `CsvImport.CompleteRowsHaveRequired` | import_CSV.py:24-28 | once the check passes, every row has all seven cells the mapping reads |
| `CsvImport.ToTransaction` | import_CSV.py:29-37 | the record takes user id, date, description, category and account name from their cells unchanged, the amount through `float`, and a transaction type that is lower-case and equal to the cell's up to case |
| `CsvImport.StoredTypeIsNormalised` | import_CSV.py:34 | lower-casing a stored transaction type again changes nothing |
| `CsvImport.InsertRows` | import_CSV.py:28-37 | the store grows by exactly one record per row, in row order, each the row's mapped record, with earlier records untouched |
| `CsvImport.ImportCsv` | import_CSV.py:8-39 | a missing column raises "Missing column: X" for the first missing X and inserts nothing; otherwise one record per row, in order |

## Left out

- Reading files: the hard-coded paths, `os.path.exists`, `pd.read_csv` and the "file not found" answer (server.py:62-65, 68; import_CSV.py:5, 11). The rows are the input instead.
- The Markdown layout and currency formatting of the answers (server.py:82-88, 93): the model returns a `Report` value.
- The catch-all `except` (server.py:95-96): the errors it would catch (a missing column, or `to_markdown` lacking its optional `tabulate` dependency) are not modelled. Model rows always carry every column.
- `init_db`, the SQLite connection, the `CREATE TABLE` statement, the auto-assigned id and `get_transactions_df` (database.py): the table is the store's sequence of records.
- A `float` failure on a row part-way through an import (import_CSV.py:33): `toFloat` is total, so the rows inserted before such a failure are not modelled. Only the up-front column check is shown to leave the store unchanged.
- `print("CSV import complete.")` (import_CSV.py:39).
- The FastMCP server objects, tool decorators and `mcp.run` (server.py:3-6, 98-99; main.py:1-3, 62-67).
- Floating-point amounts: amounts are exact `real` numbers, so rounding in the sums is not modelled.
- The disclaimer tools and the unused `DISTORTIONS` dictionaries, which carry no logic.
- Text.Lower: lower-cases only the ASCII letters A-Z, while Python's `str.lower` also lower-cases other Unicode letters (and can change the length).
- CsvImport.ToTransaction: cells arrive as text, so `str(...)` of a non-text cell (a number, or NaN as "nan") is not modelled.
- Rows of the transactions file: the User ID cell is text (after `astype(str)`), and the category is always text. Pandas `groupby` would drop a row whose category is empty (NaN); that case is not modelled.
- TransactionAnalysis.SortByTotal: pandas `sort_values` fixes no order among equal totals. The model uses an insertion sort, and the lemmas promise only non-increasing order, so the order of ties is the model's own.
- TransactionAnalysis.GroupByCategory: pandas `groupby` lists the groups sorted by category name, while the model lists them in order of first appearance. Only the order of the unsorted table differs; the sorted table is specified by `IsBreakdown`, which fixes no order among equal totals.
- Income or savings aggregates, a personality classifier, a forecaster and a risk alert: server.py, main.py, import_CSV.py and database.py contain none of these, so the model has none.
