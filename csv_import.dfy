/**
 * `import_csv` of import_CSV.py: checks that the table read from the file has all
 * seven required columns, raising on the first one missing, and only then inserts
 * one transaction per row, in row order, with the transaction type lower-cased.
 */
module CsvImport {
  import opened Wrappers
  import Text
  import Database

  /** The columns the import needs, in the order it checks them. */
  const RequiredColumns: seq<string> :=
    ["User ID", "Date", "Description", "Amount", "Transaction Type", "Category", "Account Name"]

  /** A table read from the file: its header, and its rows, each mapping a column name to its cell as text. */
  datatype Frame = Frame(columns: seq<string>, rows: seq<map<string, string>>)

  /** Every row has a cell for every column of the header, as in any table read from a file. */
  predicate RowsComplete(f: Frame)
  {
    forall i, c :: 0 <= i < |f.rows| && c in f.columns ==> c in f.rows[i]
  }

  /** A row that has every required column. */
  predicate HasRequired(row: map<string, string>)
  {
    forall c :: c in RequiredColumns ==> c in row
  }

  /** How the import ends: all rows inserted, or an exception with its text. */
  datatype ImportOutcome = Imported | Raised(message: string)

  /** The text of the exception `import_csv` raises for a missing column. */
  function ExceptionText(column: string): string
  {
    "Missing column: " + column
  }

  /**
   * The first of `required` that is not among `columns`: nothing exactly when all are
   * present, and otherwise the earliest absent one in list order.
   */
  function FirstMissing(required: seq<string>, columns: seq<string>): (missing: Option<string>)
    ensures missing.None? <==> forall c :: c in required ==> c in columns
    ensures missing.Some? ==>
              exists k :: 0 <= k < |required| && required[k] == missing.value
                          && required[k] !in columns
                          && forall j :: 0 <= j < k ==> required[j] in columns
  {
    if required == [] then None
    else if required[0] !in columns then
      assert required[0] in required;
      Some(required[0])
    else
      var rest := FirstMissing(required[1..], columns);
      FirstMissingShift(required, columns, rest);
      rest
  }

  /** What `FirstMissing` promises for `required[1..]` it promises for `required` when `required[0]` is present. */
  lemma FirstMissingShift(required: seq<string>, columns: seq<string>, missing: Option<string>)
    requires required != [] && required[0] in columns
    requires missing.None? <==> forall c :: c in required[1..] ==> c in columns
    requires missing.Some? ==>
               exists k :: 0 <= k < |required[1..]| && required[1..][k] == missing.value
                           && required[1..][k] !in columns
                           && forall j :: 0 <= j < k ==> required[1..][j] in columns
    ensures missing.None? <==> forall c :: c in required ==> c in columns
    ensures missing.Some? ==>
              exists k :: 0 <= k < |required| && required[k] == missing.value
                          && required[k] !in columns
                          && forall j :: 0 <= j < k ==> required[j] in columns
  {
  }


  /** The record `insert_transaction` receives for one row. */
  function ToTransaction(row: map<string, string>, toFloat: string -> real): (t: Database.Transaction)
    requires HasRequired(row)
    ensures Text.IsLower(t.transactionType)
    ensures Text.SameIgnoringCase(t.transactionType, row["Transaction Type"])
    ensures t.userId == row["User ID"] && t.date == row["Date"] && t.description == row["Description"]
    ensures t.category == row["Category"] && t.accountName == row["Account Name"]
    ensures t.amount == toFloat(row["Amount"])
  {
    Text.LowerIsIdempotent(row["Transaction Type"]);
    Database.Transaction(row["User ID"], row["Date"], row["Description"], toFloat(row["Amount"]),
                         Text.Lower(row["Transaction Type"]), row["Category"], row["Account Name"])
  }

  /** The stored transaction type is already lower-case: lower-casing it again changes nothing. */
  lemma StoredTypeIsNormalised(row: map<string, string>, toFloat: string -> real)
    requires HasRequired(row)
    ensures Text.Lower(ToTransaction(row, toFloat).transactionType) == ToTransaction(row, toFloat).transactionType
  {
  }

  /** The column check of `import_csv`: the first required column the header lacks, in list order. */
  method CheckColumns(columns: seq<string>) returns (missing: Option<string>)
    ensures missing == FirstMissing(RequiredColumns, columns)
  {
    for k := 0 to |RequiredColumns|
      invariant FirstMissing(RequiredColumns, columns) == FirstMissing(RequiredColumns[k..], columns)
    {
      assert RequiredColumns[k..][1..] == RequiredColumns[k + 1..];
      if RequiredColumns[k] !in columns {
        return Some(RequiredColumns[k]);
      }
    }
    return None;
  }

  /** The row loop of `import_csv` over `df.iterrows()`: one insert per row, in row order. */
  method InsertRows(store: Database.Store, frame: Frame, toFloat: string -> real)
    requires forall j :: 0 <= j < |frame.rows| ==> HasRequired(frame.rows[j])
    modifies store
    ensures |store.records| == |old(store.records)| + |frame.rows|
    ensures store.records[..|old(store.records)|] == old(store.records)
    ensures forall j :: 0 <= j < |frame.rows| ==>
              HasRequired(frame.rows[j])
              && store.records[|old(store.records)| + j] == ToTransaction(frame.rows[j], toFloat)
  {
    for i := 0 to |frame.rows|
      invariant |store.records| == |old(store.records)| + i
      invariant store.records[..|old(store.records)|] == old(store.records)
      invariant forall j :: 0 <= j < i ==> store.records[|old(store.records)| + j] == ToTransaction(frame.rows[j], toFloat)
    {
      var row := frame.rows[i];
      store.InsertTransaction(row["User ID"], row["Date"], row["Description"], toFloat(row["Amount"]),
                              Text.Lower(row["Transaction Type"]), row["Category"], row["Account Name"]);
    }
  }

  /** Once no required column is missing, every row has all the cells the mapping reads. */
  lemma CompleteRowsHaveRequired(frame: Frame)
    requires RowsComplete(frame)
    requires FirstMissing(RequiredColumns, frame.columns).None?
    ensures forall j :: 0 <= j < |frame.rows| ==> HasRequired(frame.rows[j])
  {
  }

  /**
   * `import_csv` after the file is read. `toFloat` stands for Python's `float` on the
   * Amount cell. On a missing column nothing is inserted; otherwise the store grows
   * by one record per row, in row order.
   */
  method ImportCsv(store: Database.Store, frame: Frame, toFloat: string -> real) returns (outcome: ImportOutcome)
    requires RowsComplete(frame)
    modifies store
    ensures FirstMissing(RequiredColumns, frame.columns).Some? ==>
              outcome == Raised(ExceptionText(FirstMissing(RequiredColumns, frame.columns).value))
              && store.records == old(store.records)
    ensures FirstMissing(RequiredColumns, frame.columns).None? ==>
              && outcome == Imported
              && |store.records| == |old(store.records)| + |frame.rows|
              && store.records[..|old(store.records)|] == old(store.records)
              && forall j :: 0 <= j < |frame.rows| ==>
                   HasRequired(frame.rows[j])
                   && store.records[|old(store.records)| + j] == ToTransaction(frame.rows[j], toFloat)
  {
    var missing := CheckColumns(frame.columns);
    if missing.Some? {
      outcome := Raised(ExceptionText(missing.value));
    } else {
      CompleteRowsHaveRequired(frame);
      InsertRows(store, frame, toFloat);
      outcome := Imported;
    }
  }
}
