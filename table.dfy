/** The uploaded table: its header, its rows with possibly missing cells, the
    schema check, `dropna`, and the typed record a row becomes once enriched
    and labelled. */
module Table {
  import opened Sentiment
  import Seqs

  /** A cell as the CSV reader leaves it: a value or a missing value (NaN). */
  datatype Cell = Missing | Value(content: string)

  /** A row maps column names to cells. A column the map lacks reads as missing. */
  type Row = map<string, Cell>

  const CountryColumn: string := "country"
  const CodeColumn: string := "country_code"
  const RequiredColumns: set<string> := {CountryColumn, CodeColumn}

  function CellAt(row: Row, column: string): (c: Cell)
    ensures column !in row ==> c == Missing
  {
    if column in row then row[column] else Missing
  }

  /** The schema check: both identifier columns are in the header. */
  predicate HasRequiredColumns(columns: set<string>)
  {
    RequiredColumns <= columns
  }

  /** A row with no missing value in any column of the header. */
  predicate Complete(row: Row, columns: set<string>)
  {
    forall c :: c in columns ==> CellAt(row, c).Value?
  }

  /** `dropna()`: the rows with no missing value, in their original order and
      unchanged. */
  function Clean(rows: seq<Row>, columns: set<string>): (r: seq<Row>)
    ensures |r| <= |rows|
    ensures forall row :: row in r <==> row in rows && Complete(row, columns)
    ensures forall row :: multiset(r)[row] == if Complete(row, columns) then multiset(rows)[row] else 0
  {
    var keep := (row: Row) => Complete(row, columns);
    Seqs.SelectMember(rows, keep);
    Seqs.SelectMultiset(rows, keep);
    Seqs.Select(rows, keep)
  }

  /** Cleaning positions: the cleaned table is the subsequence of the input at
      strictly increasing positions, and those are exactly the complete rows. */
  lemma CleanIndices(rows: seq<Row>, columns: set<string>) returns (idx: seq<nat>)
    ensures |idx| == |Clean(rows, columns)|
    ensures forall j :: 0 <= j < |idx| ==> idx[j] < |rows| && Clean(rows, columns)[j] == rows[idx[j]]
    ensures forall j, k :: 0 <= j < k < |idx| ==> idx[j] < idx[k]
    ensures forall i :: 0 <= i < |rows| ==> (Complete(rows[i], columns) <==> i in idx)
  {
    idx := Seqs.SelectIndices(rows, (row: Row) => Complete(row, columns));
  }

  /** Cleaning twice removes nothing more. */
  lemma CleanIdempotent(rows: seq<Row>, columns: set<string>)
    ensures Clean(Clean(rows, columns), columns) == Clean(rows, columns)
  {
    Seqs.SelectAll(Clean(rows, columns), (row: Row) => Complete(row, columns));
  }

  /** A row of the annotated table: the two identifier columns, the synthetic
      statement, its day offset from 2023-01-01 and its label. */
  datatype Record = Record(country: string, countryCode: string, text: string, date: int, sentiment: Label)

  /** The text of a cell that the schema check and cleaning guarantee present. */
  function Present(row: Row, column: string): (v: string)
    requires CellAt(row, column).Value?
    ensures CellAt(row, column) == Value(v)
  {
    CellAt(row, column).content
  }

  /** The frame read row by row: identifier columns from the cleaned rows,
      the other three from the columns assigned to the frame. */
  function Assemble(rows: seq<Row>, text: seq<string>, date: seq<int>, sentiment: seq<Label>): (r: seq<Record>)
    requires |text| == |rows| && |date| == |rows| && |sentiment| == |rows|
    requires forall row :: row in rows ==> Complete(row, RequiredColumns)
    ensures |r| == |rows|
    ensures forall i :: 0 <= i < |r| ==>
      CellAt(rows[i], CountryColumn) == Value(r[i].country) && CellAt(rows[i], CodeColumn) == Value(r[i].countryCode)
    ensures forall i :: 0 <= i < |r| ==>
      r[i].text == text[i] && r[i].date == date[i] && r[i].sentiment == sentiment[i]
  {
    assert forall i :: 0 <= i < |rows| ==> Complete(rows[i], RequiredColumns);
    seq(|rows|, i requires 0 <= i < |rows| && Complete(rows[i], RequiredColumns) =>
      assert CountryColumn in RequiredColumns && CodeColumn in RequiredColumns;
      Record(Present(rows[i], CountryColumn), Present(rows[i], CodeColumn), text[i], date[i], sentiment[i]))
  }
}
