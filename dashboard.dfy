/** The dashboard's pipeline: schema check, `dropna`, the synthetic columns,
    the labels, the sidebar filter and the trend view. The data frame is a
    class whose columns the steps assign in place; `Dashboard` is the same
    pipeline as a function of its inputs, and `Run` is proved to compute it. */
module Dashboard {
  import opened Sentiment
  import opened Table
  import opened Enrich
  import opened Trend
  import Seqs

  /** The error the upload reports when the header lacks a required column. */
  datatype SchemaError = MissingColumns(required: set<string>)

  datatype Result<T> = Ok(value: T) | Err(error: SchemaError)

  /** What the page shows: the filtered table (also the CSV export) and the
      trend view. */
  datatype View = View(filtered: seq<Record>, trend: seq<TrendRow>)

  const AllLabels: set<Label> := {Positive, Negative, Neutral}

  /** The countries present in a table, the default of the country selector. */
  function Countries(records: seq<Record>): set<string>
  {
    set r | r in records :: r.country
  }

  /** The sidebar's mask: the row's label and its country are both selected. */
  predicate Chosen(r: Record, sentiments: set<Label>, countries: set<string>)
  {
    r.sentiment in sentiments && r.country in countries
  }

  /** The rows whose sentiment and country are both among the chosen ones,
      in their original order. An empty choice on either side gives an empty
      table. */
  function Filter(records: seq<Record>, sentiments: set<Label>, countries: set<string>): (r: seq<Record>)
    ensures |r| <= |records|
    ensures forall x :: x in r <==> x in records && x.sentiment in sentiments && x.country in countries
    ensures sentiments == {} || countries == {} ==> r == []
  {
    var keep := (x: Record) => Chosen(x, sentiments, countries);
    Seqs.SelectMember(records, keep);
    var r := Seqs.Select(records, keep);
    assert r != [] ==> r[0] in r;
    r
  }

  /** The filtered table is the subsequence of the input at strictly increasing
      positions, and those positions are exactly the rows the mask keeps. */
  lemma FilterIndices(records: seq<Record>, sentiments: set<Label>, countries: set<string>) returns (idx: seq<nat>)
    ensures |idx| == |Filter(records, sentiments, countries)|
    ensures forall j :: 0 <= j < |idx| ==> idx[j] < |records| && Filter(records, sentiments, countries)[j] == records[idx[j]]
    ensures forall j, k :: 0 <= j < k < |idx| ==> idx[j] < idx[k]
    ensures forall i :: 0 <= i < |records| ==> (Chosen(records[i], sentiments, countries) <==> i in idx)
  {
    idx := Seqs.SelectIndices(records, (x: Record) => Chosen(x, sentiments, countries));
  }

  /** The filter keeps every copy of a kept row: no row is lost or duplicated. */
  lemma FilterMultiset(records: seq<Record>, sentiments: set<Label>, countries: set<string>)
    ensures forall x :: multiset(Filter(records, sentiments, countries))[x] ==
                       (if Chosen(x, sentiments, countries) then multiset(records)[x] else 0)
  {
    Seqs.SelectMultiset(records, (x: Record) => Chosen(x, sentiments, countries));
  }

  /** Filtering an already filtered table again with wider (or the same)
      choices returns it unchanged. */
  lemma FilterAgain(records: seq<Record>, sentiments: set<Label>, countries: set<string>,
                    sentiments': set<Label>, countries': set<string>)
    requires sentiments <= sentiments' && countries <= countries'
    ensures Filter(Filter(records, sentiments, countries), sentiments', countries') == Filter(records, sentiments, countries)
  {
    var once := Filter(records, sentiments, countries);
    Seqs.SelectAll(once, (x: Record) => Chosen(x, sentiments', countries'));
  }

  /** The selectors' defaults, every label and every country of the table,
      keep the whole table. */
  lemma FilterDefaultsKeepAll(records: seq<Record>)
    ensures Filter(records, AllLabels, Countries(records)) == records
  {
    forall x | x in records ensures Chosen(x, AllLabels, Countries(records)) {
      assert x.country in Countries(records);
      assert x.sentiment.Positive? || x.sentiment.Negative? || x.sentiment.Neutral?;
    }
    Seqs.SelectAll(records, (x: Record) => Chosen(x, AllLabels, Countries(records)));
  }

  /** Filtering keeps strictly increasing dates strictly increasing. */
  lemma FilterKeepsDateOrder(records: seq<Record>, sentiments: set<Label>, countries: set<string>)
    requires forall i, j :: 0 <= i < j < |records| ==> records[i].date < records[j].date
    ensures var r := Filter(records, sentiments, countries);
      forall i, j :: 0 <= i < j < |r| ==> r[i].date < r[j].date
  {
    var r := Filter(records, sentiments, countries);
    var idx := FilterIndices(records, sentiments, countries);
    forall i, j | 0 <= i < j < |r| ensures r[i].date < r[j].date {
      assert r[i] == records[idx[i]] && r[j] == records[idx[j]];
    }
  }

  /** The data frame as the script mutates it: the uploaded header and rows,
      and the three columns it assigns (empty until assigned). */
  class CountriesFrame {
    const columns: set<string>
    var rows: seq<Row>
    var text: seq<string>
    var date: seq<int>
    var sentiment: seq<Label>

    /** The frame as read from the upload, with no column assigned yet. */
    constructor (columns: set<string>, rows: seq<Row>)
      ensures this.columns == columns && this.rows == rows
      ensures text == [] && date == [] && sentiment == []
    {
      this.columns := columns;
      this.rows := rows;
      text, date, sentiment := [], [], [];
    }

    /** Drops, in place, every row with a missing value. */
    method DropNa()
      modifies this`rows
      ensures rows == Clean(old(rows), columns)
    {
      rows := Clean(rows, columns);
    }

    /** Assigns the text column: one statement drawn from the pool per row,
        collected in row order. */
    method AssignText(draw: nat -> nat)
      requires ValidDraw(draw)
      modifies this`text
      ensures text == Drawn(draw, |rows|)
    {
      var n := |rows|;
      var drawn: seq<string> := [];
      var i := 0;
      while i < n
        invariant 0 <= i <= n
        invariant drawn == Drawn(draw, i)
      {
        drawn := drawn + [Pool[draw(i)]];
        i := i + 1;
      }
      text := drawn;
    }

    /** Assigns the date column: consecutive days from 2023-01-01, one per row. */
    method AssignDates()
      modifies this`date
      ensures date == DayOffsets(|rows|)
    {
      date := DayOffsets(|rows|);
    }

    /** Replaces every text by its lower-cased form. */
    method LowerText()
      modifies this`text
      ensures text == LowerAll(old(text))
    {
      text := LowerAll(text);
    }

    /** Assigns the sentiment column: the label of each row's current text,
        with `score` standing for the analyser's compound score. */
    method AssignSentiment(score: string -> real)
      modifies this`sentiment
      ensures sentiment == Labels(text, score)
    {
      sentiment := Labels(text, score);
    }

    /** Every column assigned, and every row complete in the required columns. */
    ghost predicate Annotated()
      reads this
    {
      |text| == |rows| && |date| == |rows| && |sentiment| == |rows| &&
      forall row :: row in rows ==> Complete(row, RequiredColumns)
    }

    /** The frame read row by row: record i holds row i's country and code
        and the i-th entry of each assigned column. */
    function Records(): (r: seq<Record>)
      reads this
      requires Annotated()
      ensures |r| == |rows|
      ensures forall i :: 0 <= i < |r| ==>
        CellAt(rows[i], CountryColumn) == Value(r[i].country) && CellAt(rows[i], CodeColumn) == Value(r[i].countryCode)
      ensures forall i :: 0 <= i < |r| ==>
        r[i].text == text[i] && r[i].date == date[i] && r[i].sentiment == sentiment[i]
    {
      Assemble(rows, text, date, sentiment)
    }
  }

  /** Enrichment and labelling of the cleaned rows: row i keeps its country
      and code, gets the i-th drawn statement lower-cased and the date
      2023-01-01 plus i days, and is labelled from the score of that
      lower-cased text. */
  function Annotate(rows: seq<Row>, draw: nat -> nat, score: string -> real): (r: seq<Record>)
    requires ValidDraw(draw)
    requires forall row :: row in rows ==> Complete(row, RequiredColumns)
    ensures |r| == |rows|
    ensures forall i :: 0 <= i < |r| ==>
      CellAt(rows[i], CountryColumn) == Value(r[i].country) && CellAt(rows[i], CodeColumn) == Value(r[i].countryCode)
    ensures forall i :: 0 <= i < |r| ==> r[i].text == Lower(Pool[draw(i)]) && r[i].date == i
    ensures forall i :: 0 <= i < |r| ==> r[i].sentiment == Classify(score(r[i].text))
    ensures forall i, j :: 0 <= i < j < |r| ==> r[i].date < r[j].date
  {
    var texts := LowerAll(Drawn(draw, |rows|));
    Assemble(rows, texts, DayOffsets(|rows|), Labels(texts, score))
  }

  /** The whole page as a function of the upload, the generator's draws, the
      scorer and the sidebar choices. A header without both required columns
      is an error and nothing else happens. */
  function Dashboard(columns: set<string>, rows: seq<Row>, draw: nat -> nat, score: string -> real,
                     sentiments: set<Label>, countries: set<string>): (r: Result<View>)
    requires ValidDraw(draw)
    ensures r.Err? <==> !HasRequiredColumns(columns)
    ensures r.Err? ==> r.error == MissingColumns(RequiredColumns)
  {
    if !HasRequiredColumns(columns) then Err(MissingColumns(RequiredColumns))
    else
      var annotated := Annotate(Clean(rows, columns), draw, score);
      var filtered := Filter(annotated, sentiments, countries);
      Ok(View(filtered, TrendView(filtered)))
  }

  /** The script run on one upload, mutating its data frame step by step. */
  method Run(columns: set<string>, rows: seq<Row>, draw: nat -> nat, score: string -> real,
             sentiments: set<Label>, countries: set<string>) returns (r: Result<View>)
    requires ValidDraw(draw)
    ensures r == Dashboard(columns, rows, draw, score, sentiments, countries)
  {
    if !(RequiredColumns <= columns) {
      return Err(MissingColumns(RequiredColumns));
    }
    ghost var cleaned := Clean(rows, columns);
    assert forall row :: row in cleaned ==> Complete(row, RequiredColumns);
    var frame := new CountriesFrame(columns, rows);
    frame.DropNa();
    assert frame.rows == cleaned;
    frame.AssignText(draw);
    frame.AssignDates();
    frame.LowerText();
    assert frame.text == LowerAll(Drawn(draw, |cleaned|));
    frame.AssignSentiment(score);
    assert frame.rows == cleaned && frame.date == DayOffsets(|cleaned|);
    var records := frame.Records();
    assert records == Annotate(cleaned, draw, score);
    var filtered := Filter(records, sentiments, countries);
    r := Ok(View(filtered, TrendView(filtered)));
  }

  /** Every row shown passed the filter, is the annotation of a row of the
      cleaned upload, carries the label of its own text's score, and the
      rows shown are in strictly increasing date order. */
  lemma DashboardRows(columns: set<string>, rows: seq<Row>, draw: nat -> nat, score: string -> real,
                      sentiments: set<Label>, countries: set<string>)
    requires ValidDraw(draw)
    requires HasRequiredColumns(columns)
    ensures var annotated := Annotate(Clean(rows, columns), draw, score);
      var shown := Dashboard(columns, rows, draw, score, sentiments, countries).value.filtered;
      && |shown| <= |Clean(rows, columns)|
      && (forall x :: x in shown <==> x in annotated && Chosen(x, sentiments, countries))
      && (forall i :: 0 <= i < |shown| ==> shown[i].sentiment == Classify(score(shown[i].text)))
      && (forall i, j :: 0 <= i < j < |shown| ==> shown[i].date < shown[j].date)
  {
    var annotated := Annotate(Clean(rows, columns), draw, score);
    FilterKeepsDateOrder(annotated, sentiments, countries);
  }

  /** The trend view has one entry per day and label of the rows shown; since
      no two rows share a date, each of its counts is exactly 1, and the
      counts add up to the number of rows shown. */
  lemma DashboardTrend(columns: set<string>, rows: seq<Row>, draw: nat -> nat, score: string -> real,
                       sentiments: set<Label>, countries: set<string>)
    requires ValidDraw(draw)
    requires HasRequiredColumns(columns)
    ensures var v := Dashboard(columns, rows, draw, score, sentiments, countries).value;
      && Total(v.trend) == |v.filtered|
      && Keys(v.trend) == RecordKeys(v.filtered)
      && (forall i :: 0 <= i < |v.trend| ==> v.trend[i].count == 1)
  {
    var annotated := Annotate(Clean(rows, columns), draw, score);
    var filtered := Filter(annotated, sentiments, countries);
    FilterKeepsDateOrder(annotated, sentiments, countries);
    DistinctDatesGiveSingletons(filtered);
  }

  /** An empty upload (or one whose every row has a missing value) gives an
      empty table and an empty trend, with no error. */
  lemma EmptyUpload(columns: set<string>, rows: seq<Row>, draw: nat -> nat, score: string -> real,
                    sentiments: set<Label>, countries: set<string>)
    requires ValidDraw(draw)
    requires HasRequiredColumns(columns)
    requires forall row :: row in rows ==> !Complete(row, columns)
    ensures Dashboard(columns, rows, draw, score, sentiments, countries) == Ok(View([], []))
  {
  }

  /** Deselecting every label or every country empties the page. */
  lemma EmptySelection(columns: set<string>, rows: seq<Row>, draw: nat -> nat, score: string -> real,
                       sentiments: set<Label>, countries: set<string>)
    requires ValidDraw(draw)
    requires HasRequiredColumns(columns)
    requires sentiments == {} || countries == {}
    ensures Dashboard(columns, rows, draw, score, sentiments, countries) == Ok(View([], []))
  {
  }

  /** With the selectors at their defaults the page shows every cleaned row. */
  lemma DefaultSelection(columns: set<string>, rows: seq<Row>, draw: nat -> nat, score: string -> real)
    requires ValidDraw(draw)
    requires HasRequiredColumns(columns)
    ensures var annotated := Annotate(Clean(rows, columns), draw, score);
      Dashboard(columns, rows, draw, score, AllLabels, Countries(annotated)).value.filtered == annotated
  {
    FilterDefaultsKeepAll(Annotate(Clean(rows, columns), draw, score));
  }
}
