# Social media sentiment dashboard: a Dafny model of its data pipeline

The dashboard is a Streamlit script, `sentiment_dashboard.py`. It takes an uploaded table of countries and checks that the header has the `country` and `country_code` columns. It drops every row with a missing value. It then attaches to each row a healthcare statement drawn from a fixed pool of sixteen, lower-cased, and a date: row *i* gets 2023-01-01 plus *i* days. Each statement gets a label from its VADER compound score: `Positive` at or above 0.05, `Negative` at or below -0.05, `Neutral` in between. The sidebar then keeps the rows whose label and country are both selected. Finally a trend view counts the kept rows per (date, label).

This project models that pipeline and proves what each step promises:

- `seqs.dfy`, module `Seqs`: order-preserving selection by a predicate. This is the boolean-mask indexing that `dropna`, the `isin` filter and the per-group row counts all use. Proved: membership in both directions, multiplicities, and the exact strictly increasing positions of the selected rows.
- `sentiment.dfy`, module `Sentiment`: the three labels and `get_sentiment`'s threshold rule. It also holds the order in which a data frame sorts the label strings.
- `table.dfy`, module `Table`: cells that may be missing, the schema check, `dropna`, and the annotated record.
- `enrich.dfy`, module `Enrich`: the statement pool, the draw of one statement per row, lower-casing, the day offsets, and labelling a column of texts.
- `trend.dfy`, module `Trend`: `groupby(['date','sentiment']).size()`. The result is a sorted association list built one row at a time, with its invariants proved by induction.
- `dashboard.dfy`, module `Dashboard`: the sidebar filter and the data frame as a class whose columns the script assigns in place (`CountriesFrame`). `Dashboard` is the whole page as a function, and `Run` is the script's sequence of in-place steps, proved to compute `Dashboard`.

What the environment provides becomes a parameter:
- The compound score is a function `score: string -> real`.
- The seeded `random.choice` is a stream `draw: nat -> nat` of pool indices. The only requirement on it (`ValidDraw`) is that every draw is a valid index.
- Dates are integer day offsets from 2023-01-01.

Two consequences of the code are worth knowing; both are proved:
- The text is lower-cased before it is scored. The label is therefore the label of the lower-cased statement (`Annotate`).
- Dates are unique per row, so every entry of the trend view has count 1 (`DashboardTrend`). The trend chart can only ever plot ones.

## Model

| member | source | states |
|---|---|---|
| `Sentiment.Classify` | sentiment_dashboard.py:56-63 | The label is Positive exactly when the score is at least 0.05, Negative exactly when it is at most -0.05, and Neutral exactly when it lies strictly between; every score gets exactly one label. |
| `Sentiment.ClassifyBoundaries` | sentiment_dashboard.py:58-61 | Both cut-offs belong to the polar labels: 0.05 is Positive, -0.05 is Negative; 0, 0.049999 and -0.049999 are Neutral. |
| `Sentiment.RankIsNameOrder` | sentiment_dashboard.py:91 | The label order used for the trend's group keys is the string order of the label names (Negative < Neutral < Positive). |
| `Table.Clean` | sentiment_dashboard.py:24 | `dropna` keeps a row exactly when it has no missing value in any column, keeps every copy of such a row, and never grows the table. |
| `Table.CleanIndices` | sentiment_dashboard.py:24 | The cleaned table is the input's subsequence at strictly increasing positions, and those positions are exactly the complete rows, so order and contents are unchanged. |
| `Table.CleanIdempotent` | sentiment_dashboard.py:24 | Cleaning an already cleaned table removes nothing. |
| `Enrich.Drawn` | sentiment_dashboard.py:47-49 | The list built over `range(n)` has n statements; the i-th is the pool statement of the i-th draw, so every text comes from the pool. |
| `Enrich.Lower` | sentiment_dashboard.py:51 | Lower-casing keeps the length, leaves no upper-case letter, maps each upper-case letter to its lower-case one and leaves every other character alone. |
| `Enrich.LowerIdempotent` | sentiment_dashboard.py:51 | Lower-casing lower-cased text changes nothing. |
| `Enrich.LowerAll` | sentiment_dashboard.py:51 | The column operation keeps the row count and lower-cases each text in its own row. |
| `Enrich.DayOffsets` | sentiment_dashboard.py:50 | The first row gets 2023-01-01 and each further row the next day, so dates strictly increase with no gap and no repeat. |
| `Enrich.Labels` | sentiment_dashboard.py:65 | Applying the rule to a column keeps the row count, and each row's label is the rule applied to the score of that row's own text. |
| `Trend.TrendView` | sentiment_dashboard.py:91 | The group view is sorted by (date, label) with no key twice. It has an entry for a key exactly when some row has that key. Each count is at least 1 and equals the number of rows with that key. The counts add up to the row count. |
| `Trend.GroupSorted` | sentiment_dashboard.py:91 | Grouping yields keys in strictly increasing order. |
| `Trend.GroupKeys` | sentiment_dashboard.py:91 | The grouped keys are exactly the (date, label) pairs present in the rows. |
| `Trend.GroupCount` | sentiment_dashboard.py:91 | The count held for any key equals the number of rows with that key (0 for an absent key). |
| `Trend.GroupPositive` | sentiment_dashboard.py:91 | No group has a count of zero: empty combinations are omitted. |
| `Trend.GroupTotal` | sentiment_dashboard.py:91 | The counts sum to the number of rows grouped. |
| `Trend.DistinctDatesGiveSingletons` | sentiment_dashboard.py:50-91 | When no two rows share a date, every group of the trend view has exactly one row. |
| `Dashboard.Filter` | sentiment_dashboard.py:77-80 | A row is kept exactly when its label and its country are both selected; the result never grows, and an empty selection on either side gives an empty table. |
| `Dashboard.FilterIndices` | sentiment_dashboard.py:77-80 | The filtered table is the input's subsequence at strictly increasing positions, and those positions are exactly the rows the mask accepts. |
| `Dashboard.FilterMultiset` | sentiment_dashboard.py:77-80 | Every copy of an accepted row is kept and no copy of a rejected row: no row is lost, duplicated or changed. |
| `Dashboard.FilterAgain` | sentiment_dashboard.py:77-80 | Filtering a filtered table again with the same or wider selections returns it unchanged. |
| `Dashboard.FilterDefaultsKeepAll` | sentiment_dashboard.py:70-80 | With the selectors at their defaults (all three labels, every country present) the filter keeps the whole table. |
| `Dashboard.FilterKeepsDateOrder` | sentiment_dashboard.py:77-80 | Filtering a table with strictly increasing dates leaves them strictly increasing. |
| `Dashboard.CountriesFrame.constructor` | sentiment_dashboard.py:19 | The frame holds the uploaded header and rows, and no synthetic column yet. |
| `Dashboard.CountriesFrame.DropNa` | sentiment_dashboard.py:24 | In place, the rows become their cleaned form; the other columns are not touched. |
| `Dashboard.CountriesFrame.AssignText` | sentiment_dashboard.py:47-49 | In place, the text column becomes one drawn statement per row, built in row order by a loop. |
| `Dashboard.CountriesFrame.AssignDates` | sentiment_dashboard.py:50 | In place, the date column becomes the consecutive day offsets, one per row. |
| `Dashboard.CountriesFrame.LowerText` | sentiment_dashboard.py:51 | In place, every text becomes its lower-cased form. |
| `Dashboard.CountriesFrame.AssignSentiment` | sentiment_dashboard.py:65 | In place, the sentiment column becomes the label of each row's current (lower-cased) text. |
| `Dashboard.CountriesFrame.Records` | sentiment_dashboard.py:97 | The frame read row by row has one record per row. Record i holds row i's `country` and `country_code` and the i-th entry of the text, date and sentiment columns. These are the columns previewed at line 97, where the projection is applied to the frame after `Filter`. |
| `Dashboard.Annotate` | sentiment_dashboard.py:47-65 | Row i keeps its country and code and gets the i-th draw's statement, lower-cased. It gets day offset i, so dates strictly increase. Its label is the rule applied to the score of its own lower-cased text. |
| `Dashboard.Dashboard` | sentiment_dashboard.py:20-91 | A header lacking `country` or `country_code` gives the missing-columns error and nothing else; otherwise the page is produced. |
| `Dashboard.Run` | sentiment_dashboard.py:16-91 | The script's in-place steps compute exactly the pipeline function, including the error for a bad header. |
| `Dashboard.DashboardRows` | sentiment_dashboard.py:24-80 | The rows shown are the annotated cleaned rows the filter accepts, no more than the cleaned rows. Each carries the label of its own text's score, and they are in strictly increasing date order. |
| `Dashboard.DashboardTrend` | sentiment_dashboard.py:91 | The trend has one entry per (date, label) of the rows shown. Its counts add up to the number of rows shown, and each count is exactly 1. |
| `Dashboard.EmptyUpload` | sentiment_dashboard.py:24-91 | An upload with no complete row gives an empty table and an empty trend, without error. |
| `Dashboard.EmptySelection` | sentiment_dashboard.py:77-91 | Deselecting every label or every country gives an empty table and an empty trend, without error. |
| `Dashboard.DefaultSelection` | sentiment_dashboard.py:70-80 | With the selectors at their defaults the page shows every cleaned, annotated row. |

## Left out

- The Streamlit user interface: page setup, title, uploader, sidebar widgets, messages, the table preview and the download button (lines 7-14, 68-74, 83-104). The sidebar's choices are parameters of the model.
- Reading the CSV (line 19). The model starts from a header and rows whose cells are a string or missing. Type inference of pandas is not modelled: a cell is never a number.
- The CSV export (line 100) and its round trip, because they are file I/O.
- The VADER analyser (lines 54, 57) is a parameter `score`. The model does not capture that it is called once per row, or its range [-1, 1]; the rule is total on all reals.
- Python's Mersenne Twister under `random.seed(42)` (lines 47, 49) is the parameter `draw`. The model says which pool element each draw picks, not which index the seed produces.
- `Sentiment.Classify`: the thresholds are the exact rationals ±1/20. The source compares binary doubles against the double nearest 0.05, so a score within one unit in the last place of the boundary could be labelled differently.
- `Enrich.Lower`: lower-cases ASCII letters only. Python's `str.lower` also maps non-ASCII letters, but none occurs in the statement pool.
- Calendar arithmetic of `pd.date_range` (line 50): a date is its offset in days from 2023-01-01.
- The bar chart (lines 84-87): its per-country counts are computed by plotly, not by the script.
- The generic `except Exception` around the whole script (lines 101-102): no other step of the model can fail.
