# Sales data clean-and-aggregate pipeline, in Dafny

This project models the part of the CI-CD sample repository that has behaviour of its own:
a pipeline that cleans tabular sales rows and computes summary metrics over their
`amount` column. The repository has two variants of it, and both are modelled.

- **pandas variant** (`src/app/data_processor.py`, module `SalesData`). The class
  `DataProcessor` has three steps:
  - `clean_data` drops rows with any missing cell, converts `date` with
    `pd.to_datetime`, coerces `amount` with `pd.to_numeric(errors="coerce")`, and
    drops rows whose amount did not coerce.
  - `calculate_metrics` returns `total_sales`, `avg_sales` and `count`.
  - `process_sales_data` chains load, clean and metrics, then keeps the cleaned
    frame in the `processed_data` field.

  A data frame is a column list plus rows. Each row maps a column name to a cell
  that is missing or holds a value (text, a number, or a datetime). A column
  absent from a row's map reads as a missing cell. `IsEmpty` is pandas'
  `DataFrame.empty`: no rows or no columns.
- **Lambda variant** (`lambda_package/lambda_function.py`, module
  `LambdaProcessor`). `DataProcessor.process_data` counts the rows and the first
  row's fields. When the first row has an `amount` field, a loop parses every
  row's amount with `float()`. It skips rows without the field and rows whose
  text does not parse, and it adds total, average, min and max when at least one
  amount parsed. A row is what `csv.DictReader` yields: a field maps to its text,
  or to `None` when the line was shorter than the header.

The string parsers behind `pd.to_numeric`, `pd.to_datetime` and `float()` are
uninterpreted and passed in as parameters, returning `None` where the library
fails. Amounts are exact reals.

Files:
- `wrappers.dfy`: `Option` and `Result`.
- `numbers.dfy`: `sum`, `min` and `max` as Python computes them.
- `sales_data.dfy`: the pandas variant, including the `DataProcessor` class.
- `sales_data_lemmas.dfy`: its properties.
- `lambda_processor.dfy`: the Lambda `process_data` loop, as a method proved against the function `Summarize`.
- `lambda_processor_lemmas.dfy`: the properties of `Summarize`.

Three consequences of the code that a reader might not expect:
- `clean_data` raises on an unparseable date. Line 35 of
  `src/app/data_processor.py` calls `pd.to_datetime` without `errors="coerce"`.
  `CleanDataErrors` states exactly when that happens.
- Cleaning is idempotent only when the first clean kept at least one row.
  Cleaning a frame with no rows raises "Data is empty" (lines 27-28), so a clean
  that dropped every row cannot be repeated. `CleanDataIdempotent` proves both
  halves.
- `calculate_metrics` returns only three keys: `total_sales`, `avg_sales` and
  `count` (lines 56-60).

## Model

| member | source | states |
|---|---|---|
| `Numbers.Min` | lambda_package/lambda_function.py:83 | `min(amounts)` is one of the amounts and no amount is smaller |
| `Numbers.Max` | lambda_package/lambda_function.py:84 | `max(amounts)` is one of the amounts and no amount is larger |
| `Numbers.SumFront` | lambda_package/lambda_function.py:81 | a fact about the model's `Sum` over exact reals, not about Python floats: the left-to-right scan equals the first amount plus the sum of the rest, so the grouping of the additions does not change the total |
| `SalesData.DropNa` | src/app/data_processor.py:31 | `dropna()` keeps only complete rows, keeps every complete input row, and returns a subsequence of the input in the original order; `DropNaCounts` adds how many times each row is kept |
| `SalesData.ConvertDate` | src/app/data_processor.py:35 | `pd.to_datetime` on one row raises exactly when a present date does not parse; otherwise the row keeps its keys and every other cell, a missing date stays missing and a present one becomes its parsed datetime |
| `SalesData.ToDatetimeColumn` | src/app/data_processor.py:35 | converting the date column raises "unparseable date" exactly when some row's conversion does; otherwise it converts every row, one for one and in order |
| `SalesData.CoerceAmount` | src/app/data_processor.py:39 | with `errors="coerce"` only the amount cell changes: it is present afterwards exactly when it was present and coerces, and then holds the coerced float |
| `SalesData.ToNumericColumn` | src/app/data_processor.py:39 | coercing the amount column never raises and coerces every row, one for one and in order |
| `SalesData.DropMissingAmount` | src/app/data_processor.py:40 | `dropna(subset=["amount"])` keeps only rows with an amount, keeps every such input row, and returns a subsequence in the original order; `DropMissingAmountCounts` adds how many times each row is kept |
| `SalesData.Survivors` | src/app/data_processor.py:31-40 | the rows that survive cleaning are complete with an amount that coerces, every such input row survives, and they form a subsequence of the input in the original order; `SurvivorsCounts` adds how many times each row is kept |
| `SalesData.CleanData` | src/app/data_processor.py:25-42 | cleaning keeps the frame's columns; its errors and rows are stated by the lemmas below |
| `SalesData.PresentAmounts` | src/app/data_processor.py:52-53 | the values `sum()` and `mean()` see: an error exactly when some present amount is text or a datetime, otherwise the present floats of the column in row order, missing amounts skipped |
| `SalesData.Mean` | src/app/data_processor.py:53 | `Series.mean()` is NaN exactly for no values, and otherwise a value that multiplied by their number gives their sum |
| `SalesData.CalculateMetrics` | src/app/data_processor.py:44-60 | an empty frame gives 0.0, 0.0, 0 before any column check; a non-empty frame without `amount` raises "Amount column not found"; otherwise it fails exactly when a present amount is not a float, and else `total_sales` is the sum of the present floats, `avg_sales` their mean (NaN when none is present) and `count` the number of rows, missing amounts included |
| `SalesData.DataProcessor.constructor` | src/app/data_processor.py:12-13 | a new processor holds no processed data |
| `SalesData.DataProcessor.ProcessSalesData` | src/app/data_processor.py:62-76 | a load, clean or metrics error is returned and leaves `processed_data` unchanged; on success the result is the cleaned frame's metrics and `processed_data` is the cleaned frame |
| `SalesDataLemmas.DatetimeColumnFails` | src/app/data_processor.py:31-35 | `pd.to_datetime` over the rows kept by `dropna()` raises exactly when one of them has an unparseable date |
| `SalesDataLemmas.CleanDataErrors` | src/app/data_processor.py:25-42 | `clean_data` raises "Data is empty" exactly for an empty frame. It raises on a date exactly when a complete row's date does not parse. Otherwise it returns a frame, even when every row is dropped |
| `SalesDataLemmas.ConvertRowCells` | src/app/data_processor.py:34-40 | a surviving row keeps its keys and every other cell. Its date becomes the parsed datetime and its amount the parsed number, so the row is fully cleaned |
| `SalesDataLemmas.DropNaCounts` | src/app/data_processor.py:31 | `dropna()` keeps each complete row exactly as many times as it occurs in the input, and no incomplete row, so identical rows are not merged |
| `SalesDataLemmas.DropMissingAmountCounts` | src/app/data_processor.py:40 | `dropna(subset=["amount"])` keeps each row with an amount exactly as many times as it occurs, and no row without one |
| `SalesDataLemmas.SurvivorsCounts` | src/app/data_processor.py:31-40 | each surviving row is kept exactly as many times as it occurs in the input, and no other row is kept |
| `SalesDataLemmas.StagesRowWise` | src/app/data_processor.py:31-40 | running the conversion and amount-drop steps column by column on the `dropna()` output equals converting each surviving row |
| `SalesDataLemmas.ConvertRowsCleaned` | src/app/data_processor.py:34-40 | converting the survivors keeps their number and order and makes every row cleaned |
| `SalesDataLemmas.CleanDataRowWise` | src/app/data_processor.py:31-42 | a successful clean returns exactly the converted survivors, in the original order. There are never more of them than input rows, and every one has no missing cell, a datetime date and a numeric amount |
| `SalesDataLemmas.AllRowsDropped` | src/app/data_processor.py:27-31 | a non-empty frame whose every row has a missing cell cleans to a frame with no rows, not to an error |
| `SalesDataLemmas.CleanDataIdempotent` | src/app/data_processor.py:25-42 | cleaning a non-empty cleaned result again changes nothing; cleaning a result with no rows raises "Data is empty" |
| `SalesDataLemmas.NumericAmountsWholeColumn` | src/app/data_processor.py:52-53 | when every amount is a present float, the values `sum()` and `mean()` see are the whole amount column, one per row and in row order |
| `SalesDataLemmas.MetricsOfNumericColumn` | src/app/data_processor.py:52-60 | on a non-empty frame with numeric amounts, `total_sales` is their sum, `count` the number of rows and `avg_sales` exactly `total_sales / count` |
| `SalesDataLemmas.MetricsOfCleaned` | src/app/data_processor.py:68-71 | clean then metrics: a cleaned frame with rows and an `amount` column never fails in `calculate_metrics`, and its average is total / count |
| `SalesDataLemmas.SampleMetrics` | tests/unit/test_data_processor.py:74-82 | amounts 100, 200, 300 give 600.0, 200.0 and 3 |
| `SalesDataLemmas.SampleWithMissingAmount` | tests/unit/test_data_processor.py:51-61 | with the second amount missing, cleaning keeps two rows, whose metrics are 400.0, 200.0 and 2 |
| `SalesDataLemmas.MetricsWithMissingAmount` | src/app/data_processor.py:52-54 | on an uncleaned frame with amounts 100, missing and 300, `sum()` and `mean()` skip the missing amount but `len()` does not: 400.0, 200.0 and 3 |
| `LambdaProcessor.ParsedAmountsErrPersists` | lambda_package/lambda_function.py:72-77 | once `float(None)` has raised, later rows cannot undo the error |
| `LambdaProcessor.ParseAmount` | lambda_package/lambda_function.py:73-77 | one pass of the loop body raises exactly when the row's amount field holds `None`, and appends x exactly when the amount text parses to x |
| `LambdaProcessor.ParsedAmounts` | lambda_package/lambda_function.py:71-77 | a loop that completes has seen no row whose amount field holds `None` |
| `LambdaProcessor.Summarize` | lambda_package/lambda_function.py:55-85 | the call can raise only when the list is non-empty and its first row has an `amount` field, and when the amount keys are present `min_amount` is at most `max_amount` |
| `LambdaProcessor.ProcessData` | lambda_package/lambda_function.py:50-92 | the loop over the row array, which it has no right to modify, returns exactly `Summarize` of the rows or raises where `Summarize` does |
| `LambdaProcessorLemmas.ParsedAmountsFails` | lambda_package/lambda_function.py:71-77 | the loop raises (uncaught TypeError) exactly when some row's amount field holds `None` |
| `LambdaProcessorLemmas.ParsedAmountsInOrder` | lambda_package/lambda_function.py:71-77 | a completed loop's list is exactly the parsed amounts of the rows whose amount parsed, one per such row and in row order |
| `LambdaProcessorLemmas.ParsedAmountsValues` | lambda_package/lambda_function.py:71-77 | a completed loop's list has one entry per row whose amount parsed, so at most `total_rows`, and a value is in it exactly when some row's amount parses to it; rows with no amount field (KeyError) or an unparseable one (ValueError) add nothing |
| `LambdaProcessorLemmas.SummarizeShape` | lambda_package/lambda_function.py:55-85 | An empty list gives 0 rows, 0 columns and no amount keys. Otherwise `total_rows` is the row count and `total_columns` the first row's field count. The call raises exactly when the first row has `amount` and some row's amount is `None`. The amount keys are present exactly when the first row has `amount` and some amount parsed |
| `LambdaProcessorLemmas.SummarizeTotal` | lambda_package/lambda_function.py:81 | `total_amount` is the sum of the parsed amounts, taken in row order |
| `LambdaProcessorLemmas.SummarizeAverage` | lambda_package/lambda_function.py:81-82 | `average_amount` is `total_amount` divided by the number of parsed amounts, which is at most `total_rows` |
| `LambdaProcessorLemmas.SummarizeMinMax` | lambda_package/lambda_function.py:83-84 | `min_amount` and `max_amount` are parsed amounts, and every parsed amount lies between them |

## Left out

- `load_data` (src/app/data_processor.py:15-23) is a file read through `pd.read_csv`. `ProcessSalesData` receives its outcome as the parameter `loaded`: a frame, `FileNotFound` or `LoadFailed`.
- The S3 clients and `download_data`/`upload_results` (lambda_package/lambda_function.py:19-20, 29-48, 94-115) are network I/O. The `bucket_name` and client fields of the Lambda `DataProcessor` go with them.
- `lambda_handler` (lambda_package/lambda_function.py:117-170) is event defaults, logging and response shaping around I/O.
- `scripts/generator.py` (random events, S3 uploads) and `tests/unit/test_example.py` (checks of Python built-ins) are not part of this model.
- CSV parsing by `csv.DictReader` and `pd.read_csv` is left out. The model's input is the parsed rows. The extra fields `csv.DictReader` files under the key `None` for over-long lines are not represented, since row keys are strings.
- `processing_timestamp` (`datetime.now()`) is nondeterministic and is omitted from `Metrics`.
- The internals of `float()`, `pd.to_numeric` and `pd.to_datetime` on strings are parameters. The model does not capture that `pd.to_datetime` infers one format for a whole column; it parses each value on its own.
- Floating-point rounding, NaN and infinity are left out. Sums and averages are exact reals, and a NaN mean is the `NaN` value of the `FloatOrNaN` datatype.
- `ToDatetime`: pandas reads a number in a date column as nanoseconds since the epoch. The model takes the floor of a fractional value, which can differ from pandas for negative fractional numbers.
- `CalculateMetrics`: an `amount` column holding text or datetimes always gives `NonNumericAmount`. In pandas, a column of only strings is concatenated by `sum()` first and may then fail or succeed in `float()`. That path is not modelled.
- Duplicate column names cannot be represented, because a row is a map from column name to cell.
- The logging in `process_data` and its `except`/re-raise (lambda_package/lambda_function.py:87, 90-92) change nothing. A raised error is the `Err` result.
