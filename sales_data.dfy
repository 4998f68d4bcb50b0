/**
 * The pandas variant of the sales pipeline (src/app/data_processor.py):
 * clean a data frame, compute total/mean/count of its "amount" column, and
 * keep the cleaned frame on the processor object.
 *
 * A data frame is a column list plus rows; a row maps a column name to a cell,
 * and a cell is either missing (pandas NaN/None/NaT) or a value. A column name
 * absent from a row's map reads as a missing cell. The string parsers behind
 * pd.to_numeric and pd.to_datetime are parameters (Parsers).
 */
module SalesData {
  import opened Wrappers
  import opened Numbers

  const Date: string := "date"
  const Amount: string := "amount"

  /** A cell value: text as read from CSV, a float, or a datetime (nanoseconds since the epoch). */
  datatype Value = Text(text: string) | Number(x: real) | Instant(ns: int)

  type Row = map<string, Option<Value>>

  datatype Frame = Frame(columns: seq<string>, rows: seq<Row>)

  /** The errors the module raises; load errors come from the loader, which is a parameter here. */
  datatype Error =
    | FileNotFound        // load_data: FileNotFoundError
    | LoadFailed          // load_data: any other read/parse failure
    | DataEmpty           // clean_data: ValueError("Data is empty")
    | UnparseableDate     // clean_data: pd.to_datetime raises on a value it cannot parse
    | AmountColumnNotFound // calculate_metrics: ValueError("Amount column not found in data")
    | NonNumericAmount    // calculate_metrics: an amount column holding text or datetimes

  /** A float result of pandas that may be NaN (the mean of a column with no values). */
  datatype FloatOrNaN = Finite(r: real) | NaN

  /** The dictionary calculate_metrics returns: total_sales, avg_sales, count. */
  datatype SalesMetrics = SalesMetrics(totalSales: real, avgSales: FloatOrNaN, count: nat)

  /** How pd.to_numeric and pd.to_datetime read a string; None where they cannot. */
  datatype Parsers = Parsers(numeric: string -> Option<real>, datetime: string -> Option<int>)

  function Cell(row: Row, c: string): Option<Value>
  {
    if c in row then row[c] else None
  }

  /** pandas DataFrame.empty: no rows or no columns. */
  predicate IsEmpty(f: Frame)
  {
    |f.rows| == 0 || |f.columns| == 0
  }

  /** A row that dropna() keeps: no missing cell in any column. */
  predicate Complete(columns: seq<string>, row: Row)
  {
    forall c :: c in columns ==> Cell(row, c).Some?
  }

  /** pd.to_numeric on one value: numbers stay, datetimes become their nanosecond count. */
  function ToNumeric(v: Value, p: Parsers): Option<real>
  {
    match v
    case Text(s) => p.numeric(s)
    case Number(x) => Some(x)
    case Instant(t) => Some(t as real)
  }

  /** pd.to_datetime on one value: datetimes stay, numbers are read as nanoseconds. */
  function ToDatetime(v: Value, p: Parsers): Option<int>
  {
    match v
    case Text(s) => p.datetime(s)
    case Number(x) => Some(x.Floor)
    case Instant(t) => Some(t)
  }

  /** `a` is `b` with some elements removed, the rest in their original order. */
  predicate SubsequenceOf<T(==)>(a: seq<T>, b: seq<T>)
    decreases |b|
  {
    if a == [] then true
    else if b == [] then false
    else (a[0] == b[0] && SubsequenceOf(a[1..], b[1..])) || SubsequenceOf(a, b[1..])
  }

  // ---------------------------------------------------------------------------
  // clean_data, stage by stage, as the source runs it column at a time

  /** data.dropna(): keep exactly the complete rows, in order. */
  function DropNa(columns: seq<string>, rows: seq<Row>): (kept: seq<Row>)
    ensures forall i :: 0 <= i < |kept| ==> Complete(columns, kept[i])
    ensures forall i :: 0 <= i < |rows| && Complete(columns, rows[i]) ==> rows[i] in kept
    ensures SubsequenceOf(kept, rows)
  {
    if rows == [] then []
    else
      var rest := DropNa(columns, rows[1..]);
      if Complete(columns, rows[0]) then [rows[0]] + rest else rest
  }

  /** One row of cleaned["date"] = pd.to_datetime(cleaned["date"]); a missing date stays missing. */
  function ConvertDate(row: Row, p: Parsers): (r: Result<Row, Error>)
    ensures r.Err? <==> Cell(row, Date).Some? && ToDatetime(Cell(row, Date).value, p).None?
    ensures r.Err? ==> r.error == UnparseableDate
    ensures r.Ok? ==> r.value.Keys == row.Keys
    ensures r.Ok? ==> forall c :: c != Date ==> Cell(r.value, c) == Cell(row, c)
    ensures r.Ok? ==> (Cell(r.value, Date).Some? <==> Cell(row, Date).Some?)
    ensures r.Ok? && Cell(row, Date).Some? ==>
              Cell(r.value, Date).value == Instant(ToDatetime(Cell(row, Date).value, p).value)
  {
    match Cell(row, Date)
    case None => Ok(row)
    case Some(v) =>
      match ToDatetime(v, p)
      case None => Err(UnparseableDate)
      case Some(t) => Ok(row[Date := Some(Instant(t))])
  }

  /** pd.to_datetime over the whole column: raises if any value does not parse. */
  function ToDatetimeColumn(rows: seq<Row>, p: Parsers): (r: Result<seq<Row>, Error>)
    ensures r.Err? <==> exists i :: 0 <= i < |rows| && ConvertDate(rows[i], p).Err?
    ensures r.Err? ==> r.error == UnparseableDate
    ensures r.Ok? ==> |r.value| == |rows|
                      && forall i :: 0 <= i < |rows| ==> r.value[i] == ConvertDate(rows[i], p).value
  {
    if rows == [] then Ok([])
    else
      var head :- ConvertDate(rows[0], p);
      var tail :- ToDatetimeColumn(rows[1..], p);
      Ok([head] + tail)
  }

  /** One row of pd.to_numeric(cleaned["amount"], errors="coerce"): a failure becomes missing. */
  function CoerceAmount(row: Row, p: Parsers): (r: Row)
    ensures forall c :: c != Amount ==> Cell(r, c) == Cell(row, c)
    ensures Cell(r, Amount).Some? <==> Cell(row, Amount).Some? && ToNumeric(Cell(row, Amount).value, p).Some?
    ensures Cell(r, Amount).Some? ==> Cell(r, Amount).value == Number(ToNumeric(Cell(row, Amount).value, p).value)
  {
    match Cell(row, Amount)
    case None => row
    case Some(v) =>
      row[Amount := match ToNumeric(v, p) case Some(x) => Some(Number(x)) case None => None]
  }

  /** pd.to_numeric over the whole column with errors="coerce": never raises. */
  function ToNumericColumn(rows: seq<Row>, p: Parsers): (r: seq<Row>)
    ensures |r| == |rows|
    ensures forall i :: 0 <= i < |rows| ==> r[i] == CoerceAmount(rows[i], p)
  {
    if rows == [] then [] else [CoerceAmount(rows[0], p)] + ToNumericColumn(rows[1..], p)
  }

  /** cleaned.dropna(subset=["amount"]). */
  function DropMissingAmount(rows: seq<Row>): (kept: seq<Row>)
    ensures forall i :: 0 <= i < |kept| ==> Cell(kept[i], Amount).Some?
    ensures forall i :: 0 <= i < |rows| && Cell(rows[i], Amount).Some? ==> rows[i] in kept
    ensures SubsequenceOf(kept, rows)
  {
    if rows == [] then []
    else
      var rest := DropMissingAmount(rows[1..]);
      if Cell(rows[0], Amount).Some? then [rows[0]] + rest else rest
  }

  /** DataProcessor.clean_data. */
  function CleanData(f: Frame, p: Parsers): (r: Result<Frame, Error>)
    ensures r.Ok? ==> r.value.columns == f.columns
  {
    if IsEmpty(f) then Err(DataEmpty)
    else
      var kept := DropNa(f.columns, f.rows);
      var dated :- if Date in f.columns then ToDatetimeColumn(kept, p) else Ok(kept);
      var rows := if Amount in f.columns then DropMissingAmount(ToNumericColumn(dated, p)) else dated;
      Ok(Frame(f.columns, rows))
  }

  // ---------------------------------------------------------------------------
  // clean_data, row at a time: which rows survive and what each becomes

  /** A row with no missing cell whose date pd.to_datetime cannot read. */
  predicate BadDate(columns: seq<string>, row: Row, p: Parsers)
  {
    Date in columns && Complete(columns, row) && ToDatetime(Cell(row, Date).value, p).None?
  }

  /** A row survives cleaning: no missing cell, and an amount that coerces to a number. */
  predicate Survives(columns: seq<string>, row: Row, p: Parsers)
  {
    Complete(columns, row) && (Amount in columns ==> ToNumeric(Cell(row, Amount).value, p).Some?)
  }

  /** The surviving rows, in their original order. */
  function Survivors(columns: seq<string>, rows: seq<Row>, p: Parsers): (s: seq<Row>)
    ensures SubsequenceOf(s, rows)
    ensures forall i :: 0 <= i < |s| ==> Survives(columns, s[i], p)
    ensures forall i :: 0 <= i < |rows| && Survives(columns, rows[i], p) ==> rows[i] in s
  {
    if rows == [] then []
    else
      var rest := Survivors(columns, rows[1..], p);
      if Survives(columns, rows[0], p) then [rows[0]] + rest else rest
  }

  /** A surviving row as cleaning leaves it: date and amount cells hold their converted values. */
  function ConvertRow(columns: seq<string>, row: Row, p: Parsers): Row
  {
    var dated :=
      if Date in columns && Cell(row, Date).Some? && ToDatetime(Cell(row, Date).value, p).Some?
      then row[Date := Some(Instant(ToDatetime(Cell(row, Date).value, p).value))]
      else row;
    if Amount in columns && Cell(row, Amount).Some? && ToNumeric(Cell(row, Amount).value, p).Some?
    then dated[Amount := Some(Number(ToNumeric(Cell(row, Amount).value, p).value))]
    else dated
  }

  /** Every row converted, one for one. */
  function ConvertRows(columns: seq<string>, rows: seq<Row>, p: Parsers): (r: seq<Row>)
    ensures |r| == |rows|
  {
    if rows == [] then [] else [ConvertRow(columns, rows[0], p)] + ConvertRows(columns, rows[1..], p)
  }

  /** A cleaned row: nothing missing, a datetime date and a numeric amount where those columns exist. */
  predicate Cleaned(columns: seq<string>, row: Row)
  {
    Complete(columns, row)
    && (Date in columns ==> Cell(row, Date).value.Instant?)
    && (Amount in columns ==> Cell(row, Amount).value.Number?)
  }

  // ---------------------------------------------------------------------------
  // calculate_metrics

  /** A row whose amount is present but not a float: text or a datetime. */
  predicate HoldsNonNumber(row: Row)
  {
    Cell(row, Amount).Some? && !Cell(row, Amount).value.Number?
  }

  /** The floats of the amount column, skipping every other cell. */
  function NumericAmounts(rows: seq<Row>): (xs: seq<real>)
    ensures |xs| <= |rows|
  {
    if rows == [] then []
    else
      (match Cell(rows[0], Amount) case Some(Number(x)) => [x] case _ => [])
      + NumericAmounts(rows[1..])
  }

  /**
   * The non-missing values of the amount column that sum() and mean() see;
   * text or datetimes there are an error.
   */
  function PresentAmounts(rows: seq<Row>): (r: Result<seq<real>, Error>)
    ensures r.Err? <==> exists i :: 0 <= i < |rows| && HoldsNonNumber(rows[i])
    ensures r.Err? ==> r.error == NonNumericAmount
    ensures r.Ok? ==> r.value == NumericAmounts(rows)
  {
    if rows == [] then Ok([])
    else
      var rest :- PresentAmounts(rows[1..]);
      match Cell(rows[0], Amount)
      case None => Ok(rest)
      case Some(Number(x)) => Ok([x] + rest)
      case Some(_) => Err(NonNumericAmount)
  }

  /** Dividing by a positive count and multiplying back gives the dividend. */
  lemma DivideThenScale(total: real, n: real)
    requires n > 0.0
    ensures (total / n) * n == total
  {
  }

  /** Series.mean(): the sum of the non-missing values over their number, NaN when there are none. */
  function Mean(xs: seq<real>): (m: FloatOrNaN)
    ensures m.NaN? <==> xs == []
    ensures m.Finite? ==> m.r * (|xs| as real) == Sum(xs)
  {
    if |xs| == 0 then NaN
    else
      var total, n := Sum(xs), |xs| as real;
      DivideThenScale(total, n);
      Finite(total / n)
  }

  /** DataProcessor.calculate_metrics. */
  function CalculateMetrics(f: Frame): (r: Result<SalesMetrics, Error>)
    ensures IsEmpty(f) ==> r == Ok(SalesMetrics(0.0, Finite(0.0), 0))
    ensures !IsEmpty(f) && Amount !in f.columns ==> r == Err(AmountColumnNotFound)
    ensures !IsEmpty(f) && Amount in f.columns ==>
              (r.Err? <==> exists i :: 0 <= i < |f.rows| && HoldsNonNumber(f.rows[i]))
    ensures !IsEmpty(f) && Amount in f.columns && r.Err? ==> r.error == NonNumericAmount
    ensures !IsEmpty(f) && r.Ok? ==>
              r.value.count == |f.rows|
              && r.value.totalSales == Sum(NumericAmounts(f.rows))
              && r.value.avgSales == Mean(NumericAmounts(f.rows))
  {
    if IsEmpty(f) then Ok(SalesMetrics(0.0, Finite(0.0), 0))
    else if Amount !in f.columns then Err(AmountColumnNotFound)
    else
      var xs :- PresentAmounts(f.rows);
      Ok(SalesMetrics(Sum(xs), Mean(xs), |f.rows|))
  }

  // ---------------------------------------------------------------------------
  // process_sales_data

  /** DataProcessor: holds the most recently cleaned frame. */
  class DataProcessor {
    var processedData: Option<Frame>

    constructor ()
      ensures processedData == None
    {
      processedData := None;
    }

    /**
     * process_sales_data: load, clean, compute metrics, and only then keep the
     * cleaned frame. `loaded` is what load_data returned for the file path.
     */
    method ProcessSalesData(loaded: Result<Frame, Error>, p: Parsers) returns (r: Result<SalesMetrics, Error>)
      modifies this
      ensures loaded.Err? ==> r == Err(loaded.error) && processedData == old(processedData)
      ensures loaded.Ok? && CleanData(loaded.value, p).Err? ==>
                r == Err(CleanData(loaded.value, p).error) && processedData == old(processedData)
      ensures loaded.Ok? && CleanData(loaded.value, p).Ok? ==>
                r == CalculateMetrics(CleanData(loaded.value, p).value)
      ensures r.Err? ==> processedData == old(processedData)
      ensures r.Ok? ==> loaded.Ok? && processedData == Some(CleanData(loaded.value, p).value)
    {
      if loaded.Err? {
        return Err(loaded.error);
      }
      var cleaned := CleanData(loaded.value, p);
      if cleaned.Err? {
        return Err(cleaned.error);
      }
      var metrics := CalculateMetrics(cleaned.value);
      if metrics.Err? {
        return Err(metrics.error);
      }
      processedData := Some(cleaned.value);
      return metrics;
    }
  }
}
