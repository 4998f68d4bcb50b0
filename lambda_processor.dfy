/**
 * The Lambda variant of the pipeline (lambda_package/lambda_function.py,
 * DataProcessor.process_data): count rows and columns, then, when the first
 * row has an "amount" field, parse every row's amount with float() and report
 * total, average, min and max of the amounts that parsed.
 *
 * Rows are what csv.DictReader yields: a field name maps to its text, or to
 * None when the line was shorter than the header. float() on a string is the
 * parameter `parse`. The processing timestamp is left out.
 */
module LambdaProcessor {
  import opened Wrappers
  import opened Numbers

  const AmountKey: string := "amount"

  type Row = map<string, Option<string>>

  /** The keys process_data adds when at least one amount parsed. */
  datatype AmountStats = AmountStats(totalAmount: real, averageAmount: real, minAmount: real, maxAmount: real)

  /** The dictionary process_data returns: total_rows, total_columns and the optional amount keys. */
  datatype Metrics = Metrics(totalRows: nat, totalColumns: nat, amounts: Option<AmountStats>)

  /** float(None) raises TypeError; the loop catches only ValueError and KeyError, so it escapes. */
  datatype Error = AmountIsNone

  /** The row holds an amount text that float() reads as x. */
  predicate ParsesTo(row: Row, parse: string -> Option<real>, x: real)
  {
    AmountKey in row && row[AmountKey].Some? && parse(row[AmountKey].value) == Some(x)
  }

  /** The row holds an amount field whose value is None (a short CSV line). */
  predicate AmountMissing(row: Row)
  {
    AmountKey in row && row[AmountKey].None?
  }

  /**
   * One pass of the loop body: Ok(Some(x)) appends x, Ok(None) is the
   * `continue` after a KeyError or ValueError, Err is the uncaught TypeError.
   */
  function ParseAmount(row: Row, parse: string -> Option<real>): (r: Result<Option<real>, Error>)
    ensures r.Err? <==> AmountMissing(row)
    ensures forall x :: r == Ok(Some(x)) <==> ParsesTo(row, parse, x)
  {
    if AmountKey !in row then Ok(None)
    else
      match row[AmountKey]
      case None => Err(AmountIsNone)
      case Some(s) => Ok(parse(s))
  }

  /** The amounts list once the loop has gone through `rows`, or the error it raised. */
  function ParsedAmounts(rows: seq<Row>, parse: string -> Option<real>): (r: Result<seq<real>, Error>)
    ensures r.Ok? ==> forall i :: 0 <= i < |rows| ==> !AmountMissing(rows[i])
  {
    if rows == [] then Ok([])
    else
      var init :- ParsedAmounts(rows[..|rows| - 1], parse);
      var x :- ParseAmount(rows[|rows| - 1], parse);
      Ok(match x case Some(v) => init + [v] case None => init)
  }

  /** What process_data returns for `data`, or the error it raises. */
  function Summarize(data: seq<Row>, parse: string -> Option<real>): (r: Result<Metrics, Error>)
    ensures r.Err? ==> |data| > 0 && AmountKey in data[0]
    ensures r.Ok? && r.value.amounts.Some? ==> r.value.amounts.value.minAmount <= r.value.amounts.value.maxAmount
  {
    if |data| == 0 then Ok(Metrics(0, 0, None))
    else if AmountKey !in data[0] then Ok(Metrics(|data|, |data[0]|, None))
    else
      var xs :- ParsedAmounts(data, parse);
      Ok(Metrics(|data|, |data[0]|,
                 if |xs| == 0 then None
                 else Some(AmountStats(Sum(xs), Sum(xs) / |xs| as real, Min(xs), Max(xs)))))
  }

  /** Once the loop has raised, going through more rows does not undo it. */
  lemma {:induction false} ParsedAmountsErrPersists(rows: seq<Row>, k: nat, parse: string -> Option<real>)
    requires k <= |rows|
    requires ParsedAmounts(rows[..k], parse).Err?
    ensures ParsedAmounts(rows, parse).Err?
    decreases |rows| - k
  {
    if k < |rows| {
      assert rows[..k + 1][..k] == rows[..k];
      ParsedAmountsErrPersists(rows, k + 1, parse);
    } else {
      assert rows[..k] == rows;
    }
  }

  /**
   * DataProcessor.process_data. The row list is an array the method has no
   * right to modify: process_data only reads its input.
   */
  method ProcessData(data: array<Row>, parse: string -> Option<real>) returns (r: Result<Metrics, Error>)
    ensures r == Summarize(data[..], parse)
  {
    if data.Length == 0 {
      return Ok(Metrics(0, 0, None));
    }
    var metrics := Metrics(data.Length, |data[0]|, None);
    if AmountKey in data[0] {
      var amounts: seq<real> := [];
      var i := 0;
      while i < data.Length
        invariant 0 <= i <= data.Length
        invariant ParsedAmounts(data[..i], parse) == Ok(amounts)
      {
        var row := data[i];
        assert data[..i + 1][..i] == data[..i] && data[..i + 1][i] == row;
        if AmountKey in row {
          match row[AmountKey] {
            case None =>
              assert data[..][..i + 1] == data[..i + 1];
              assert ParsedAmounts(data[..i + 1], parse).Err?;
              ParsedAmountsErrPersists(data[..], i + 1, parse);
              assert data[..][0] == data[0];
              assert ParsedAmounts(data[..], parse).Err?;
              assert Summarize(data[..], parse).Err?;
              assert Summarize(data[..], parse).error.AmountIsNone?;
              return Err(AmountIsNone);
            case Some(s) =>
              match parse(s) {
                case Some(x) => amounts := amounts + [x];
                case None =>
              }
          }
        }
        i := i + 1;
      }
      assert data[..i] == data[..];
      if |amounts| > 0 {
        var total := Sum(amounts);
        metrics := metrics.(amounts := Some(AmountStats(total, total / |amounts| as real, Min(amounts), Max(amounts))));
      }
    }
    return Ok(metrics);
  }
}
