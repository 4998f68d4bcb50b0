/**
 * What clean_data and calculate_metrics promise, proved about the model in
 * SalesData: when cleaning fails and why, which rows survive and in what form,
 * idempotence on a non-empty result, and the metrics of a cleaned frame.
 */
module SalesDataLemmas {
  import opened Wrappers
  import opened Numbers
  import opened SalesData

  // ---------------------------------------------------------------------------
  // Errors of clean_data

  /** pd.to_datetime over the complete rows raises exactly when one of them has a bad date. */
  lemma {:induction false} DatetimeColumnFails(columns: seq<string>, rows: seq<Row>, p: Parsers)
    requires Date in columns
    ensures ToDatetimeColumn(DropNa(columns, rows), p).Err?
            <==> exists i :: 0 <= i < |rows| && BadDate(columns, rows[i], p)
    ensures ToDatetimeColumn(DropNa(columns, rows), p).Err?
            ==> ToDatetimeColumn(DropNa(columns, rows), p).error == UnparseableDate
  {
    if rows != [] {
      DatetimeColumnFails(columns, rows[1..], p);
      var kept := DropNa(columns, rows);
      if Complete(columns, rows[0]) {
        assert kept[0] == rows[0] && kept[1..] == DropNa(columns, rows[1..]);
      }
      if exists i :: 0 <= i < |rows[1..]| && BadDate(columns, rows[1..][i], p) {
        var i :| 0 <= i < |rows[1..]| && BadDate(columns, rows[1..][i], p);
        assert BadDate(columns, rows[i + 1], p);
      }
      if exists i :: 0 <= i < |rows| && BadDate(columns, rows[i], p) {
        var i :| 0 <= i < |rows| && BadDate(columns, rows[i], p);
        if i > 0 {
          assert BadDate(columns, rows[1..][i - 1], p);
        }
      }
    }
  }

  /**
   * clean_data raises "Data is empty" exactly for an empty frame, raises on a
   * date exactly when a complete row's date does not parse, and otherwise
   * returns a frame: dropping every row is not an error.
   */
  lemma CleanDataErrors(f: Frame, p: Parsers)
    ensures CleanData(f, p) == Err(DataEmpty) <==> IsEmpty(f)
    ensures CleanData(f, p) == Err(UnparseableDate)
            <==> !IsEmpty(f) && exists i :: 0 <= i < |f.rows| && BadDate(f.columns, f.rows[i], p)
    ensures CleanData(f, p).Ok?
            <==> !IsEmpty(f) && forall i :: 0 <= i < |f.rows| ==> !BadDate(f.columns, f.rows[i], p)
  {
    if Date in f.columns {
      DatetimeColumnFails(f.columns, f.rows, p);
    }
  }

  // ---------------------------------------------------------------------------
  // The staged pipeline equals the row-wise description

  /** Every element of a subsequence is an element of the whole. */
  lemma {:induction false} SubsequenceMembers<T>(a: seq<T>, b: seq<T>)
    requires SubsequenceOf(a, b)
    ensures forall x :: x in a ==> x in b
    decreases |b|
  {
    if a != [] && b != [] {
      if a[0] == b[0] && SubsequenceOf(a[1..], b[1..]) {
        SubsequenceMembers(a[1..], b[1..]);
        forall x | x in a ensures x in b {
          if x != a[0] {
            assert x in a[1..];
          }
        }
      } else {
        SubsequenceMembers(a, b[1..]);
      }
    }
  }

  /** Converting a surviving row changes only its date and amount cells, to their parsed values. */
  lemma ConvertRowCells(columns: seq<string>, row: Row, p: Parsers)
    requires Survives(columns, row, p) && !BadDate(columns, row, p)
    ensures ConvertRow(columns, row, p).Keys == row.Keys
    ensures forall c :: c in row && c != Date && c != Amount ==> ConvertRow(columns, row, p)[c] == row[c]
    ensures Date in columns ==>
              ConvertRow(columns, row, p)[Date] == Some(Instant(ToDatetime(row[Date].value, p).value))
    ensures Amount in columns ==>
              ConvertRow(columns, row, p)[Amount] == Some(Number(ToNumeric(row[Amount].value, p).value))
    ensures Cleaned(columns, ConvertRow(columns, row, p))
  {
  }

  /** The staged stages 2 to 4 applied to dropna's output give the converted survivors. */
  lemma {:induction false} StagesRowWise(columns: seq<string>, rows: seq<Row>, p: Parsers, dated: seq<Row>)
    requires Date !in columns ==> dated == DropNa(columns, rows)
    requires Date in columns ==> ToDatetimeColumn(DropNa(columns, rows), p) == Ok(dated)
    ensures (if Amount in columns then DropMissingAmount(ToNumericColumn(dated, p)) else dated)
            == ConvertRows(columns, Survivors(columns, rows, p), p)
  {
    if rows == [] {
      assert dated == [];
    } else {
      var row := rows[0];
      var kept := DropNa(columns, rows);
      if !Complete(columns, row) {
        StagesRowWise(columns, rows[1..], p, dated);
      } else {
        assert kept[0] == row && kept[1..] == DropNa(columns, rows[1..]);
        var head, tail;
        if Date in columns {
          head := ConvertDate(row, p).value;
          tail := ToDatetimeColumn(DropNa(columns, rows[1..]), p).value;
        } else {
          head := row;
          tail := DropNa(columns, rows[1..]);
        }
        assert dated == [head] + tail;
        assert dated[0] == head && dated[1..] == tail;
        StagesRowWise(columns, rows[1..], p, tail);
        if Amount in columns {
          var coerced := ToNumericColumn(dated, p);
          assert coerced[0] == CoerceAmount(head, p) && coerced[1..] == ToNumericColumn(tail, p);
          assert Cell(head, Amount) == Cell(row, Amount);
          if Survives(columns, row, p) {
            assert CoerceAmount(head, p) == ConvertRow(columns, row, p);
          }
        } else {
          assert head == ConvertRow(columns, row, p);
        }
      }
    }
  }

  /** Converting rows keeps their number and makes every survivor a cleaned row. */
  lemma {:induction false} ConvertRowsCleaned(columns: seq<string>, rows: seq<Row>, p: Parsers)
    requires forall i :: 0 <= i < |rows| ==> Survives(columns, rows[i], p) && !BadDate(columns, rows[i], p)
    ensures |ConvertRows(columns, rows, p)| == |rows|
    ensures forall i :: 0 <= i < |rows| ==> ConvertRows(columns, rows, p)[i] == ConvertRow(columns, rows[i], p)
    ensures forall i :: 0 <= i < |rows| ==> Cleaned(columns, ConvertRows(columns, rows, p)[i])
  {
    if rows != [] {
      ConvertRowsCleaned(columns, rows[1..], p);
      var out := ConvertRows(columns, rows, p);
      forall i | 0 <= i < |rows| ensures Cleaned(columns, out[i]) {
        ConvertRowCells(columns, rows[i], p);
      }
    }
  }

  /**
   * A successful clean_data returns the surviving rows (complete, amount
   * coercible) in their original order, each with its date and amount
   * converted; every returned row is cleaned.
   */
  lemma CleanDataRowWise(f: Frame, p: Parsers)
    requires CleanData(f, p).Ok?
    ensures CleanData(f, p).value.rows == ConvertRows(f.columns, Survivors(f.columns, f.rows, p), p)
    ensures |CleanData(f, p).value.rows| == |Survivors(f.columns, f.rows, p)| <= |f.rows|
    ensures forall i :: 0 <= i < |CleanData(f, p).value.rows| ==> Cleaned(f.columns, CleanData(f, p).value.rows[i])
  {
    var kept := DropNa(f.columns, f.rows);
    var dated := if Date in f.columns then ToDatetimeColumn(kept, p).value else kept;
    StagesRowWise(f.columns, f.rows, p, dated);
    CleanDataErrors(f, p);
    var s := Survivors(f.columns, f.rows, p);
    SubsequenceMembers(s, f.rows);
    SubsequenceLength(s, f.rows);
    forall i | 0 <= i < |s| ensures !BadDate(f.columns, s[i], p) {
      assert s[i] in f.rows;
    }
    ConvertRowsCleaned(f.columns, s, p);
  }

  lemma {:induction false} SubsequenceLength<T>(a: seq<T>, b: seq<T>)
    requires SubsequenceOf(a, b)
    ensures |a| <= |b|
    decreases |b|
  {
    if a != [] {
      if a[0] == b[0] && SubsequenceOf(a[1..], b[1..]) {
        SubsequenceLength(a[1..], b[1..]);
      } else {
        SubsequenceLength(a, b[1..]);
      }
    }
  }

  /** A non-empty frame whose every row has a missing cell cleans to no rows, not to an error. */
  lemma AllRowsDropped(f: Frame, p: Parsers)
    requires !IsEmpty(f)
    requires forall i :: 0 <= i < |f.rows| ==> !Complete(f.columns, f.rows[i])
    ensures CleanData(f, p) == Ok(Frame(f.columns, []))
  {
    CleanDataErrors(f, p);
    CleanDataRowWise(f, p);
    NoSurvivors(f.columns, f.rows, p);
  }

  lemma {:induction false} NoSurvivors(columns: seq<string>, rows: seq<Row>, p: Parsers)
    requires forall i :: 0 <= i < |rows| ==> !Complete(columns, rows[i])
    ensures Survivors(columns, rows, p) == []
  {
    if rows != [] {
      NoSurvivors(columns, rows[1..], p);
    }
  }

  // ---------------------------------------------------------------------------
  // Row multiplicities: every filter keeps each qualifying row as often as it occurs

  /** dropna() keeps every complete row as many times as it occurs, and no incomplete one. */
  lemma {:induction false} DropNaCounts(columns: seq<string>, rows: seq<Row>)
    ensures forall x :: multiset(DropNa(columns, rows))[x]
                        == if Complete(columns, x) then multiset(rows)[x] else 0
  {
    if rows != [] {
      DropNaCounts(columns, rows[1..]);
      assert rows == [rows[0]] + rows[1..];
    }
  }

  /** dropna(subset=["amount"]) keeps every row with an amount as many times as it occurs. */
  lemma {:induction false} DropMissingAmountCounts(rows: seq<Row>)
    ensures forall x :: multiset(DropMissingAmount(rows))[x]
                        == if Cell(x, Amount).Some? then multiset(rows)[x] else 0
  {
    if rows != [] {
      DropMissingAmountCounts(rows[1..]);
      assert rows == [rows[0]] + rows[1..];
    }
  }

  /** Cleaning keeps every surviving row as many times as it occurs, and no other. */
  lemma {:induction false} SurvivorsCounts(columns: seq<string>, rows: seq<Row>, p: Parsers)
    ensures forall x :: multiset(Survivors(columns, rows, p))[x]
                        == if Survives(columns, x, p) then multiset(rows)[x] else 0
  {
    if rows != [] {
      SurvivorsCounts(columns, rows[1..], p);
      assert rows == [rows[0]] + rows[1..];
    }
  }

  // ---------------------------------------------------------------------------
  // Idempotence

  lemma {:induction false} DropNaKeepsCleaned(columns: seq<string>, rows: seq<Row>)
    requires forall i :: 0 <= i < |rows| ==> Cleaned(columns, rows[i])
    ensures DropNa(columns, rows) == rows
  {
    if rows != [] {
      DropNaKeepsCleaned(columns, rows[1..]);
    }
  }

  lemma {:induction false} DatetimeKeepsCleaned(columns: seq<string>, rows: seq<Row>, p: Parsers)
    requires Date in columns
    requires forall i :: 0 <= i < |rows| ==> Cleaned(columns, rows[i])
    ensures ToDatetimeColumn(rows, p) == Ok(rows)
  {
    if rows != [] {
      DatetimeKeepsCleaned(columns, rows[1..], p);
      var row := rows[0];
      assert Cleaned(columns, row);
      assert row[Date := row[Date]] == row;
      assert ConvertDate(row, p) == Ok(row);
      assert [row] + rows[1..] == rows;
    }
  }

  lemma {:induction false} NumericKeepsCleaned(columns: seq<string>, rows: seq<Row>, p: Parsers)
    requires Amount in columns
    requires forall i :: 0 <= i < |rows| ==> Cleaned(columns, rows[i])
    ensures DropMissingAmount(ToNumericColumn(rows, p)) == rows
  {
    if rows != [] {
      NumericKeepsCleaned(columns, rows[1..], p);
      var row := rows[0];
      assert Cleaned(columns, row);
      assert CoerceAmount(row, p) == row[Amount := row[Amount]] == row;
    }
  }

  /**
   * Cleaning a non-empty cleaned frame again changes nothing. A clean that
   * dropped every row is not idempotent: cleaning its result raises "Data is empty".
   */
  lemma CleanDataIdempotent(f: Frame, p: Parsers)
    requires CleanData(f, p).Ok?
    ensures var g := CleanData(f, p).value;
            if |g.rows| > 0 then CleanData(g, p) == Ok(g) else CleanData(g, p) == Err(DataEmpty)
  {
    var g := CleanData(f, p).value;
    CleanDataRowWise(f, p);
    if |g.rows| > 0 {
      DropNaKeepsCleaned(g.columns, g.rows);
      if Date in g.columns {
        DatetimeKeepsCleaned(g.columns, g.rows, p);
      }
      if Amount in g.columns {
        NumericKeepsCleaned(g.columns, g.rows, p);
      }
    }
  }

  // ---------------------------------------------------------------------------
  // calculate_metrics

  /** With every amount a present float, the floats sum() and mean() see are the whole column. */
  lemma {:induction false} NumericAmountsWholeColumn(rows: seq<Row>)
    requires forall i :: 0 <= i < |rows| ==> Cell(rows[i], Amount).Some? && Cell(rows[i], Amount).value.Number?
    ensures |NumericAmounts(rows)| == |rows|
    ensures forall i :: 0 <= i < |rows| ==> NumericAmounts(rows)[i] == Cell(rows[i], Amount).value.x
  {
    if rows != [] {
      NumericAmountsWholeColumn(rows[1..]);
      assert NumericAmounts(rows) == [Cell(rows[0], Amount).value.x] + NumericAmounts(rows[1..]);
    }
  }

  /**
   * On a non-empty frame with an amount column and no missing amount,
   * total_sales is the column's sum, count the number of rows, and avg_sales
   * exactly total_sales / count.
   */
  lemma MetricsOfNumericColumn(f: Frame)
    requires !IsEmpty(f) && Amount in f.columns
    requires forall i :: 0 <= i < |f.rows| ==> Cell(f.rows[i], Amount).Some? && Cell(f.rows[i], Amount).value.Number?
    ensures CalculateMetrics(f)
            == Ok(SalesMetrics(Sum(NumericAmounts(f.rows)), Finite(Sum(NumericAmounts(f.rows)) / |f.rows| as real), |f.rows|))
  {
    NumericAmountsWholeColumn(f.rows);
    assert forall i :: 0 <= i < |f.rows| ==> !HoldsNonNumber(f.rows[i]);
  }

  /**
   * clean_data followed by calculate_metrics: a cleaned frame with rows and an
   * amount column never fails in calculate_metrics, and its average is total / count.
   */
  lemma MetricsOfCleaned(f: Frame, p: Parsers)
    requires CleanData(f, p).Ok?
    requires |CleanData(f, p).value.rows| > 0 && Amount in f.columns
    ensures var g := CleanData(f, p).value;
            CalculateMetrics(g)
            == Ok(SalesMetrics(Sum(NumericAmounts(g.rows)), Finite(Sum(NumericAmounts(g.rows)) / |g.rows| as real), |g.rows|))
  {
    var g := CleanData(f, p).value;
    CleanDataRowWise(f, p);
    assert forall i :: 0 <= i < |g.rows| ==> Cleaned(g.columns, g.rows[i]);
    MetricsOfNumericColumn(g);
  }

  // ---------------------------------------------------------------------------
  // The unit tests' scenarios

  function SampleRow(date: string, amount: Option<Value>, product: string): Row
  {
    map["date" := Some(Text(date)), "amount" := amount, "product" := Some(Text(product))]
  }

  const SampleColumns: seq<string> := ["date", "amount", "product"]

  /** test_calculate_metrics_success: amounts 100, 200, 300 give 600.0, 200.0 and 3. */
  lemma SampleMetrics()
    ensures CalculateMetrics(Frame(SampleColumns, [
              SampleRow("2024-01-01", Some(Number(100.0)), "A"),
              SampleRow("2024-01-02", Some(Number(200.0)), "B"),
              SampleRow("2024-01-03", Some(Number(300.0)), "C")]))
            == Ok(SalesMetrics(600.0, Finite(200.0), 3))
  {
    var rows := [
      SampleRow("2024-01-01", Some(Number(100.0)), "A"),
      SampleRow("2024-01-02", Some(Number(200.0)), "B"),
      SampleRow("2024-01-03", Some(Number(300.0)), "C")];
    MetricsOfNumericColumn(Frame(SampleColumns, rows));
    assert rows[1..][1..] == [rows[2]] && [rows[2]][1..] == [];
    assert NumericAmounts(rows) == [100.0, 200.0, 300.0];
    assert Sum([100.0, 200.0, 300.0]) == 600.0 by {
      assert [100.0, 200.0, 300.0][..2] == [100.0, 200.0];
      assert [100.0, 200.0][..1] == [100.0];
      assert [100.0][..0] == [];
    }
  }

  /** A sample row is complete exactly when its amount is present. */
  lemma SampleRowComplete(date: string, amount: Option<Value>, product: string)
    ensures Complete(SampleColumns, SampleRow(date, amount, product)) <==> amount.Some?
  {
    var row := SampleRow(date, amount, product);
    assert Amount in SampleColumns && Cell(row, Amount) == amount;
    if amount.Some? {
      forall c | c in SampleColumns ensures Cell(row, c).Some? {
        assert c == SampleColumns[0] || c == SampleColumns[1] || c == SampleColumns[2];
      }
    }
  }

  /** The test's frame: the sample data with the second amount set to None. */
  function MissingAmountRows(): seq<Row>
  {
    [SampleRow("2024-01-01", Some(Number(100.0)), "A"),
     SampleRow("2024-01-02", None, "B"),
     SampleRow("2024-01-03", Some(Number(300.0)), "C")]
  }

  lemma MissingAmountSurvivors(p: Parsers)
    ensures var rows := MissingAmountRows();
            Survivors(SampleColumns, rows, p) == [rows[0], rows[2]]
            && Survives(SampleColumns, rows[0], p) && Survives(SampleColumns, rows[2], p)
  {
    var rows := MissingAmountRows();
    SampleRowComplete("2024-01-01", Some(Number(100.0)), "A");
    SampleRowComplete("2024-01-02", None, "B");
    SampleRowComplete("2024-01-03", Some(Number(300.0)), "C");
    assert rows[1..][1..] == [rows[2]] && [rows[2]][1..] == [];
    assert Survivors(SampleColumns, [rows[2]], p) == [rows[2]];
    assert Survivors(SampleColumns, rows[1..], p) == [rows[2]];
  }

  lemma MissingAmountDates(p: Parsers)
    requires p.datetime("2024-01-01").Some? && p.datetime("2024-01-03").Some?
    ensures forall i :: 0 <= i < |MissingAmountRows()| ==> !BadDate(SampleColumns, MissingAmountRows()[i], p)
  {
    var rows := MissingAmountRows();
    SampleRowComplete("2024-01-02", None, "B");
    forall i | 0 <= i < |rows| ensures !BadDate(SampleColumns, rows[i], p) {
      assert i == 0 || i == 1 || i == 2;
    }
  }

  /** The test's frame cleans to its first and third rows, converted. */
  lemma MissingAmountCleaned(p: Parsers)
    requires p.datetime("2024-01-01").Some? && p.datetime("2024-01-03").Some?
    ensures var f := Frame(SampleColumns, MissingAmountRows());
            CleanData(f, p).Ok?
            && CleanData(f, p).value.rows == ConvertRows(SampleColumns, [f.rows[0], f.rows[2]], p)
  {
    var f := Frame(SampleColumns, MissingAmountRows());
    MissingAmountDates(p);
    CleanDataErrors(f, p);
    CleanDataRowWise(f, p);
    MissingAmountSurvivors(p);
  }

  /** The two converted rows of the test's frame hold the amounts 100 and 300. */
  lemma MissingAmountConverted(p: Parsers)
    requires p.datetime("2024-01-01").Some? && p.datetime("2024-01-03").Some?
    ensures var rows := MissingAmountRows();
            NumericAmounts(ConvertRows(SampleColumns, [rows[0], rows[2]], p)) == [100.0, 300.0]
  {
    var rows := MissingAmountRows();
    MissingAmountSurvivors(p);
    MissingAmountDates(p);
    ConvertRowsCleaned(SampleColumns, [rows[0], rows[2]], p);
    ConvertRowCells(SampleColumns, rows[0], p);
    ConvertRowCells(SampleColumns, rows[2], p);
  }

  /** A cleaned frame whose two amounts are 100 and 300 has metrics 400.0, 200.0 and 2. */
  lemma MetricsOf100And300(f: Frame, p: Parsers)
    requires CleanData(f, p).Ok? && Amount in f.columns
    requires |CleanData(f, p).value.rows| == 2
    requires NumericAmounts(CleanData(f, p).value.rows) == [100.0, 300.0]
    ensures CalculateMetrics(CleanData(f, p).value) == Ok(SalesMetrics(400.0, Finite(200.0), 2))
  {
    MetricsOfCleaned(f, p);
    var xs := NumericAmounts(CleanData(f, p).value.rows);
    assert Sum(xs) == 400.0 by {
      assert xs[..1] == [100.0];
      assert [100.0][..0] == [];
    }
  }

  /**
   * test_clean_data_success: with the second amount missing, cleaning keeps
   * two rows, and their metrics are 400.0, 200.0 and 2.
   */
  lemma SampleWithMissingAmount(p: Parsers)
    requires p.datetime("2024-01-01").Some? && p.datetime("2024-01-03").Some?
    ensures var f := Frame(SampleColumns, MissingAmountRows());
            CleanData(f, p).Ok? && |CleanData(f, p).value.rows| == 2
            && CalculateMetrics(CleanData(f, p).value) == Ok(SalesMetrics(400.0, Finite(200.0), 2))
  {
    MissingAmountCleaned(p);
    MissingAmountConverted(p);
    MetricsOf100And300(Frame(SampleColumns, MissingAmountRows()), p);
  }

  /** The test's frame holds no text or datetime amount, and its floats are 100 and 300. */
  lemma MissingAmountFloats()
    ensures NumericAmounts(MissingAmountRows()) == [100.0, 300.0]
    ensures forall i :: 0 <= i < |MissingAmountRows()| ==> !HoldsNonNumber(MissingAmountRows()[i])
  {
    var rows := MissingAmountRows();
    assert rows[1..][1..] == [rows[2]] && [rows[2]][1..] == [];
    forall i | 0 <= i < |rows| ensures !HoldsNonNumber(rows[i]) {
      assert i == 0 || i == 1 || i == 2;
    }
  }

  /** A non-empty frame whose present amounts are the floats 100 and 300 has total 400.0 and mean 200.0. */
  lemma MetricsOfPresent100And300(f: Frame)
    requires !IsEmpty(f) && Amount in f.columns
    requires forall i :: 0 <= i < |f.rows| ==> !HoldsNonNumber(f.rows[i])
    requires NumericAmounts(f.rows) == [100.0, 300.0]
    ensures CalculateMetrics(f) == Ok(SalesMetrics(400.0, Finite(200.0), |f.rows|))
  {
    assert Sum([100.0, 300.0]) == 400.0 by {
      assert [100.0, 300.0][..1] == [100.0];
      assert [100.0][..0] == [];
    }
  }

  /**
   * calculate_metrics on the uncleaned frame: the missing amount is skipped
   * by sum() and mean(), so the average is over the two present amounts,
   * while count is still the three rows.
   */
  lemma MetricsWithMissingAmount()
    ensures CalculateMetrics(Frame(SampleColumns, MissingAmountRows()))
            == Ok(SalesMetrics(400.0, Finite(200.0), 3))
  {
    MissingAmountFloats();
    MetricsOfPresent100And300(Frame(SampleColumns, MissingAmountRows()));
  }
}
