/**
 * What process_data promises, proved about Summarize, the function
 * LambdaProcessor.ProcessData is verified against: when it raises, the shape of
 * its result, and the meaning of the four amount keys.
 */
module LambdaProcessorLemmas {
  import opened Wrappers
  import opened Numbers
  import opened LambdaProcessor

  /** The row holds an amount text that float() accepts. */
  predicate AmountParses(row: Row, parse: string -> Option<real>)
  {
    AmountKey in row && row[AmountKey].Some? && parse(row[AmountKey].value).Some?
  }

  /** How many rows contribute an amount. */
  function ParsedCount(rows: seq<Row>, parse: string -> Option<real>): nat
  {
    if rows == [] then 0
    else ParsedCount(rows[1..], parse) + (if AmountParses(rows[0], parse) then 1 else 0)
  }

  lemma {:induction false} ParsedCountSplit(rows: seq<Row>, parse: string -> Option<real>)
    requires rows != []
    ensures ParsedCount(rows, parse)
            == ParsedCount(rows[..|rows| - 1], parse) + (if AmountParses(rows[|rows| - 1], parse) then 1 else 0)
  {
    if |rows| > 1 {
      assert rows[1..][..|rows[1..]| - 1] == rows[..|rows| - 1][1..];
      ParsedCountSplit(rows[1..], parse);
    }
  }

  /** What one row adds to the amounts list: its parsed amount, or nothing. */
  function Contribution(row: Row, parse: string -> Option<real>): seq<real>
  {
    if AmountParses(row, parse) then [parse(row[AmountKey].value).value] else []
  }

  /** The parsed amounts, row by row from the front, one per row whose amount parsed. */
  function ParsedValues(rows: seq<Row>, parse: string -> Option<real>): seq<real>
  {
    if rows == [] then [] else Contribution(rows[0], parse) + ParsedValues(rows[1..], parse)
  }

  lemma {:induction false} ParsedValuesSplit(rows: seq<Row>, parse: string -> Option<real>)
    requires rows != []
    ensures ParsedValues(rows, parse)
            == ParsedValues(rows[..|rows| - 1], parse) + Contribution(rows[|rows| - 1], parse)
  {
    if |rows| > 1 {
      var init := rows[..|rows| - 1];
      var last := Contribution(rows[|rows| - 1], parse);
      assert rows[1..][..|rows[1..]| - 1] == init[1..];
      assert rows[1..][|rows[1..]| - 1] == rows[|rows| - 1];
      ParsedValuesSplit(rows[1..], parse);
      calc {
        ParsedValues(rows, parse);
        Contribution(rows[0], parse) + ParsedValues(rows[1..], parse);
        Contribution(rows[0], parse) + (ParsedValues(init[1..], parse) + last);
        (Contribution(init[0], parse) + ParsedValues(init[1..], parse)) + last;
        ParsedValues(init, parse) + last;
      }
    } else {
      assert rows[..0] == [];
    }
  }

  /** The loop raises exactly when some row has an amount field holding None. */
  lemma {:induction false} ParsedAmountsFails(rows: seq<Row>, parse: string -> Option<real>)
    ensures ParsedAmounts(rows, parse).Err? <==> exists i :: 0 <= i < |rows| && AmountMissing(rows[i])
  {
    if rows != [] {
      var init := rows[..|rows| - 1];
      ParsedAmountsFails(init, parse);
      if exists i :: 0 <= i < |init| && AmountMissing(init[i]) {
        var i :| 0 <= i < |init| && AmountMissing(init[i]);
        assert AmountMissing(rows[i]);
      }
      if exists i :: 0 <= i < |rows| && AmountMissing(rows[i]) {
        var i :| 0 <= i < |rows| && AmountMissing(rows[i]);
        if i < |rows| - 1 {
          assert AmountMissing(init[i]);
        }
      }
    }
  }

  /**
   * When the loop completes, the amounts list is the parsed amounts of the
   * rows, in row order: the list itself, not only its length and elements.
   */
  lemma {:induction false} ParsedAmountsInOrder(rows: seq<Row>, parse: string -> Option<real>)
    requires ParsedAmounts(rows, parse).Ok?
    ensures ParsedAmounts(rows, parse).value == ParsedValues(rows, parse)
  {
    if rows != [] {
      ParsedAmountsInOrder(rows[..|rows| - 1], parse);
      ParsedValuesSplit(rows, parse);
    }
  }

  /**
   * When the loop completes, the amounts list holds the values of exactly the
   * rows whose amount parsed, one per such row; rows without the key or with
   * an unparseable amount contribute nothing.
   */
  lemma {:induction false} ParsedAmountsValues(rows: seq<Row>, parse: string -> Option<real>)
    requires ParsedAmounts(rows, parse).Ok?
    ensures |ParsedAmounts(rows, parse).value| == ParsedCount(rows, parse) <= |rows|
    ensures forall x :: x in ParsedAmounts(rows, parse).value
                        <==> exists i :: 0 <= i < |rows| && ParsesTo(rows[i], parse, x)
  {
    if rows != [] {
      var init := rows[..|rows| - 1];
      var last := rows[|rows| - 1];
      ParsedAmountsValues(init, parse);
      ParsedCountSplit(rows, parse);
      var xs := ParsedAmounts(rows, parse).value;
      var ys := ParsedAmounts(init, parse).value;
      forall x ensures x in xs <==> exists i :: 0 <= i < |rows| && ParsesTo(rows[i], parse, x) {
        if x in xs {
          if x in ys {
            var i :| 0 <= i < |init| && ParsesTo(init[i], parse, x);
            assert ParsesTo(rows[i], parse, x);
          } else {
            assert ParsesTo(rows[|rows| - 1], parse, x);
          }
        }
        if exists i :: 0 <= i < |rows| && ParsesTo(rows[i], parse, x) {
          var i :| 0 <= i < |rows| && ParsesTo(rows[i], parse, x);
          if i < |rows| - 1 {
            assert ParsesTo(init[i], parse, x);
          }
        }
      }
    }
  }

  /**
   * The shape of process_data's result: an empty list gives zero rows and
   * columns and no amount keys; otherwise total_rows is the row count and
   * total_columns the first row's field count. It raises exactly when the first
   * row has an amount field and some row's amount is None, and the amount keys
   * are present exactly when the first row has an amount field and some row's
   * amount parsed.
   */
  lemma SummarizeShape(data: seq<Row>, parse: string -> Option<real>)
    ensures |data| == 0 ==> Summarize(data, parse) == Ok(Metrics(0, 0, None))
    ensures Summarize(data, parse).Err?
            <==> |data| > 0 && AmountKey in data[0] && exists i :: 0 <= i < |data| && AmountMissing(data[i])
    ensures Summarize(data, parse).Ok? && |data| > 0 ==>
              Summarize(data, parse).value.totalRows == |data|
              && Summarize(data, parse).value.totalColumns == |data[0]|
    ensures Summarize(data, parse).Ok? ==>
              (Summarize(data, parse).value.amounts.Some?
               <==> |data| > 0 && AmountKey in data[0] && exists i :: 0 <= i < |data| && AmountParses(data[i], parse))
  {
    ParsedAmountsFails(data, parse);
    if |data| > 0 && AmountKey in data[0] && ParsedAmounts(data, parse).Ok? {
      ParsedAmountsValues(data, parse);
      var xs := ParsedAmounts(data, parse).value;
      if |xs| > 0 {
        assert xs[0] in xs;
        var i :| 0 <= i < |data| && ParsesTo(data[i], parse, xs[0]);
        assert AmountParses(data[i], parse);
      }
      if exists i :: 0 <= i < |data| && AmountParses(data[i], parse) {
        var i :| 0 <= i < |data| && AmountParses(data[i], parse);
        var x := parse(data[i][AmountKey].value).value;
        assert ParsesTo(data[i], parse, x);
        assert x in xs;
      }
    }
  }

  /** The amounts list behind the amount keys, for a run that produced them. */
  lemma StatsOfParsedAmounts(data: seq<Row>, parse: string -> Option<real>)
    requires Summarize(data, parse).Ok? && Summarize(data, parse).value.amounts.Some?
    ensures ParsedAmounts(data, parse).Ok?
    ensures var xs := ParsedAmounts(data, parse).value;
            |xs| > 0
            && Summarize(data, parse).value.amounts.value
               == AmountStats(Sum(xs), Sum(xs) / |xs| as real, Min(xs), Max(xs))
  {
  }

  /** total_amount is the sum of the parsed amounts, in row order. */
  lemma SummarizeTotal(data: seq<Row>, parse: string -> Option<real>)
    requires Summarize(data, parse).Ok? && Summarize(data, parse).value.amounts.Some?
    ensures Summarize(data, parse).value.amounts.value.totalAmount == Sum(ParsedValues(data, parse))
  {
    StatsOfParsedAmounts(data, parse);
    ParsedAmountsInOrder(data, parse);
  }

  /**
   * average_amount is total_amount divided by the number of rows whose amount
   * parsed, not by total_rows.
   */
  lemma SummarizeAverage(data: seq<Row>, parse: string -> Option<real>)
    requires Summarize(data, parse).Ok? && Summarize(data, parse).value.amounts.Some?
    ensures var st := Summarize(data, parse).value.amounts.value;
            0 < ParsedCount(data, parse) <= |data|
            && st.averageAmount == st.totalAmount / ParsedCount(data, parse) as real
  {
    StatsOfParsedAmounts(data, parse);
    ParsedAmountsValues(data, parse);
  }

  /**
   * min_amount and max_amount bound every parsed amount and are themselves
   * parsed amounts.
   */
  lemma SummarizeMinMax(data: seq<Row>, parse: string -> Option<real>)
    requires Summarize(data, parse).Ok? && Summarize(data, parse).value.amounts.Some?
    ensures var st := Summarize(data, parse).value.amounts.value;
            (forall i, x :: 0 <= i < |data| && ParsesTo(data[i], parse, x) ==> st.minAmount <= x <= st.maxAmount)
            && (exists i :: 0 <= i < |data| && ParsesTo(data[i], parse, st.minAmount))
            && (exists i :: 0 <= i < |data| && ParsesTo(data[i], parse, st.maxAmount))
  {
    StatsOfParsedAmounts(data, parse);
    var xs := ParsedAmounts(data, parse).value;
    ParsedAmountsValues(data, parse);
    assert Min(xs) in xs && Max(xs) in xs;
    forall i, x | 0 <= i < |data| && ParsesTo(data[i], parse, x) ensures Min(xs) <= x <= Max(xs) {
      assert x in xs;
      var k :| 0 <= k < |xs| && xs[k] == x;
    }
  }
}
