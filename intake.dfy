/**
  Datalog intake shared by both versions of the application component: the
  substring guard on the RPM and MAP column names, the parser's report, and
  the filter that keeps the rows with a positive RPM reading.
*/
module Intake {
  import opened Types
  import opened Text

  const InvalidCsvMessage: string :=
    "Invalid CSV. Ensure it is a valid Hondata datalog export with RPM and MAP columns."
  const ParseErrorPrefix: string := "Error parsing CSV: "
  const ReadFailedMessage: string := "Failed to read the file."

  datatype ParseError = ParseError(message: string)

  /** What the CSV parser (header row, empty lines skipped, dynamic typing)
      reports for a document: its errors and its rows. The tokeniser itself
      is foreign code, so a report is an input to the model. */
  datatype ParseResult = ParseResult(errors: seq<ParseError>, data: seq<DatalogRow>)

  /** The guard in front of parsing: both column names occur somewhere in
      the text, as plain substrings. */
  predicate HasRequiredColumns(content: string) {
    Contains(content, "RPM") && Contains(content, "MAP")
  }

  /** `row.RPM !== null && row.RPM > 0` under JavaScript's comparison rules:
      a number passes when positive, `true` compares as 1 and `false` as 0,
      and `null` and a missing value never pass. */
  predicate KeepRow(row: DatalogRow) {
    match row.Channel("RPM")
    case Num(x) => x > 0.0
    case Bool(b) => b
    case Str(_) => false
    case Null => false
    case Undefined => false
  }

  /** `results.data.filter(...)`: the rows that pass, in their input order. */
  function ValidRows(rows: seq<DatalogRow>): (kept: seq<DatalogRow>)
    ensures |kept| <= |rows|
    ensures forall row :: row in kept <==> row in rows && KeepRow(row)
  {
    if |rows| == 0 then []
    else
      var last := rows[|rows| - 1];
      ValidRows(rows[..|rows| - 1]) + (if KeepRow(last) then [last] else [])
  }

  /** Filtering a concatenation filters each part and keeps them in order;
      with the single-row cases this pins the filter down completely. */
  lemma {:induction false} ValidRowsConcat(a: seq<DatalogRow>, b: seq<DatalogRow>)
    ensures ValidRows(a + b) == ValidRows(a) + ValidRows(b)
    decreases |b|
  {
    if |b| == 0 {
      assert a + b == a;
    } else {
      var init, last := b[..|b| - 1], b[|b| - 1];
      var tail := if KeepRow(last) then [last] else [];
      assert (a + b)[..|a + b| - 1] == a + init;
      assert (a + b)[|a + b| - 1] == last;
      ValidRowsConcat(a, init);
      assert ValidRows(a + b) == ValidRows(a + init) + tail;
      assert ValidRows(b) == ValidRows(init) + tail;
    }
  }

  lemma ValidRowsSingle(row: DatalogRow)
    ensures ValidRows([row]) == (if KeepRow(row) then [row] else [])
  {
    assert [row][..0] == [];
  }

  /** Filtering twice is filtering once. */
  lemma {:induction false} ValidRowsIdempotent(rows: seq<DatalogRow>)
    ensures ValidRows(ValidRows(rows)) == ValidRows(rows)
  {
    if |rows| > 0 {
      var last := rows[|rows| - 1];
      ValidRowsIdempotent(rows[..|rows| - 1]);
      var tail := if KeepRow(last) then [last] else [];
      ValidRowsConcat(ValidRows(rows[..|rows| - 1]), tail);
      if KeepRow(last) {
        ValidRowsSingle(last);
      }
    }
  }

  /** The filter returns its input exactly when every row passes. */
  lemma {:induction false} ValidRowsKeepsAll(rows: seq<DatalogRow>)
    ensures ValidRows(rows) == rows <==> forall i :: 0 <= i < |rows| ==> KeepRow(rows[i])
  {
    if |rows| > 0 {
      var init := rows[..|rows| - 1];
      var last := rows[|rows| - 1];
      ValidRowsKeepsAll(init);
      assert init + [last] == rows;
      if forall i :: 0 <= i < |rows| ==> KeepRow(rows[i]) {
        assert forall i :: 0 <= i < |init| ==> KeepRow(init[i]) by {
          forall i | 0 <= i < |init| ensures KeepRow(init[i]) {
            assert init[i] == rows[i];
          }
        }
      } else {
        var i :| 0 <= i < |rows| && !KeepRow(rows[i]);
        assert rows[i] in rows;
        assert rows[i] !in ValidRows(rows);
      }
    }
  }
}
