/**
  The simulated datalog generator: four fault scenarios, each a fixed-length
  sweep in which every channel is a linear function of the sample index,
  serialised as CSV text (a header line, then one line per sample, joined
  with line feeds and without a trailing one).

  Channel values are `real`: the generator computes with IEEE doubles, and
  exact reals are the idealisation of those; where the source rounds
  (`Math.round`) the model rounds the exact value. `Number.toFixed` is left
  uninterpreted: it is the `Formatter` parameter. `Math.random` is the
  parameter `rand`, whose argument counts the calls made so far.
*/
module Simulation {
  import opened Text

  /** The column names of the header line, in order; the two names with a
      space are quoted as CSV allows. */
  const HeaderFields: seq<string> := ["Time", "RPM", "MAP", "AFR", "\"Ignition Total\"", "\"Injector Duty\""]

  /** The header line, `Time,RPM,MAP,AFR,"Ignition Total","Injector Duty"`. */
  const CsvHeader: string := Join(HeaderFields, ",")

  /** One generated sample (the generator sets every channel). */
  datatype Sample = Sample(time: real, rpm: int, mapPressure: real, afr: real, ignition: real, duty: real)

  /** `x.toFixed(digits)` */
  type Formatter = (real, nat) -> string

  /** What `toFixed` is known to produce: digits, sign, point or exponent,
      never a comma or a line feed. */
  ghost predicate FormatterClean(fixed: Formatter) {
    forall x: real, d: nat :: ',' !in fixed(x, d) && '\n' !in fixed(x, d)
  }

  /** `Math.round`: the nearest integer, halves rounded up. */
  function Round(x: real): (n: int)
    ensures x - 0.5 < n as real <= x + 0.5
  {
    (x + 0.5).Floor
  }

  // ---------------------------------------------------------------------
  // Serialisation (generateCsvString)
  // ---------------------------------------------------------------------

  /** The six fields of a data line, in header order, with the precision of
      each column. */
  function RowFields(r: Sample, fixed: Formatter): seq<string> {
    [fixed(r.time, 3), IntToString(r.rpm), fixed(r.mapPressure, 2), fixed(r.afr, 2),
     fixed(r.ignition, 1), fixed(r.duty, 1)]
  }

  function RowLine(r: Sample, fixed: Formatter): string {
    Join(RowFields(r, fixed), ",")
  }

  function RowLines(data: seq<Sample>, fixed: Formatter): seq<string> {
    seq(|data|, i requires 0 <= i < |data| => RowLine(data[i], fixed))
  }

  /** The header followed by one line per sample, joined with line feeds. */
  function GenerateCsvString(data: seq<Sample>, fixed: Formatter): (csv: string)
    ensures StartsWith(csv, CsvHeader)
    ensures data == [] <==> csv == CsvHeader
  {
    var lines := [CsvHeader] + RowLines(data, fixed);
    JoinStartsWithFirst(lines, "\n");
    assert data != [] ==> |Join(lines, "\n")| > |CsvHeader|;
    Join(lines, "\n")
  }

  lemma HeaderColumns()
    ensures Split(CsvHeader, ',') == HeaderFields
    ensures IsAt(CsvHeader, "RPM", 5) && IsAt(CsvHeader, "MAP", 9)
    ensures '\n' !in CsvHeader
  {
    HeaderFieldsClean();
    SplitJoin(HeaderFields, ',');
    JoinFree(HeaderFields, ",", '\n');
    HeaderNamesRequiredColumns();
  }

  lemma HeaderFieldsClean()
    ensures forall i :: 0 <= i < |HeaderFields| ==> ',' !in HeaderFields[i] && '\n' !in HeaderFields[i]
  {
    forall i | 0 <= i < |HeaderFields| ensures ',' !in HeaderFields[i] && '\n' !in HeaderFields[i] {
    }
  }

  lemma HeaderNamesRequiredColumns()
    ensures IsAt(CsvHeader, "RPM", 5) && IsAt(CsvHeader, "MAP", 9)
  {
    JoinSecondAndThird(HeaderFields, ",");
  }

  /** In a joined list of at least three parts, the second and third part
      sit right after the first and second separator. */
  lemma JoinSecondAndThird(parts: seq<string>, sep: string)
    requires |parts| >= 3
    ensures IsAt(Join(parts, sep), parts[1], |parts[0]| + |sep|)
    ensures IsAt(Join(parts, sep), parts[2], |parts[0]| + |parts[1]| + 2 * |sep|)
  {
    var rest := Join(parts[3..], sep);
    assert parts[1..][1..] == parts[2..];
    assert parts[2..][1..] == parts[3..];
    var tail := if |parts| == 3 then parts[2] else parts[2] + sep + rest;
    assert Join(parts[2..], sep) == tail;
    var whole := parts[0] + sep + parts[1] + (sep + tail);
    assert Join(parts, sep) == whole;
    var second, third := |parts[0]| + |sep|, |parts[0]| + |parts[1]| + 2 * |sep|;
    assert whole[second..second + |parts[1]|] == parts[1];
    assert whole[third..third + |parts[2]|] == parts[2];
  }

  /** Every document the serialiser produces names the RPM and MAP columns. */
  lemma CsvMentionsRequiredColumns(data: seq<Sample>, fixed: Formatter)
    ensures Contains(GenerateCsvString(data, fixed), "RPM")
    ensures Contains(GenerateCsvString(data, fixed), "MAP")
  {
    var csv := GenerateCsvString(data, fixed);
    HeaderColumns();
    IsAtPrefix(csv, CsvHeader, "RPM", 5);
    IsAtPrefix(csv, CsvHeader, "MAP", 9);
    ContainsAt(csv, "RPM", 5);
    ContainsAt(csv, "MAP", 9);
  }

  lemma {:induction false} IntToStringClean(n: int)
    ensures ',' !in IntToString(n) && '\n' !in IntToString(n)
  {
    var s := IntToString(n);
    forall i | 0 <= i < |s| ensures s[i] != ',' && s[i] != '\n' {
    }
  }

  /** A data line is its six fields joined by commas, with no line feed in it. */
  lemma RowLineFields(r: Sample, fixed: Formatter)
    requires FormatterClean(fixed)
    ensures '\n' !in RowLine(r, fixed)
    ensures Split(RowLine(r, fixed), ',') == RowFields(r, fixed)
  {
    var f := RowFields(r, fixed);
    IntToStringClean(r.rpm);
    assert forall j :: 0 <= j < |f| ==> '\n' !in f[j] && ',' !in f[j];
    JoinFree(f, ",", '\n');
    SplitJoin(f, ',');
  }

  /** Reading the document back: splitting it at line feeds gives the
      header and then exactly one line per sample, and splitting a data line
      at commas gives its six fields in header order. */
  lemma {:induction false} CsvStringLines(data: seq<Sample>, fixed: Formatter)
    requires FormatterClean(fixed)
    ensures Split(GenerateCsvString(data, fixed), '\n') == [CsvHeader] + RowLines(data, fixed)
    ensures |Split(GenerateCsvString(data, fixed), '\n')| == |data| + 1
    ensures forall i :: 0 <= i < |data| ==> Split(RowLine(data[i], fixed), ',') == RowFields(data[i], fixed)
  {
    var lines := [CsvHeader] + RowLines(data, fixed);
    HeaderColumns();
    forall j | 0 <= j < |lines| ensures '\n' !in lines[j] {
      if j > 0 { RowLineFields(data[j - 1], fixed); }
    }
    SplitJoin(lines, '\n');
    forall i | 0 <= i < |data| ensures Split(RowLine(data[i], fixed), ',') == RowFields(data[i], fixed) {
      RowLineFields(data[i], fixed);
    }
  }

  // ---------------------------------------------------------------------
  // The four scenarios. Each closed form below is the reference the
  // corresponding loop is proved against.
  // ---------------------------------------------------------------------

  /** Lean wide-open-throttle pull, row i of 0..100. */
  ghost function LeanWotRow(i: nat): Sample {
    Sample(i as real / 20.0, 2500 + 50 * i, 14.5, 12.5 + i as real / 50.0,
           20.0 - i as real / 20.0, 40.0 + 9.0 * i as real / 20.0)
  }

  method CreateLeanWot(fixed: Formatter) returns (csv: string, ghost data: seq<Sample>)
    ensures csv == GenerateCsvString(data, fixed)
    ensures |data| == 101
    ensures forall i :: 0 <= i < |data| ==> data[i] == LeanWotRow(i)
    ensures forall i, j :: 0 <= i < j < |data| ==> data[i].rpm < data[j].rpm
    ensures data[0].rpm == 2500 && data[100].rpm == 7500
    ensures data[0].afr == 12.5 && data[100].afr == 14.5
    ensures data[0].ignition == 20.0 && data[100].ignition == 15.0
    ensures data[0].duty == 40.0 && data[100].duty == 85.0
    ensures forall i :: 0 <= i < |data| ==> data[i].mapPressure == 14.5
  {
    var rows: seq<Sample> := [];
    var i := 0;
    while i <= 100
      invariant 0 <= i <= 101 && |rows| == i
      invariant forall k :: 0 <= k < i ==> rows[k] == LeanWotRow(k)
    {
      var progress := i as real / 100.0;
      var rpm := 2500.0 + 5000.0 * progress;
      rows := rows + [Sample(5.0 * progress, Round(rpm), 14.5, 12.5 + 2.0 * progress,
                             20.0 - 5.0 * progress, 40.0 + 45.0 * progress)];
      i := i + 1;
    }
    data := rows;
    csv := GenerateCsvString(rows, fixed);
  }

  /** Steady cruise with jitter: sample i draws twice, RPM jitter first. */
  /** Part-throttle cruise, row i of 0..50: RPM and AFR jitter around 3000
      and 12.8 with the draws 2i and 2i+1, in the order the row literal
      evaluates them. */
  ghost function RichCruiseRow(rand: nat -> real, i: nat): Sample {
    Sample(i as real / 10.0, 3000 + Round((rand(2 * i) - 0.5) * 50.0), -8.5,
           12.8 + (rand(2 * i + 1) - 0.5) * 0.5, 38.0, 15.0)
  }

  method CreateRichCruise(rand: nat -> real, fixed: Formatter) returns (csv: string, ghost data: seq<Sample>)
    ensures csv == GenerateCsvString(data, fixed)
    ensures |data| == 51
    ensures forall i :: 0 <= i < |data| ==> data[i] == RichCruiseRow(rand, i)
    ensures forall i :: 0 <= i < |data| ==>
      data[i].time == i as real / 10.0 && data[i].mapPressure == -8.5 &&
      data[i].ignition == 38.0 && data[i].duty == 15.0
    ensures forall i :: 0 <= i < |data| ==>
      data[i].rpm == 3000 + Round((rand(2 * i) - 0.5) * 50.0) &&
      data[i].afr == 12.8 + (rand(2 * i + 1) - 0.5) * 0.5
    ensures (forall k :: 0.0 <= rand(k) < 1.0) ==>
      forall i :: 0 <= i < |data| ==>
        2975 <= data[i].rpm <= 3025 && 12.55 <= data[i].afr < 13.05
  {
    var rows: seq<Sample> := [];
    var calls := 0;
    var i := 0;
    while i <= 50
      invariant 0 <= i <= 51 && |rows| == i && calls == 2 * i
      invariant forall k :: 0 <= k < i ==> rows[k] == RichCruiseRow(rand, k)
    {
      var rpmDraw := rand(calls);
      calls := calls + 1;
      var afrDraw := rand(calls);
      calls := calls + 1;
      rows := rows + [Sample(0.1 * i as real, 3000 + Round((rpmDraw - 0.5) * 50.0), -8.5,
                             12.8 + (afrDraw - 0.5) * 0.5, 38.0, 15.0)];
      i := i + 1;
    }
    data := rows;
    csv := GenerateCsvString(rows, fixed);
  }

  /** High-RPM pull with injector duty climbing, row i of 0..80. */
  ghost function HighDutyRow(i: nat): Sample {
    Sample(i as real / 20.0, Round(5000.0 + 43.75 * i as real), 15.0, 11.5, 18.0,
           75.0 + 3.0 * i as real / 10.0)
  }

  method CreateHighDuty(fixed: Formatter) returns (csv: string, ghost data: seq<Sample>)
    ensures csv == GenerateCsvString(data, fixed)
    ensures |data| == 81
    ensures forall i :: 0 <= i < |data| ==> data[i] == HighDutyRow(i)
    ensures forall i, j :: 0 <= i < j < |data| ==> data[i].rpm < data[j].rpm
    ensures data[0].rpm == 5000 && data[80].rpm == 8500
    ensures data[0].duty == 75.0 && data[80].duty == 99.0
    ensures forall i :: 0 <= i < |data| ==>
      data[i].afr == 11.5 && data[i].ignition == 18.0 && data[i].mapPressure == 15.0
  {
    var rows: seq<Sample> := [];
    var i := 0;
    while i <= 80
      invariant 0 <= i <= 81 && |rows| == i
      invariant forall k :: 0 <= k < i ==> rows[k] == HighDutyRow(k)
    {
      var progress := i as real / 80.0;
      var rpm := 5000.0 + 3500.0 * progress;
      rows := rows + [Sample(4.0 * progress, Round(rpm), 15.0, 11.5, 18.0, 75.0 + 24.0 * progress)];
      i := i + 1;
    }
    data := rows;
    csv := GenerateCsvString(rows, fixed);
    forall i, j | 0 <= i < j < |data| ensures data[i].rpm < data[j].rpm {
      RoundStrictlyIncreasing(5000.0 + 43.75 * i as real, 5000.0 + 43.75 * j as real);
    }
  }

  /** Rounding preserves a gap of at least one. */
  lemma RoundStrictlyIncreasing(x: real, y: real)
    requires x + 1.0 <= y
    ensures Round(x) < Round(y)
  {
  }

  /** The unrounded engine speed of row i of the knock scenario. */
  function KnockRpm(i: nat): real {
    4000.0 + 2500.0 * (i as real / 60.0)
  }

  /** The knock-retard window (5400, 5800) holds exactly rows 34 to 43. */
  lemma KnockWindowRows(i: nat)
    ensures 5400.0 < KnockRpm(i) < 5800.0 <==> 34 <= i <= 43
  {
    if i <= 33 {
      assert KnockRpm(i) <= KnockRpm(33) < 5400.0;
    } else if i >= 44 {
      assert KnockRpm(i) >= KnockRpm(44) > 5800.0;
    }
  }

  /** A pull with ignition retarded by 6 degrees inside the knock window,
      row i of 0..60. */
  ghost function KnockRow(i: nat): Sample {
    Sample(i as real / 20.0, Round(4000.0 + 125.0 * i as real / 3.0), 12.0, 11.8,
           25.0 + i as real / 12.0 - (if 34 <= i <= 43 then 6.0 else 0.0),
           60.0 + i as real / 3.0)
  }

  method CreateKnockEvent(fixed: Formatter) returns (csv: string, ghost data: seq<Sample>)
    ensures csv == GenerateCsvString(data, fixed)
    ensures |data| == 61
    ensures forall i :: 0 <= i < |data| ==> data[i] == KnockRow(i)
    ensures forall i :: 0 <= i < |data| ==>
      data[i].ignition == (if 5400.0 < KnockRpm(i) < 5800.0 then 25.0 + 5.0 * (i as real / 60.0) - 6.0
                           else 25.0 + 5.0 * (i as real / 60.0))
    ensures forall i, j :: 0 <= i < j < |data| ==> data[i].rpm < data[j].rpm
    ensures data[0].rpm == 4000 && data[60].rpm == 6500
    ensures data[0].duty == 60.0 && data[60].duty == 80.0
  {
    var rows: seq<Sample> := [];
    var i := 0;
    while i <= 60
      invariant 0 <= i <= 61 && |rows| == i
      invariant forall k :: 0 <= k < i ==> rows[k] == KnockRow(k)
    {
      var progress := i as real / 60.0;
      var rpm := 4000.0 + 2500.0 * progress;
      var ignition := 25.0 + 5.0 * progress;
      if rpm > 5400.0 && rpm < 5800.0 {
        ignition := ignition - 6.0;
      }
      KnockWindowRows(i);
      rows := rows + [Sample(3.0 * progress, Round(rpm), 12.0, 11.8, ignition, 60.0 + 20.0 * progress)];
      i := i + 1;
    }
    data := rows;
    csv := GenerateCsvString(rows, fixed);
    forall i | 0 <= i < |data|
      ensures data[i].ignition == (if 5400.0 < KnockRpm(i) < 5800.0 then 25.0 + 5.0 * (i as real / 60.0) - 6.0
                                   else 25.0 + 5.0 * (i as real / 60.0))
    {
      KnockWindowRows(i);
    }
    forall i, j | 0 <= i < j < |data| ensures data[i].rpm < data[j].rpm {
      RoundStrictlyIncreasing(4000.0 + 125.0 * i as real / 3.0, 4000.0 + 125.0 * j as real / 3.0);
    }
  }

  // ---------------------------------------------------------------------
  // Dispatch (generateSimulatedDatalog)
  // ---------------------------------------------------------------------

  /** The scenario ids the simulator panel offers. */
  const OfferedScenarios: seq<string> := ["leanWot", "richCruise", "highDuty", "knock"]

  /** The number of samples each scenario produces; none for an id the
      dispatcher does not know. */
  function ScenarioRowCount(scenario: string): nat {
    if scenario == "leanWot" then 101
    else if scenario == "richCruise" then 51
    else if scenario == "highDuty" then 81
    else if scenario == "knock" then 61
    else 0
  }

  method GenerateSimulatedDatalog(scenario: string, rand: nat -> real, fixed: Formatter)
    returns (csv: string, ghost data: seq<Sample>)
    ensures csv == GenerateCsvString(data, fixed)
    ensures |data| == ScenarioRowCount(scenario)
    ensures scenario in OfferedScenarios <==> csv != CsvHeader
    ensures scenario == "leanWot" ==> forall i :: 0 <= i < |data| ==> data[i] == LeanWotRow(i)
    ensures scenario == "richCruise" ==> forall i :: 0 <= i < |data| ==> data[i] == RichCruiseRow(rand, i)
    ensures scenario == "richCruise" && (forall k :: 0.0 <= rand(k) < 1.0) ==>
      forall i :: 0 <= i < |data| ==> 2975 <= data[i].rpm <= 3025 && 12.55 <= data[i].afr < 13.05
    ensures scenario == "highDuty" ==> forall i :: 0 <= i < |data| ==> data[i] == HighDutyRow(i)
    ensures scenario == "knock" ==> forall i :: 0 <= i < |data| ==> data[i] == KnockRow(i)
    ensures Contains(csv, "RPM") && Contains(csv, "MAP")
    ensures FormatterClean(fixed) ==> |Split(csv, '\n')| == ScenarioRowCount(scenario) + 1
  {
    if scenario == "leanWot" {
      csv, data := CreateLeanWot(fixed);
    } else if scenario == "richCruise" {
      csv, data := CreateRichCruise(rand, fixed);
    } else if scenario == "highDuty" {
      csv, data := CreateHighDuty(fixed);
    } else if scenario == "knock" {
      csv, data := CreateKnockEvent(fixed);
    } else {
      csv, data := CsvHeader, [];
      assert csv == GenerateCsvString([], fixed);
    }
    OfferedScenariosHaveRows(scenario);
    CsvMentionsRequiredColumns(data, fixed);
    if FormatterClean(fixed) {
      CsvStringLines(data, fixed);
    }
  }

  /** The panel offers exactly the scenarios that produce samples. */
  lemma OfferedScenariosHaveRows(scenario: string)
    ensures scenario in OfferedScenarios <==> ScenarioRowCount(scenario) > 0
  {
  }
}
