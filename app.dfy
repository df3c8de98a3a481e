/**
  The state of the original application component and its handlers. Each
  React setter becomes an assignment to a field; a handler's setters run in
  order, so the state after the handler is the state after its last
  assignment. Work that resumes after an asynchronous step (the file
  reader's callbacks, the awaited analysis) is a separate method that the
  environment calls later, with the foreign result as its argument.
*/
module App {
  import opened Types
  import opened Text
  import opened Intake
  import Simulation

  const NoDatalogMessage: string := "Please upload or generate a datalog file first."
  const AnalysisFailedMessage: string :=
    "Failed to get tuning suggestions. The AI model may be overloaded or an error occurred. Please try again."

  class App {
    var datalogFile: Option<FileRef>
    var baseMapFile: Option<FileRef>
    var datalogContent: string
    var engineType: EngineType
    var engineSetup: string
    var turboSetup: string
    var tuningSuggestions: Option<TuningSuggestions>
    var datalogData: seq<DatalogRow>
    var isLoading: bool
    var error: Option<string>

    /** What every handler preserves: stored content always passed the
        column guard, and every stored row has a positive RPM. */
    ghost predicate Valid()
      reads this
    {
      && (datalogContent == "" || HasRequiredColumns(datalogContent))
      && (forall row :: row in datalogData ==> KeepRow(row))
    }

    /** The initial values of the `useState` hooks. */
    constructor ()
      ensures Valid()
      ensures datalogFile == None && baseMapFile == None && datalogContent == ""
      ensures engineType == NaturallyAspirated && engineSetup == "" && turboSetup == ""
      ensures tuningSuggestions == None && datalogData == [] && !isLoading && error == None
    {
      datalogFile := None;
      baseMapFile := None;
      datalogContent := "";
      engineType := NaturallyAspirated;
      engineSetup := "";
      turboSetup := "";
      tuningSuggestions := None;
      datalogData := [];
      isLoading := false;
      error := None;
    }

    /** `processDatalogContent`, with the parser's report for `content`
        passed in as `parsed`. */
    method ProcessDatalogContent(content: string, parsed: ParseResult)
      requires Valid()
      modifies this`error, this`datalogContent, this`datalogFile, this`datalogData
      ensures Valid()
      ensures !HasRequiredColumns(content) ==>
        && error == Some(InvalidCsvMessage) && datalogContent == "" && datalogFile == None
        && datalogData == old(datalogData)
      ensures HasRequiredColumns(content) ==>
        && datalogContent == content && datalogFile == old(datalogFile)
        && (|parsed.errors| > 0 ==>
              error == Some(ParseErrorPrefix + parsed.errors[0].message) && datalogData == [])
        && (|parsed.errors| == 0 ==>
              error == old(error) && datalogData == ValidRows(parsed.data))
    {
      if !HasRequiredColumns(content) {
        error := Some(InvalidCsvMessage);
        datalogContent := "";
        datalogFile := None;
        return;
      }
      datalogContent := content;
      if |parsed.errors| > 0 {
        error := Some(ParseErrorPrefix + parsed.errors[0].message);
        datalogData := [];
      } else {
        datalogData := ValidRows(parsed.data);
      }
    }

    /** `handleDatalogFileChange`, up to the point where the file reader
        starts; `readStarted` says whether it does. The reader's `onload`
        continues with `ProcessDatalogContent`, its `onerror` with
        `OnReadError`. */
    method HandleDatalogFileChange(file: Option<FileRef>) returns (readStarted: bool)
      requires Valid()
      modifies this`datalogFile, this`tuningSuggestions, this`error, this`datalogData, this`datalogContent
      ensures Valid()
      ensures readStarted <==> file.Some?
      ensures datalogFile == file && tuningSuggestions == None && error == None && datalogData == []
      ensures datalogContent == (if file.Some? then old(datalogContent) else "")
    {
      datalogFile := file;
      tuningSuggestions := None;
      error := None;
      datalogData := [];
      if file.Some? {
        readStarted := true;
      } else {
        datalogContent := "";
        readStarted := false;
      }
    }

    /** The file reader's `onerror` callback. */
    method OnReadError()
      requires Valid()
      modifies this`error
      ensures Valid()
      ensures error == Some(ReadFailedMessage)
    {
      error := Some(ReadFailedMessage);
    }

    /** `handleBaseMapFileChange` */
    method HandleBaseMapFileChange(file: Option<FileRef>)
      requires Valid()
      modifies this`baseMapFile
      ensures Valid()
      ensures baseMapFile == file
    {
      baseMapFile := file;
    }

    /** `handleGenerateSimulation`: `rand` and `fixed` stand for
        `Math.random` and `toFixed`, and `parsed` for the parser's report
        on the generated document `csv`. A generated document always
        passes the column guard, so it is always stored. */
    method HandleGenerateSimulation(scenario: string, rand: nat -> real, fixed: Simulation.Formatter, parsed: ParseResult)
      returns (csv: string, ghost rows: seq<Simulation.Sample>)
      requires Valid()
      modifies this`error, this`tuningSuggestions, this`datalogFile, this`baseMapFile, this`datalogContent, this`datalogData
      ensures Valid()
      ensures csv == Simulation.GenerateCsvString(rows, fixed)
      ensures |rows| == Simulation.ScenarioRowCount(scenario)
      ensures datalogContent == csv && csv != ""
      ensures datalogFile == None && baseMapFile == None && tuningSuggestions == None
      ensures |parsed.errors| > 0 ==>
        error == Some(ParseErrorPrefix + parsed.errors[0].message) && datalogData == []
      ensures |parsed.errors| == 0 ==> error == None && datalogData == ValidRows(parsed.data)
    {
      error := None;
      tuningSuggestions := None;
      datalogFile := None;
      baseMapFile := None;
      csv, rows := Simulation.GenerateSimulatedDatalog(scenario, rand, fixed);
      ProcessDatalogContent(csv, parsed);
    }

    /** `handleAnalyze` up to its `await`: the guard, then the loading
        state and the request it sends, if any. */
    method HandleAnalyze() returns (request: Option<AnalysisRequest>)
      requires Valid()
      modifies this`isLoading, this`error, this`tuningSuggestions
      ensures Valid()
      ensures old(datalogContent) == "" ==>
        request == None && error == Some(NoDatalogMessage) &&
        isLoading == old(isLoading) && tuningSuggestions == old(tuningSuggestions)
      ensures old(datalogContent) != "" ==>
        request == Some(AnalysisRequest(datalogContent, engineType, engineSetup, turboSetup)) &&
        isLoading && error == None && tuningSuggestions == None
    {
      if datalogContent == "" {
        error := Some(NoDatalogMessage);
        return None;
      }
      isLoading := true;
      error := None;
      tuningSuggestions := None;
      request := Some(AnalysisRequest(datalogContent, engineType, engineSetup, turboSetup));
    }

    /** The rest of `handleAnalyze` once the request settles: `reply` is
        the suggestions it resolved with, or `None` when it rejected. */
    method CompleteAnalysis(reply: Option<TuningSuggestions>)
      requires Valid()
      modifies this`isLoading, this`error, this`tuningSuggestions
      ensures Valid()
      ensures !isLoading
      ensures reply.Some? ==> tuningSuggestions == reply && error == old(error)
      ensures reply.None? ==> tuningSuggestions == old(tuningSuggestions) && error == Some(AnalysisFailedMessage)
    {
      if reply.Some? {
        tuningSuggestions := reply;
      } else {
        error := Some(AnalysisFailedMessage);
      }
      isLoading := false;
    }
  }
}
