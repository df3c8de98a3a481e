/**
  The state of the revised application component: the original state plus
  the selected AI provider and the configuration the main process reported.
  As in the original component, each setter is an assignment, and what
  runs after an `await` is a separate method taking the foreign result.
*/
module AppFixed {
  import opened Types
  import opened Text
  import opened Intake
  import Simulation

  const NoDatalogMessage: string := "Please upload or generate a datalog file first."
  const NoGeminiKeyMessage: string := "Please configure your Gemini API key in the AI Settings section."
  const NoLocalModelMessage: string :=
    "Local AI model not available. Please use cloud provider or configure local model."
  const DesktopOnlyMessage: string := "This feature requires the desktop application."
  const AnalysisFailedMessage: string := "AI analysis failed"
  const UnknownErrorMessage: string := "An unknown error occurred during AI analysis."

  /** A value an awaited call rejected with: an `Error` and its message,
      or anything else. */
  datatype Rejection = ErrorObject(message: string) | OtherValue

  /** How the `runAiAnalysis` request settled. */
  datatype AnalysisOutcome = Responded(response: AnalysisResponse) | Rejected(reason: Rejection)

  /** How the bridge calls of a provider change ended: no bridge at all,
      a rejection somewhere along the way, or the configuration fetched
      after the change. */
  datatype ProviderChangeOutcome = NoBridge | BridgeFailed | ConfigFetched(config: AiConfigView)

  /** `result.error || 'AI analysis failed'` */
  function FailureMessage(error: Option<string>): (msg: string)
    ensures msg != ""
    ensures error.Some? && error.value != "" ==> msg == error.value
    ensures error.None? || error.value == "" ==> msg == AnalysisFailedMessage
  {
    if error.Some? && error.value != "" then error.value else AnalysisFailedMessage
  }

  /** The guard of `handleAnalyze`, checked in order: content first, then
      the cloud key, then the local model. `None` lets the analysis start. */
  function AnalyzeGuard(datalogContent: string, provider: AIProvider, config: AiConfigView): (blocked: Option<string>)
    ensures datalogContent == "" ==> blocked == Some(NoDatalogMessage)
    ensures datalogContent != "" && provider == Cloud ==>
      (blocked == Some(NoGeminiKeyMessage) <==> !config.hasGeminiKey)
    ensures datalogContent != "" && provider == Local ==>
      (blocked == Some(NoLocalModelMessage) <==> !config.hasLocalModel)
    ensures blocked == None <==>
      datalogContent != "" && (provider == Cloud ==> config.hasGeminiKey) && (provider == Local ==> config.hasLocalModel)
  {
    if datalogContent == "" then Some(NoDatalogMessage)
    else if provider == Cloud && !config.hasGeminiKey then Some(NoGeminiKeyMessage)
    else if provider == Local && !config.hasLocalModel then Some(NoLocalModelMessage)
    else None
  }

  class App {
    var datalogFile: Option<FileRef>
    var baseMapFile: Option<FileRef>
    var datalogContent: string
    var engineType: EngineType
    var engineSetup: string
    var turboSetup: string
    var tuningSuggestions: Option<TuningSuggestions>
    var datalogData: seq<DatalogRow>
    var isLoading: bool
    var error: Option<string>
    var aiProvider: AIProvider
    var aiConfig: AiConfigView

    /** What every handler preserves: stored content always passed the
        column guard, and every stored row has a positive RPM. */
    ghost predicate Valid()
      reads this
    {
      && (datalogContent == "" || HasRequiredColumns(datalogContent))
      && (forall row :: row in datalogData ==> KeepRow(row))
    }

    /** The initial values of the `useState` hooks. */
    constructor ()
      ensures Valid()
      ensures datalogFile == None && baseMapFile == None && datalogContent == ""
      ensures engineType == NaturallyAspirated && engineSetup == "" && turboSetup == ""
      ensures tuningSuggestions == None && datalogData == [] && !isLoading && error == None
      ensures aiProvider == Cloud && aiConfig == AiConfigView(false, false, "cloud")
    {
      datalogFile := None;
      baseMapFile := None;
      datalogContent := "";
      engineType := NaturallyAspirated;
      engineSetup := "";
      turboSetup := "";
      tuningSuggestions := None;
      datalogData := [];
      isLoading := false;
      error := None;
      aiProvider := Cloud;
      aiConfig := AiConfigView(false, false, "cloud");
    }

    /** `processDatalogContent`; unlike the original, a clean parse also
        clears the error. */
    method ProcessDatalogContent(content: string, parsed: ParseResult)
      requires Valid()
      modifies this`error, this`datalogContent, this`datalogFile, this`datalogData
      ensures Valid()
      ensures !HasRequiredColumns(content) ==>
        && error == Some(InvalidCsvMessage) && datalogContent == "" && datalogFile == None
        && datalogData == old(datalogData)
      ensures HasRequiredColumns(content) ==>
        && datalogContent == content && datalogFile == old(datalogFile)
        && (|parsed.errors| > 0 ==>
              error == Some(ParseErrorPrefix + parsed.errors[0].message) && datalogData == [])
        && (|parsed.errors| == 0 ==>
              error == None && datalogData == ValidRows(parsed.data))
    {
      if !HasRequiredColumns(content) {
        error := Some(InvalidCsvMessage);
        datalogContent := "";
        datalogFile := None;
        return;
      }
      datalogContent := content;
      if |parsed.errors| > 0 {
        error := Some(ParseErrorPrefix + parsed.errors[0].message);
        datalogData := [];
      } else {
        datalogData := ValidRows(parsed.data);
        error := None;
      }
    }

    /** `handleDatalogFileChange` up to the start of the file read; the
        reader continues with `ProcessDatalogContent` or `OnReadError`. */
    method HandleDatalogFileChange(file: Option<FileRef>) returns (readStarted: bool)
      requires Valid()
      modifies this`datalogFile, this`tuningSuggestions, this`error, this`datalogData, this`datalogContent
      ensures Valid()
      ensures readStarted <==> file.Some?
      ensures datalogFile == file && tuningSuggestions == None && error == None && datalogData == []
      ensures datalogContent == (if file.Some? then old(datalogContent) else "")
    {
      datalogFile := file;
      tuningSuggestions := None;
      error := None;
      datalogData := [];
      if file.Some? {
        readStarted := true;
      } else {
        datalogContent := "";
        readStarted := false;
      }
    }

    /** The file reader's `onerror` callback. */
    method OnReadError()
      requires Valid()
      modifies this`error
      ensures Valid()
      ensures error == Some(ReadFailedMessage)
    {
      error := Some(ReadFailedMessage);
    }

    /** `handleBaseMapFileChange` */
    method HandleBaseMapFileChange(file: Option<FileRef>)
      requires Valid()
      modifies this`baseMapFile
      ensures Valid()
      ensures baseMapFile == file
    {
      baseMapFile := file;
    }

    /** `handleGenerateSimulation`, with `Math.random`, `toFixed` and the
        parser's report on the generated document as parameters. */
    method HandleGenerateSimulation(scenario: string, rand: nat -> real, fixed: Simulation.Formatter, parsed: ParseResult)
      returns (csv: string, ghost rows: seq<Simulation.Sample>)
      requires Valid()
      modifies this`error, this`tuningSuggestions, this`datalogFile, this`baseMapFile, this`datalogContent, this`datalogData
      ensures Valid()
      ensures csv == Simulation.GenerateCsvString(rows, fixed)
      ensures |rows| == Simulation.ScenarioRowCount(scenario)
      ensures datalogContent == csv && csv != ""
      ensures datalogFile == None && baseMapFile == None && tuningSuggestions == None
      ensures |parsed.errors| > 0 ==>
        error == Some(ParseErrorPrefix + parsed.errors[0].message) && datalogData == []
      ensures |parsed.errors| == 0 ==> error == None && datalogData == ValidRows(parsed.data)
    {
      error := None;
      tuningSuggestions := None;
      datalogFile := None;
      baseMapFile := None;
      csv, rows := Simulation.GenerateSimulatedDatalog(scenario, rand, fixed);
      ProcessDatalogContent(csv, parsed);
    }

    /** `handleAnalyze` up to its `await`. `hasBridge` says whether the
        desktop bridge is present; the request is sent only when the guard
        lets the analysis start and the bridge exists. Without a bridge the
        handler finishes at once. */
    method HandleAnalyze(hasBridge: bool) returns (request: Option<AnalysisRequest>)
      requires Valid()
      modifies this`isLoading, this`error, this`tuningSuggestions
      ensures Valid()
      ensures AnalyzeGuard(datalogContent, aiProvider, aiConfig).Some? ==>
        && request == None && error == AnalyzeGuard(datalogContent, aiProvider, aiConfig)
        && isLoading == old(isLoading) && tuningSuggestions == old(tuningSuggestions)
      ensures AnalyzeGuard(datalogContent, aiProvider, aiConfig).None? && !hasBridge ==>
        request == None && error == Some(DesktopOnlyMessage) && !isLoading && tuningSuggestions == None
      ensures AnalyzeGuard(datalogContent, aiProvider, aiConfig).None? && hasBridge ==>
        && request == Some(AnalysisRequest(datalogContent, engineType, engineSetup, turboSetup))
        && isLoading && error == None && tuningSuggestions == None
    {
      var blocked := AnalyzeGuard(datalogContent, aiProvider, aiConfig);
      if blocked.Some? {
        error := blocked;
        return None;
      }
      isLoading := true;
      error := None;
      tuningSuggestions := None;
      if hasBridge {
        request := Some(AnalysisRequest(datalogContent, engineType, engineSetup, turboSetup));
      } else {
        error := Some(DesktopOnlyMessage);
        isLoading := false;
        request := None;
      }
    }

    /** The rest of `handleAnalyze` once the request settles. */
    method CompleteAnalysis(outcome: AnalysisOutcome)
      requires Valid()
      modifies this`isLoading, this`error, this`tuningSuggestions
      ensures Valid()
      ensures !isLoading
      ensures outcome.Responded? && outcome.response.success ==>
        tuningSuggestions == outcome.response.suggestions && error == old(error)
      ensures outcome.Responded? && !outcome.response.success ==>
        tuningSuggestions == old(tuningSuggestions) && error == Some(FailureMessage(outcome.response.error))
      ensures outcome.Rejected? ==>
        && tuningSuggestions == old(tuningSuggestions)
        && error == Some(if outcome.reason.ErrorObject? then outcome.reason.message else UnknownErrorMessage)
    {
      match outcome {
        case Responded(response) =>
          if response.success {
            tuningSuggestions := response.suggestions;
          } else {
            error := Some(FailureMessage(response.error));
          }
        case Rejected(reason) =>
          if reason.ErrorObject? {
            error := Some(reason.message);
          } else {
            error := Some(UnknownErrorMessage);
          }
      }
      isLoading := false;
    }

    /** `handleAiProviderChange`: the selection changes whatever the bridge
        does; the configuration is replaced only when it was fetched. */
    method HandleAiProviderChange(provider: AIProvider, outcome: ProviderChangeOutcome)
      requires Valid()
      modifies this`aiProvider, this`aiConfig
      ensures Valid()
      ensures aiProvider == provider
      ensures aiConfig == (if outcome.ConfigFetched? then outcome.config else old(aiConfig))
    {
      aiProvider := provider;
      if outcome.ConfigFetched? {
        aiConfig := outcome.config;
      }
    }
  }
}
