/**
  The shared data model of the tuning assistant: engine type, AI provider,
  the tuning suggestions an analysis returns, and one parsed datalog row.
*/
module Types {

  datatype Option<T> = None | Some(value: T)

  /** `'na' | 'boosted'` */
  datatype EngineType = NaturallyAspirated | Boosted

  /** `'cloud' | 'local'` */
  datatype AIProvider = Cloud | Local

  /** The string a provider travels as over IPC. */
  function ProviderName(p: AIProvider): (name: string)
    ensures name == "cloud" <==> p == Cloud
    ensures name == "local" <==> p == Local
  {
    match p
    case Cloud => "cloud"
    case Local => "local"
  }

  /** The engine-type wording shared by both prompt builders. */
  function EngineTypeText(e: EngineType): string {
    if e == Boosted then "Boosted (Forced Induction)" else "Naturally Aspirated"
  }

  /** One fuel or ignition adjustment; the two AFR fields are optional and
      only fuel adjustments carry them. */
  datatype Adjustment = Adjustment(
    rpmRange: string,
    loadCondition: string,
    suggestion: string,
    reason: string,
    currentAFR: Option<string>,
    targetAFR: Option<string>)

  datatype Observation = Observation(observation: string, recommendation: string)

  datatype TuningSuggestions = TuningSuggestions(
    summary: string,
    fuelAdjustments: seq<Adjustment>,
    ignitionAdjustments: seq<Adjustment>,
    otherObservations: seq<Observation>)

  /** A cell of a parsed row, as the CSV parser with dynamic typing yields
      it: a number, a boolean, a string it could not type, `null` for an
      empty field, or no value at all for a column the line lacks. */
  datatype Cell = Num(x: real) | Bool(b: bool) | Str(t: string) | Null | Undefined

  /** A datalog row: an open-ended mapping from channel name to cell. */
  datatype DatalogRow = DatalogRow(cells: map<string, Cell>) {
    function Channel(name: string): Cell {
      if name in cells then cells[name] else Undefined
    }
  }

  /** A file the user picked; only its name matters to the model. */
  datatype FileRef = FileRef(name: string)

  /** The arguments of an analysis request. */
  datatype AnalysisRequest = AnalysisRequest(
    datalog: string,
    engineType: EngineType,
    engineSetup: string,
    turboSetup: string)

  /** What the main process reports about its AI configuration. */
  datatype AiConfigView = AiConfigView(hasGeminiKey: bool, hasLocalModel: bool, currentProvider: string)

  /** The reply of the `run-ai-analysis` request. */
  datatype AnalysisResponse = AnalysisResponse(
    success: bool,
    suggestions: Option<TuningSuggestions>,
    error: Option<string>)
}
