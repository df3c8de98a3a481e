/**
  The revised desktop main process: its AI configuration record and the
  request handlers that read and change it, the dispatch of an analysis
  request to the (simulated) cloud or local provider, the prompt it builds
  for the cloud provider, the mock suggestions both providers answer with,
  and the start-up check for the files the window needs.
*/
module MainFixed {
  import opened Types
  import opened Text

  // ---------------------------------------------------------------------
  // Values crossing the IPC boundary
  // ---------------------------------------------------------------------

  /** An argument as it arrives from the renderer: a string, or some other
      JavaScript value. */
  datatype JsValue = JsString(text: string) | NotAString

  /** The `{ success, error }` reply of the configuration handlers. */
  datatype IpcReply = Succeeded | Failed(error: string)

  const InvalidKeyMessage: string := "Invalid API key"
  const InvalidProviderMessage: string := "Invalid provider"
  const GeminiKeyMissingMessage: string := "Gemini API key not configured"
  const LocalModelMissingMessage: string := "Local AI model not found"

  /** The reply of a failed analysis. */
  function Failure(message: string): AnalysisResponse {
    AnalysisResponse(false, None, Some(message))
  }

  // ---------------------------------------------------------------------
  // Mock suggestions
  // ---------------------------------------------------------------------

  const BoostedSummary: string :=
    "Your boosted setup shows good overall health with minor tuning opportunities for optimization."
  const NaturallyAspiratedSummary: string :=
    "Your naturally aspirated setup is running well with some areas for fine-tuning."
  const MockCurrentAfr: string := "12.2"
  const BoostedTargetAfr: string := "11.5"
  const NaturallyAspiratedTargetAfr: string := "13.0"
  const BoostedFuelSuggestion: string := "Slightly richen mixture"
  const NaturallyAspiratedFuelSuggestion: string := "Lean out slightly for better efficiency"
  const BoostedFuelReason: string := "Current AFR is on the safe side but could use more fuel for power"
  const NaturallyAspiratedFuelReason: string := "Current AFR is slightly rich for NA application"

  /** `generateMockSuggestions`: one entry per list; the fuel entry's
      target and wording depend on whether the engine is boosted. */
  function GenerateMockSuggestions(e: EngineType): (s: TuningSuggestions)
    ensures |s.fuelAdjustments| == 1 && |s.ignitionAdjustments| == 1 && |s.otherObservations| == 1
    ensures s.fuelAdjustments[0].currentAFR == Some(MockCurrentAfr)
    ensures s.fuelAdjustments[0].targetAFR == Some(BoostedTargetAfr) <==> e == Boosted
    ensures s.fuelAdjustments[0].targetAFR == Some(NaturallyAspiratedTargetAfr) <==> e == NaturallyAspirated
    ensures s.ignitionAdjustments[0].currentAFR == None && s.ignitionAdjustments[0].targetAFR == None
    ensures s.summary != "" && s.fuelAdjustments[0].suggestion != ""
  {
    assert BoostedTargetAfr[1] != NaturallyAspiratedTargetAfr[1];
    var boosted := e.Boosted?;
    TuningSuggestions(
      if boosted then BoostedSummary else NaturallyAspiratedSummary,
      [Adjustment("3000-4500 RPM", "Wide Open Throttle",
                  if boosted then BoostedFuelSuggestion else NaturallyAspiratedFuelSuggestion,
                  if boosted then BoostedFuelReason else NaturallyAspiratedFuelReason,
                  Some(MockCurrentAfr),
                  Some(if boosted then BoostedTargetAfr else NaturallyAspiratedTargetAfr))],
      [Adjustment("4500-6500 RPM", "High Load", "Add 1-2 degrees timing",
                  "Conservative timing leaves power on the table", None, None)],
      [Observation("Injector duty cycle peaks at 75%", "Good headroom remaining, no immediate concerns")])
  }

  /** The reply of a provider that got as far as answering. */
  function MockReply(e: EngineType): AnalysisResponse {
    AnalysisResponse(true, Some(GenerateMockSuggestions(e)), None)
  }

  // ---------------------------------------------------------------------
  // The cloud prompt
  // ---------------------------------------------------------------------

  const AnalysisLead: string := "Analyze this "
  const NotSpecified: string := "Not specified"
  const PromptTail: string := "\n\nProvide tuning recommendations focusing on safety and performance."

  /** `x || 'Not specified'` on a string. */
  function OrNotSpecified(value: string): string {
    if value != "" then value else NotSpecified
  }

  /** The first line of the prompt and the line of four spaces under it. */
  function PromptOpening(e: EngineType): string {
    AnalysisLead + EngineTypeText(e) + " engine datalog:\n    \n"
  }

  function SetupLines(engineSetup: string, turboSetup: string): string {
    "Engine Setup: " + OrNotSpecified(engineSetup) + "\n" +
    "Turbo Setup: " + OrNotSpecified(turboSetup) + "\n"
  }

  /** `buildAnalysisPrompt`: the opening names the engine type, the setup
      lines follow with their defaults, and the datalog and the closing
      request end the prompt. */
  function BuildAnalysisPrompt(datalog: string, e: EngineType, engineSetup: string, turboSetup: string): (r: string)
    ensures StartsWith(r, PromptOpening(Boosted)) <==> e == Boosted
    ensures StartsWith(r, PromptOpening(NaturallyAspirated)) <==> e == NaturallyAspirated
    ensures Contains(r, "Engine Setup: " + (if engineSetup == "" then NotSpecified else engineSetup) + "\n")
    ensures Contains(r, "Turbo Setup: " + (if turboSetup == "" then NotSpecified else turboSetup) + "\n")
    ensures EndsWith(r, "\nDatalog Data:\n" + datalog + PromptTail)
  {
    var opening := PromptOpening(e);
    var engineLine := "Engine Setup: " + OrNotSpecified(engineSetup) + "\n";
    var turboLine := "Turbo Setup: " + OrNotSpecified(turboSetup) + "\n";
    var body := "\nDatalog Data:\n" + datalog + PromptTail;
    var r := opening + (engineLine + turboLine) + body;
    FramedPieces(opening, engineLine, turboLine, body);
    OpeningTells(r, e);
    r
  }

  /** The pieces of a prompt glued in order: the first opens it, the last
      ends it, and the middle two occur in it. */
  lemma FramedPieces(a: string, b: string, c: string, d: string)
    ensures StartsWith(a + (b + c) + d, a)
    ensures Contains(a + (b + c) + d, b) && Contains(a + (b + c) + d, c)
    ensures EndsWith(a + (b + c) + d, d)
  {
    var s := a + (b + c) + d;
    assert s[..|a|] == a;
    assert s[|a|..|a| + |b|] == b;
    assert s[|a| + |b|..|a| + |b| + |c|] == c;
    assert s[|s| - |d|..] == d;
    ContainsAt(s, b, |a|);
    ContainsAt(s, c, |a| + |b|);
  }

  /** The character after "Analyze this " names the engine type, so a
      prompt starts with one opening exactly when it was built for that
      engine type. */
  lemma OpeningTells(r: string, e: EngineType)
    requires StartsWith(r, PromptOpening(e))
    ensures StartsWith(r, PromptOpening(Boosted)) <==> e == Boosted
    ensures StartsWith(r, PromptOpening(NaturallyAspirated)) <==> e == NaturallyAspirated
  {
    var n := |AnalysisLead|;
    OpeningTypeChar(e);
    OpeningTypeChar(Boosted);
    OpeningTypeChar(NaturallyAspirated);
    assert r[n] == PromptOpening(e)[n];
  }

  lemma OpeningTypeChar(e: EngineType)
    ensures |PromptOpening(e)| > |AnalysisLead|
    ensures PromptOpening(e)[|AnalysisLead|] == (if e == Boosted then 'B' else 'N')
  {
    var opening := PromptOpening(e);
    assert opening == AnalysisLead + (EngineTypeText(e) + " engine datalog:\n    \n");
    assert opening[|AnalysisLead|] == EngineTypeText(e)[0];
  }

  // ---------------------------------------------------------------------
  // The start-up file check
  // ---------------------------------------------------------------------

  const RequiredFiles: seq<string> := ["index.html", "dist/bundle.js", "dist/tailwind.css", "preload.js"]
  const MissingFilesLead: string := "Missing required files: "
  const BuildHint: string := "\n\nPlease run \"npm run build\" first."

  /** The files of `files` the oracle says do not exist, in list order. */
  function MissingFiles(files: seq<string>, fileExists: string -> bool): (missing: seq<string>)
    ensures |missing| <= |files|
    ensures forall f :: f in missing <==> f in files && !fileExists(f)
  {
    if |files| == 0 then []
    else
      var last := files[|files| - 1];
      MissingFiles(files[..|files| - 1], fileExists) + (if fileExists(last) then [] else [last])
  }

  /** The text of the "Build Required" dialog. */
  function MissingFilesMessage(missing: seq<string>): (message: string)
    ensures StartsWith(message, MissingFilesLead)
    ensures forall i :: 0 <= i < |missing| ==> Contains(message, missing[i])
  {
    var joined := Join(missing, ", ");
    var message := MissingFilesLead + joined + BuildHint;
    assert message[..|MissingFilesLead|] == MissingFilesLead;
    forall i | 0 <= i < |missing| ensures Contains(message, missing[i]) {
      JoinContains(missing, ", ", i);
      var k :| 0 <= k <= |joined| - |missing[i]| && IsAt(joined, missing[i], k);
      assert message[|MissingFilesLead| + k..|MissingFilesLead| + k + |missing[i]|] == joined[k..k + |missing[i]|];
      ContainsAt(message, missing[i], |MissingFilesLead| + k);
    }
    message
  }

  /** `checkRequiredFiles`, with file existence as an oracle; the error
      dialog it shows when something is missing is returned as its text. */
  method CheckRequiredFiles(fileExists: string -> bool) returns (ok: bool, dialog: Option<string>)
    ensures ok <==> forall i :: 0 <= i < |RequiredFiles| ==> fileExists(RequiredFiles[i])
    ensures ok <==> dialog.None?
    ensures !ok ==> dialog == Some(MissingFilesMessage(MissingFiles(RequiredFiles, fileExists)))
    ensures !ok ==> exists i :: 0 <= i < |RequiredFiles| && !fileExists(RequiredFiles[i]) &&
                                Contains(dialog.value, RequiredFiles[i])
  {
    var missing := MissingFiles(RequiredFiles, fileExists);
    if |missing| > 0 {
      assert missing[0] in missing;
      var i :| 0 <= i < |RequiredFiles| && RequiredFiles[i] == missing[0];
      ok, dialog := false, Some(MissingFilesMessage(missing));
    } else {
      forall i | 0 <= i < |RequiredFiles| ensures fileExists(RequiredFiles[i]) {
        assert RequiredFiles[i] in RequiredFiles;
        assert RequiredFiles[i] !in missing;
      }
      ok, dialog := true, None;
    }
  }

  // ---------------------------------------------------------------------
  // The configuration record and its handlers
  // ---------------------------------------------------------------------

  /** The main process's `aiConfig` record. */
  class MainProcess {
    var geminiApiKey: Option<string>
    var localModelPath: Option<string>
    var currentProvider: string

    /** What the handlers keep: a stored key is never empty, the provider is
        one of the two names, and no handler ever sets a model path. */
    ghost predicate Valid()
      reads this
    {
      && (geminiApiKey.Some? ==> geminiApiKey.value != "")
      && (currentProvider == "cloud" || currentProvider == "local")
      && localModelPath == None
    }

    /** The record's initial value. */
    constructor ()
      ensures Valid()
      ensures geminiApiKey == None && localModelPath == None && currentProvider == "cloud"
    {
      geminiApiKey := None;
      localModelPath := None;
      currentProvider := "cloud";
    }

    predicate HasKey()
      reads this
    {
      geminiApiKey.Some? && geminiApiKey.value != ""
    }

    /** `!!aiConfig.localModelPath && fs.existsSync(...)` */
    predicate HasModel(fileExists: string -> bool)
      reads this
    {
      localModelPath.Some? && localModelPath.value != "" && fileExists(localModelPath.value)
    }

    /** The `get-ai-config` handler. Since no handler sets a model path, a
        valid record never reports a local model. */
    function GetAiConfig(fileExists: string -> bool): (view: AiConfigView)
      reads this
      ensures view.hasGeminiKey <==> geminiApiKey.Some? && geminiApiKey.value != ""
      ensures view.currentProvider == currentProvider
      ensures view.hasLocalModel ==> localModelPath.Some? && fileExists(localModelPath.value)
      ensures Valid() ==> !view.hasLocalModel
    {
      AiConfigView(HasKey(), HasModel(fileExists), currentProvider)
    }

    /** The `set-gemini-key` handler: a missing, empty or non-string key is
        refused and nothing changes; any other string is stored as given. */
    method SetGeminiKey(apiKey: JsValue) returns (reply: IpcReply)
      requires Valid()
      modifies this`geminiApiKey
      ensures Valid()
      ensures reply.Succeeded? <==> apiKey.JsString? && apiKey.text != ""
      ensures reply.Succeeded? ==> geminiApiKey == Some(apiKey.text)
      ensures reply.Failed? ==> reply.error == InvalidKeyMessage && geminiApiKey == old(geminiApiKey)
    {
      if apiKey.NotAString? || apiKey.text == "" {
        return Failed(InvalidKeyMessage);
      }
      geminiApiKey := Some(apiKey.text);
      reply := Succeeded;
    }

    /** The `set-ai-provider` handler: only the two provider names are
        accepted; anything else is refused and nothing changes. */
    method SetAiProvider(provider: JsValue) returns (reply: IpcReply)
      requires Valid()
      modifies this`currentProvider
      ensures Valid()
      ensures reply.Succeeded? <==> provider == JsString("cloud") || provider == JsString("local")
      ensures reply.Succeeded? ==> currentProvider == provider.text
      ensures reply.Failed? ==> reply.error == InvalidProviderMessage && currentProvider == old(currentProvider)
    {
      if provider != JsString("cloud") && provider != JsString("local") {
        return Failed(InvalidProviderMessage);
      }
      currentProvider := provider.text;
      reply := Succeeded;
    }

    /** The `run-ai-analysis` handler: the cloud provider needs a key, any
        other provider a model file; both simulated providers then answer
        with the mock suggestions for the engine type. */
    function RunAiAnalysis(request: AnalysisRequest, fileExists: string -> bool): (response: AnalysisResponse)
      reads this
      ensures response.success <==> response.error.None?
      ensures response.success ==> response.suggestions == Some(GenerateMockSuggestions(request.engineType))
      ensures currentProvider == "cloud" ==>
        (response.success <==> geminiApiKey.Some? && geminiApiKey.value != "")
      ensures currentProvider == "cloud" && !response.success ==> response.error == Some(GeminiKeyMissingMessage)
      ensures currentProvider != "cloud" && !response.success ==> response.error == Some(LocalModelMissingMessage)
      ensures Valid() ==> (response.success <==> currentProvider == "cloud" && geminiApiKey.Some?)
    {
      if currentProvider == "cloud" then
        if !HasKey() then Failure(GeminiKeyMissingMessage) else MockReply(request.engineType)
      else
        if !HasModel(fileExists) then Failure(LocalModelMissingMessage) else MockReply(request.engineType)
    }
  }
}
