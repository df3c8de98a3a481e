# Hondata AI tuning assistant — verified model of its core

The tuning assistant is a desktop application (React renderer plus an
Electron main process). It reads or simulates a Hondata datalog, asks an AI
model for fuel and ignition advice, and exports that advice as a change
log. This project models, in Dafny, the sequential logic under its user
interface and proves what that logic promises. The model covers:

- **The simulated datalog generator** (`simulation.dfy`). It has four fault
  scenarios, each a fixed-length sweep, serialised as CSV text: a header
  line, then one line per sample.
- **Datalog intake** (`intake.dfy`). This is the RPM/MAP substring guard
  and the filter that keeps the rows with a positive RPM.
- **The application component**, in its original (`app.dfy`) and revised
  (`app_fixed.dfy`) versions. A class holds the component's state, and each
  handler is a method that updates it.
- **The local-model client's text handling** (`local_ai.dfy`). This covers
  the prompt it builds and how a JSON object is recovered from a
  free-form reply.
- **The change-log exporter**, in its original (`tune_exporter.dfy`) and
  numbered (`tune_exporter_fixed.dfy`) versions. It includes the two file
  names and the export panel's `isExporting` bookkeeping.
- **The revised main process** (`main_fixed.dfy`). This covers the AI
  configuration record and its IPC handlers, the simulated analysis with
  its mock suggestions, the analysis prompt, and the start-up file check.
- **The original main process** (`main_engine.dfy`). This covers the local
  inference engine's model, context and session. It models how they are
  loaded, released and used, and how a failed prompt is recovered from.

`types.dfy` holds the shared data model. `text.dfy` holds the string
operations the source takes from JavaScript: `includes`, `indexOf`,
`lastIndexOf`, `split`, `join`, whitespace skipping and number printing.

Foreign code becomes a parameter of the operation that calls it, and its
results are taken as given:

- The CSV parser's report (its errors and its rows) is an argument.
- `Number.toFixed` is an arbitrary formatting function.
- `Math.random` is a function from the number of the call to a draw.
- The clock is the date string it would produce.
- File existence is a predicate.
- The outcome of each bridge call, engine constructor, prompt and download
  is a datatype.

Work that resumes after an `await` or in a file-reader callback is a
separate method. The environment calls that method later with the settled
result.

## Model

| member | source | states |
|---|---|---|
| Types.ProviderName | types_ts_fixed.ts:5 | The two providers travel as `cloud` and `local`, and each of those strings names exactly one provider. |
| Simulation.Round | services/simulationService.ts:20 | `Math.round` lands within half a unit of its argument: x − 0.5 < n ≤ x + 0.5. |
| Simulation.GenerateCsvString | services/simulationService.ts:5-10 | The document always begins with the header, and it is exactly the header when there are no rows. |
| Simulation.HeaderColumns | services/simulationService.ts:3 | The header splits on commas into the six column names in order, and it contains no line feed. `RPM` sits at offset 5 and `MAP` at offset 9. |
| Simulation.IntToStringClean | services/simulationService.ts:7 | The unformatted RPM field never contains a comma or a line feed. |
| Simulation.RowLineFields | services/simulationService.ts:7 | Assuming the formatter emits no comma and no line feed, a row line has no line feed and splits into its six fields in header order. |
| Simulation.CsvStringLines | services/simulationService.ts:5-10 | Under the same formatter assumption, the document splits on line feeds into the header followed by one line per row, in row order. That is rows + 1 lines with no trailing newline, and every row line splits into its six fields. |
| Simulation.CsvMentionsRequiredColumns | services/simulationService.ts:3-10 | Every serialised document contains `RPM` and `MAP`. |
| Simulation.CreateLeanWot | services/simulationService.ts:13-28 | The output is the serialisation of exactly 101 rows, row i being the sweep at progress i/100. RPM rises strictly from 2500 to 7500, AFR runs from 12.5 to 14.5, ignition from 20 to 15, duty from 40 to 85, and MAP is always 14.5. |
| Simulation.CreateRichCruise | services/simulationService.ts:31-44 | There are 51 rows. Time is 0.1·i, and MAP −8.5, ignition 38 and duty 15 are constant. RPM and AFR come from draws 2i and 2i+1. When every draw lies in [0,1), RPM ∈ [2975, 3025] and AFR ∈ [12.55, 13.05). |
| Simulation.CreateHighDuty | services/simulationService.ts:47-62 | There are 81 rows. RPM rises strictly from 5000 to 8500 and duty runs from 75 to 99. AFR 11.5, ignition 18 and MAP 15 are constant. |
| Simulation.KnockWindowRows | services/simulationService.ts:67-72 | The unrounded RPM lies strictly between 5400 and 5800 exactly for rows 34 to 43. |
| Simulation.CreateKnockEvent | services/simulationService.ts:65-85 | There are 61 rows. Ignition is 25 + 5·i/60, less 6 exactly inside the knock window. RPM rises strictly from 4000 to 6500 and duty runs from 60 to 80. |
| Simulation.GenerateSimulatedDatalog | services/simulationService.ts:88-101 | The row count is 101, 51, 81 or 61 by scenario, and 0 for any other string. Each scenario's rows are that generator's rows. For `richCruise` this means time 0.1·i, constant MAP, ignition and duty, RPM and AFR from draws 2i and 2i+1, and the RPM and AFR bounds when every draw lies in [0,1). The result differs from the bare header exactly for the four scenarios the simulator panel offers. It always contains `RPM` and `MAP`, and it has rows + 1 lines. |
| Intake.ValidRows | App.tsx:45 | A row is kept exactly when it is an input row with a positive RPM, and the result is never longer than the input. |
| Intake.ValidRowsConcat | App.tsx:45 | Filtering a concatenation filters each part and keeps the parts in order, so the filter preserves input order. |
| Intake.ValidRowsSingle | App.tsx:45 | A single row is kept exactly when its RPM passes. |
| Intake.ValidRowsIdempotent | App.tsx:45 | Filtering the filtered rows changes nothing. |
| Intake.ValidRowsKeepsAll | App.tsx:45 | The filter returns its input exactly when every row passes. |
| App.App.constructor | App.tsx:15-24 | Initial state: no files, empty content, `na`, empty setups, no suggestions, no rows, not loading, no error. |
| App.App.ProcessDatalogContent | App.tsx:26-50 | Content without `RPM` or `MAP` sets the fixed error and clears content and file, leaving the rows untouched. Accepted content is stored verbatim. A parse error sets `Error parsing CSV: ` plus the first message and empties the rows. A clean parse stores the filtered rows and leaves the error as it was. The invariant (stored content passed the guard, stored rows have positive RPM) is kept. |
| App.App.HandleDatalogFileChange | App.tsx:52-70 | Stores the file and clears suggestions, error and rows. No file also clears the content. A read starts exactly when a file was given. |
| App.App.OnReadError | App.tsx:63-65 | A failed read sets `Failed to read the file.` |
| App.App.HandleBaseMapFileChange | App.tsx:72-74 | Stores the base map file. |
| App.App.HandleGenerateSimulation | App.tsx:76-83 | Clears error, suggestions and both files. It stores the generated document, which is never empty and always passes the guard, as the content. Then it applies the parse result as intake does. |
| App.App.HandleAnalyze | App.tsx:85-95 | Empty content sets the upload-first error, sends no request, and leaves loading and suggestions alone. Otherwise it sends the request with the current content and settings, sets loading, and clears error and suggestions. |
| App.App.CompleteAnalysis | App.tsx:95-102 | Loading ends on every path. Success stores the suggestions. Failure sets the fixed retry message and leaves the suggestions as the start cleared them. |
| AppFixed.FailureMessage | app_tsx_fixed.ts:148 | `result.error` when it is non-empty, else `AI analysis failed`. Never empty. |
| AppFixed.AnalyzeGuard | app_tsx_fixed.ts:116-130 | The guards in order: empty content gives the upload-first message. With content, the cloud provider is blocked exactly when there is no key, and the local provider exactly when there is no model. Analysis may start exactly when no guard fires. |
| AppFixed.App.constructor | app_tsx_fixed.ts:14-35 | The same initial state as the original component, plus provider `cloud` and a configuration with no key, no model and provider `cloud`. |
| AppFixed.App.ProcessDatalogContent | app_tsx_fixed.ts:54-79 | As in the original, except that a clean parse also clears the error. |
| AppFixed.App.HandleDatalogFileChange | app_tsx_fixed.ts:81-100 | Stores the file and clears suggestions, error and rows. No file also clears the content. A read starts exactly when a file was given. |
| AppFixed.App.OnReadError | app_tsx_fixed.ts:93-95 | A failed read sets `Failed to read the file.` |
| AppFixed.App.HandleBaseMapFileChange | app_tsx_fixed.ts:102-104 | Stores the base map file. |
| AppFixed.App.HandleGenerateSimulation | app_tsx_fixed.ts:106-113 | Clears error, suggestions and both files, then processes the generated document. A clean parse leaves no error. |
| AppFixed.App.HandleAnalyze | app_tsx_fixed.ts:115-153 | A firing guard sets its own message and returns before loading starts. With no bridge, the desktop-only error is set and loading ends. Otherwise it sends the request with the current settings, sets loading, and clears error and suggestions. |
| AppFixed.App.CompleteAnalysis | app_tsx_fixed.ts:136-163 | Loading ends on every path. Success stores `result.suggestions`, and failure sets `FailureMessage(result.error)`. A rejection sets the error's message, or the unknown-error text when the rejected value is not an `Error`. |
| AppFixed.App.HandleAiProviderChange | app_tsx_fixed.ts:166-177 | The local provider always becomes the chosen one. The configuration is replaced only when the bridge returned one. |
| LocalAi.MatchJsonFence | services/localAiService.ts:54 | A match exists exactly when some opening fence is followed, anywhere later, by a closing fence. The match found is the leftmost one the regular expression reports. Whitespace after the opening fence and before the first closing fence is excluded from the capture. |
| LocalAi.FencedCapture | services/localAiService.ts:54-55 | The capture is a contiguous piece of the reply. When non-empty, it neither starts nor ends with whitespace. |
| LocalAi.ExtractOutermostBraces | services/localAiService.ts:60-67 | When some `{` precedes some `}`, the result runs from the first `{` through the last `}`, so it starts with `{` and ends with `}`. Otherwise it is the input unchanged. |
| LocalAi.BracesContained | services/localAiService.ts:60-67 | The brace step always returns a contiguous piece of its input. |
| LocalAi.ExtractOutermostBracesIdempotent | services/localAiService.ts:60-64 | Applying the brace step to its own result changes nothing. |
| LocalAi.ExtractJsonFromString | services/localAiService.ts:52-68 | The result is always a contiguous piece of the reply. A non-empty fenced capture wins, with its surrounding whitespace excluded. An empty or missing capture falls through to the brace step. |
| LocalAi.BuildPromptOpensWithEngineType | services/localAiService.ts:12-33 | The prompt opens with the instructions followed by the WOT goal line of its engine type: `Boosted (Forced Induction): 11.0-11.5` for boosted, `Naturally Aspirated: 12.8-13.2` otherwise. |
| LocalAi.BuildPromptNamesOnlyItsEngineType | services/localAiService.ts:12-33 | The prompt never opens with the goal line of the other engine type. |
| LocalAi.BuildPromptCarriesInputs | services/localAiService.ts:17-21 | The prompt contains the engine line with `Not specified.` for empty details. It also contains the turbo line with the boost-dependent default for an empty setup. |
| LocalAi.BuildPromptEndsWithDatalog | services/localAiService.ts:40-44 | The prompt ends with the datalog, verbatim, inside a csv code fence. |
| LocalAi.PromptShape | services/localAiService.ts:12-44 | For any fixed instruction text, the assembled prompt opens with a type's goal line exactly when it was built for that type. It carries both hardware lines and ends with the fenced datalog. |
| TuneExporter.EngineTypeLabel | components/TuneExporter.tsx:16 | `Naturally Aspirated` exactly for `na`, and `Boosted` exactly for boosted. |
| TuneExporter.AppendEntries | components/TuneExporter.tsx:26-33 | The `forEach` accumulation appends exactly the list's entries, in list order. |
| TuneExporter.AppendSection | components/TuneExporter.tsx:24-34 | Appends the header and the entries for a non-empty list, and nothing for an empty one. |
| TuneExporter.GenerateTuningFileContent | components/TuneExporter.tsx:13-55 | The step-by-step accumulation yields exactly the change-log layout: preamble, summary, then the fuel, ignition and observation sections. |
| TuneExporter.ChangeLogOpening | components/TuneExporter.tsx:14-17 | The log opens with the title, the Generated line, the Engine Type line and the Base Map line, with `Not provided` for an absent or empty name. |
| TuneExporter.SectionPresence | components/TuneExporter.tsx:24-25 | A section is written exactly when its list is non-empty, and it then starts with its header. |
| TuneExporter.ChangeLogKeepsEntries | components/TuneExporter.tsx:24-52 | Every fuel, ignition and observation entry of the suggestions appears in the log. |
| TuneExporter.EntriesConcat | components/TuneExporter.tsx:26-33 | The entries of a concatenation are the entries of each part in turn. |
| TuneExporter.EntryAt | components/TuneExporter.tsx:26-33 | Entry i sits right after the entries of the items before it. |
| TuneExporter.EntriesInListOrder | components/TuneExporter.tsx:26-33 | For i < j, entry i ends before entry j starts. |
| TuneExporter.StripSklSuffix | components/TuneExporter.tsx:84 | The result is a prefix of the name. It is exactly four characters shorter when the name ends in `.skl` in any letter case, and the whole name otherwise. |
| TuneExporter.StripSklSuffixOnce | components/TuneExporter.tsx:84 | Only one suffix goes: a name ending in `.skl.SKL` keeps its `.skl`. |
| TuneExporter.SklExportName | components/TuneExporter.tsx:84-85 | The modified-map name is the stripped base name plus `_AI_mod.skl`, so it always ends in `_AI_mod.skl`. |
| TuneExporter.SklExportNameStrips | components/TuneExporter.tsx:84-85 | Stripping the modified-map name gives the stripped base name plus `_AI_mod`. |
| TuneExporter.ChangeLogFileName | components/TuneExporter.tsx:67 | The change-log name starts with `Hondata_AI_Suggestions_` and ends with `.txt`. |
| TuneExporter.ChangeLogFileNameDate | components/TuneExporter.tsx:67 | For an ISO time stamp, the name carries exactly the date part before `T`. |
| TuneExporterFixed.AppendNumberedEntries | tune_exporter_fixed.ts:28-35 | The indexed `forEach` appends the entries numbered from 1, in list order. |
| TuneExporterFixed.AppendNumberedSection | tune_exporter_fixed.ts:26-36 | Appends the header and the numbered entries for a non-empty list, and nothing for an empty one. |
| TuneExporterFixed.GenerateTuningFileContent | tune_exporter_fixed.ts:11-57 | The accumulation yields exactly the numbered change-log layout. |
| TuneExporterFixed.ChangeLogOpening | tune_exporter_fixed.ts:16-19 | The numbered log opens exactly like the original one, with the same title, Generated, Engine Type and Base Map rules. |
| TuneExporterFixed.NumberedEntriesConcat | tune_exporter_fixed.ts:28-35 | Numbering continues across a concatenation: the second part is numbered on from where the first part stopped. |
| TuneExporterFixed.NumberedEntryAt | tune_exporter_fixed.ts:28-35 | Item i is written with number i + 1, right after the entries of the items before it. |
| TuneExporterFixed.NumberedSectionStartsAtOne | tune_exporter_fixed.ts:26-29 | A section is written exactly when its list is non-empty, and its numbering then restarts at 1. |
| TuneExporterFixed.NumberedEntriesOpenWithNumber | tune_exporter_fixed.ts:29-30 | Every fuel, ignition and observation entry opens with its number, a dot and a space, and number 1 prints as `1`. |
| TuneExporterFixed.ExportActions.constructor | tune_exporter_fixed.ts:59-64 | The panel starts not exporting, with no alerts, downloads or writes. |
| TuneExporterFixed.ExportActions.HandleDownloadTxt | tune_exporter_fixed.ts:66-98 | The file is the numbered log under `Hondata_AI_Suggestions_<date>.txt`. With the bridge, the save dialog is pending and the panel stays exporting. Without it, the file is downloaded and exporting ends. |
| TuneExporterFixed.ExportActions.FinishDownloadTxt | tune_exporter_fixed.ts:74-104 | Exporting ends on every path. A cancelled dialog or an empty path writes nothing, and a rejected dialog alerts the failure. Otherwise the log is written to the chosen path and the success or failure alert follows. |
| TuneExporterFixed.ExportActions.HandleDownloadSkl | tune_exporter_fixed.ts:107-121 | Without a base map nothing changes, not even `isExporting`. With one, the coming-soon alert is shown and exporting ends. |
| MainFixed.GenerateMockSuggestions | electron_js_fixed.js:246-278 | Exactly one fuel, one ignition and one observation entry, with current AFR `12.2`. The target AFR is `11.5` exactly for boosted and `13.0` exactly for `na`, and the ignition entry has no AFR. |
| MainFixed.BuildAnalysisPrompt | electron_js_fixed.js:231-244 | The prompt opens naming its engine type, and only that type. It carries the engine and turbo lines with `Not specified` for empty values, and it ends with the datalog followed by the closing request. |
| MainFixed.MissingFiles | electron_js_fixed.js:106 | A file is reported missing exactly when it is listed and does not exist. |
| Text.JoinContains | electron_js_fixed.js:109 | Joining with any separator, `, ` here, keeps every part in the text. |
| MainFixed.MissingFilesMessage | electron_js_fixed.js:109 | The message starts with `Missing required files: ` and names every missing file. |
| MainFixed.CheckRequiredFiles | electron_js_fixed.js:98-115 | Succeeds exactly when all four required files exist, and shows a dialog exactly when it fails. The dialog names a file that is missing. |
| MainFixed.MainProcess.constructor | electron_js_fixed.js:51-55 | No key, no model path, provider `cloud`. |
| MainFixed.MainProcess.GetAiConfig | electron_js_fixed.js:146-152 | `hasGeminiKey` exactly when the stored key is non-empty, and the provider is echoed. Since nothing ever sets a model path, `hasLocalModel` is always false. |
| MainFixed.MainProcess.SetGeminiKey | electron_js_fixed.js:154-162 | Succeeds exactly for a non-empty string and stores it verbatim. Otherwise it fails with `Invalid API key` and the key is unchanged. |
| MainFixed.MainProcess.SetAiProvider | electron_js_fixed.js:164-172 | Succeeds exactly for `cloud` or `local` and stores it. Otherwise it fails with `Invalid provider` and the provider is unchanged. |
| MainFixed.MainProcess.RunAiAnalysis | electron_js_fixed.js:175-229 | Success exactly when no error is reported, and success returns the mock suggestions for the engine type. For cloud, it succeeds exactly with a key, and otherwise reports `Gemini API key not configured`. The local branch reports `Local AI model not found`, and in every reachable state it always fails. |
| MainEngine.InferenceEngine.constructor | electron.js:60-64 | No window, no engine module, nothing loaded. |
| MainEngine.InferenceEngine.CleanupAIResources | electron.js:86-91 | Session, context and model are all released. |
| MainEngine.InferenceEngine.NewSession | electron.js:188 | A fresh session is built on the current context. |
| MainEngine.InferenceEngine.LoadModelAndCreateSession | electron.js:93-113 | Afterwards the three exist together or not at all. They exist exactly when the model file exists and all three constructors return. A failing constructor shows the initialisation dialog with its message. |
| MainEngine.InferenceEngine.InitializeApp | electron.js:116-134 | A failed engine import shows the fatal dialog, requests quit, and leaves the window and the engine as they were. Otherwise the window opens and the model is loaded as above, showing the load-failure dialog with the constructor's message exactly when the file exists and loading fails. |
| MainEngine.InferenceEngine.BeginDownloadModel | electron.js:156-161 | Without a window nothing happens. Without the engine module the error dialog is shown and nothing is downloaded. Otherwise the download starts. |
| MainEngine.InferenceEngine.FinishDownloadModel | electron.js:162-177 | A failed download shows its dialog and leaves the engine as it was. A finished download reloads, with the all-or-nothing outcome and the exact load-failure dialog. |
| MainEngine.InferenceEngine.AcquireSession | electron.js:181-193 | With no model or no context, it refuses with the not-loaded error and changes nothing. A missing session is created first, and a creation failure is reported without a prompt. |
| MainEngine.InferenceEngine.RunInference | electron.js:180-228 | The prompt is issued exactly when model and context exist and a session is at hand. An answer is returned as is. A failed prompt first tries a fresh session and reports the automatic reset. If that fails, it reloads everything and reports `reloaded` exactly when model and session exist afterwards, and `could not be recovered` otherwise. The reload shows the load-failure dialog with its message exactly when the file exists and loading fails. |
| MainEngine.InferenceEngine.Recover | electron.js:203-226 | The session is discarded, and then the two recovery tiers run as described for `RunInference`, with the same exact dialog. |
| MainEngine.CriticalMessagesDiffer | electron.js:221-225 | The `reloaded` and `could not be recovered` messages are never equal, whatever the error messages. |

## Left out

- Rendering, layout and every component that only displays state. This covers results, configuration, options, header, disclaimer, the simulator markup, the AI settings panel, the model manager and the ECU connector.
- The CSV tokeniser and `JSON.parse`/`JSON.stringify`. The parser's report is an input, and `run-inference` replies carry a structured error whose text is `ErrorText`, not the escaped JSON document.
- Intake.KeepRow: a cell the parser leaves as a string is always dropped. JavaScript would compare some such strings (for example one with surrounding spaces) numerically.
- Floating point. Channel values are exact reals, `Math.round` rounds the exact value, and `toFixed` is an arbitrary formatter. The row-level claims about the CSV text hold for any formatter that emits no comma or line feed.
- `Date`, `toLocaleString` and `toISOString`. They are the strings they return, passed in.
- Concurrency. Each asynchronous handler is split at its `await` into two methods that run atomically. Interleavings of several pending handlers, and React's batching of state updates, are not modelled.
- The renderer's start-up configuration probe (`useEffect`) and the form setters for engine type and setups.
- The web analysis service, the local-model client's IPC call `getTuningSuggestions`, the preload bridges and the Gemini/Ollama network calls.
- The `.skl` patching service, which is a pass-through stub, and the original exporter's `isModifying` flag and download plumbing. Only its file-name expressions are modelled.
- The delays of the simulated providers, the unused prompt built in `runCloudAnalysis`, logging, window creation, the `check-model-exists`, `select-file`, `save-file`, `write-file` and `get-app-info` handlers, and download progress.
- MainEngine.InferenceEngine.LoadModelAndCreateSession: only the state after the call is modelled. The intermediate states in which only the model, or the model and context, exist are not, because no other handler can observe them.
- MainEngine.InferenceEngine.Recover: an error thrown with a non-`Error` value is treated like one with a message. The `e.message` of such a value would be `undefined`.
- The engine objects are represented by identifiers. Their memory, context size and sampling options are not modelled.
- TuneExporterFixed.ExportActions.FinishDownloadTxt: the `write-file` reply is not inspected by the source, so a resolved write is reported as saved whatever it says. The model states exactly that.
- The exporter's line count (six, four and two labelled lines per entry) is fixed by the entry definitions and is not stated as a separate lemma.
