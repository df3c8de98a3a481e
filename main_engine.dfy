/**
  The original desktop main process and its local inference engine: the
  model, the context built on the model and the chat session built on the
  context, how they are loaded and released, how a prompt is answered and
  how a failed prompt is recovered from (first a new session, then a full
  reload). The engine's constructors and `session.prompt` are foreign, so
  whether each of them succeeds is an input to the methods.
*/
module MainEngine {
  import opened Types

  /** Handles to the three engine objects; each context remembers the model
      it was built on and each session the context it was built on. */
  datatype Model = Model(id: nat)
  datatype Context = Context(id: nat, model: nat)
  datatype Session = Session(id: nat, context: nat)

  /** How the three constructors of a full load went: one of them threw
      with a message, or all three returned. */
  datatype LoadOutcome = ModelFailed(message: string) | ContextFailed(message: string)
                       | SessionFailed(message: string) | Loaded

  /** How one `new LlamaChatSession(...)` went. */
  datatype SessionOutcome = SessionCreated | SessionThrew(message: string)

  /** How the awaited `session.prompt(...)` settled. */
  datatype PromptOutcome = Answered(text: string) | PromptThrew(message: string)

  /** How the awaited model download settled. */
  datatype DownloadOutcome = Downloaded | DownloadThrew(message: string)

  /** How the dynamic import of the engine module settled. */
  datatype ImportOutcome = Imported | ImportThrew(message: string)

  /** The errors `run-inference` reports; `ErrorText` gives the message
      each one carries. */
  datatype InferenceError = NotLoaded | SessionCreateFailed(message: string) | SessionReset(message: string)
                          | EngineReloaded(message: string) | EngineUnrecovered(message: string)

  /** The reply of `run-inference`: the model's text, or an `{ error }`
      object, which is sent as JSON text. */
  datatype Reply = Answer(text: string) | ErrorJson(error: InferenceError)

  /** What `download-model` does before its `await`. */
  datatype DownloadStart = NoWindow | EngineNotInitialized(dialog: string) | Downloading

  const NotLoadedMessage: string :=
    "AI model is not loaded or the context is not initialized. Please download the model or restart the application."
  const EngineMissingMessage: string := "AI engine is not initialized. Cannot download model."
  const CriticalLead: string := "A critical error occurred"

  function LoadFailedDialog(message: string): string {
    "Failed to initialize the AI model. The analysis feature will be disabled. Please restart the app. Error: " + message
  }

  function StartupFailedDialog(message: string): string {
    "Failed to initialize the AI engine. The application cannot start. Error: " + message
  }

  function DownloadFailedDialog(message: string): string {
    "Failed to download the AI model. Please check your internet connection and try again. Error: " + message
  }

  function SessionCreateFailedMessage(message: string): string {
    "Failed to create an AI session: " + message + ". Please restart the application."
  }

  function SessionResetMessage(message: string): string {
    "An error occurred during AI analysis: " + message + ". The AI session was automatically reset. Please try again."
  }

  const ReloadedMiddle: string := " during analysis: "
  const ReloadedTail: string := ". The entire AI engine has been reloaded. Please try your request again."
  const UnrecoveredMiddle: string := ": "
  const UnrecoveredTail: string := ", and the AI engine could not be recovered. Please restart the application."

  function ReloadedMessage(message: string): string {
    CriticalLead + ReloadedMiddle + message + ReloadedTail
  }

  function UnrecoveredMessage(message: string): string {
    CriticalLead + UnrecoveredMiddle + message + UnrecoveredTail
  }

  function ErrorText(e: InferenceError): string {
    match e
    case NotLoaded => NotLoadedMessage
    case SessionCreateFailed(m) => SessionCreateFailedMessage(m)
    case SessionReset(m) => SessionResetMessage(m)
    case EngineReloaded(m) => ReloadedMessage(m)
    case EngineUnrecovered(m) => UnrecoveredMessage(m)
  }

  /** The two last-resort replies can always be told apart: the character
      after "A critical error occurred" differs. */
  lemma CriticalMessagesDiffer(m: string, n: string)
    ensures ErrorText(EngineReloaded(m)) != ErrorText(EngineUnrecovered(n))
  {
    FirstOfSecond(CriticalLead, ReloadedMiddle, m, ReloadedTail);
    FirstOfSecond(CriticalLead, UnrecoveredMiddle, n, UnrecoveredTail);
    assert ReloadedMiddle[0] == ' ';
    assert UnrecoveredMiddle[0] == ':';
  }

  /** In four pieces glued together, the second one starts right after
      the first. */
  lemma FirstOfSecond(a: string, b: string, c: string, d: string)
    requires |b| > 0
    ensures (a + b + c + d)[|a|] == b[0]
  {
  }

  class InferenceEngine {
    var hasWindow: bool
    var engineLoaded: bool
    var quitRequested: bool
    var model: Option<Model>
    var context: Option<Context>
    var session: Option<Session>
    /** The next unused handle number; every handle handed out is below it. */
    var nextId: nat

    /** The shape every handler keeps: a model exists exactly when a
        context does, a session only on a context, and each object is
        built on the one beneath it. */
    ghost predicate Valid()
      reads this
    {
      && (model.None? <==> context.None?)
      && (session.Some? ==> context.Some?)
      && (context.Some? ==> context.value.model == model.value.id && context.value.id < nextId)
      && (model.Some? ==> model.value.id < nextId)
      && (session.Some? ==> session.value.context == context.value.id && session.value.id < nextId)
    }

    predicate AllLoaded()
      reads this
    {
      model.Some? && context.Some? && session.Some?
    }

    predicate NoneLoaded()
      reads this
    {
      model.None? && context.None? && session.None?
    }

    /** The module-level variables before start-up. */
    constructor ()
      ensures Valid() && NoneLoaded()
      ensures !hasWindow && !engineLoaded && !quitRequested
    {
      hasWindow := false;
      engineLoaded := false;
      quitRequested := false;
      model := None;
      context := None;
      session := None;
      nextId := 0;
    }

    /** `cleanupAIResources` */
    method CleanupAIResources()
      modifies this`model, this`context, this`session
      ensures Valid() && NoneLoaded()
    {
      session := None;
      context := None;
      model := None;
    }

    /** A fresh session on the current context. */
    method NewSession()
      requires Valid() && context.Some?
      modifies this`session, this`nextId
      ensures Valid()
      ensures session == Some(Session(old(nextId), context.value.id)) && nextId == old(nextId) + 1
    {
      session := Some(Session(nextId, context.value.id));
      nextId := nextId + 1;
    }

    /** `loadModelAndCreateSession`: everything is released first; with the
        model file present the three objects are built in order, and if any
        constructor throws, an error dialog is shown and everything is
        released again. So afterwards the three exist together or not at
        all. */
    method LoadModelAndCreateSession(modelFileExists: bool, outcome: LoadOutcome) returns (dialog: Option<string>)
      requires Valid()
      modifies this`model, this`context, this`session, this`nextId
      ensures Valid()
      ensures AllLoaded() || NoneLoaded()
      ensures AllLoaded() <==> modelFileExists && outcome.Loaded?
      ensures !modelFileExists ==> dialog == None
      ensures modelFileExists && outcome.Loaded? ==> dialog == None
      ensures modelFileExists && !outcome.Loaded? ==> dialog == Some(LoadFailedDialog(outcome.message))
      ensures AllLoaded() ==> old(nextId) <= model.value.id && old(nextId) <= context.value.id &&
                              old(nextId) <= session.value.id
    {
      CleanupAIResources();
      if !modelFileExists {
        return None;
      }
      if !outcome.Loaded? {
        // Whichever constructor threw, what it had built is released.
        return Some(LoadFailedDialog(outcome.message));
      }
      model := Some(Model(nextId));
      context := Some(Context(nextId + 1, nextId));
      session := Some(Session(nextId + 2, nextId + 1));
      nextId := nextId + 3;
      dialog := None;
    }

    /** `initializeApp`: without the engine module the app shows an error
        and quits; otherwise it opens the window and loads the model. */
    method InitializeApp(engineImport: ImportOutcome, modelFileExists: bool, load: LoadOutcome)
      returns (dialog: Option<string>)
      requires Valid()
      modifies this
      ensures Valid()
      ensures engineImport.ImportThrew? ==>
        && dialog == Some(StartupFailedDialog(engineImport.message)) && quitRequested
        && hasWindow == old(hasWindow) && engineLoaded == old(engineLoaded)
        && model == old(model) && context == old(context) && session == old(session)
      ensures engineImport.Imported? ==>
        && hasWindow && engineLoaded && quitRequested == old(quitRequested)
        && (AllLoaded() <==> modelFileExists && load.Loaded?)
        && (AllLoaded() || NoneLoaded())
        && dialog == (if modelFileExists && !load.Loaded? then Some(LoadFailedDialog(load.message)) else None)
    {
      if engineImport.ImportThrew? {
        quitRequested := true;
        return Some(StartupFailedDialog(engineImport.message));
      }
      engineLoaded := true;
      hasWindow := true;
      dialog := LoadModelAndCreateSession(modelFileExists, load);
    }

    /** `download-model` up to its `await`: nothing happens without a
        window, and without the engine module an error dialog is shown and
        no download starts. */
    method BeginDownloadModel() returns (start: DownloadStart)
      ensures start == NoWindow <==> !hasWindow
      ensures start.EngineNotInitialized? <==> hasWindow && !engineLoaded
      ensures start.EngineNotInitialized? ==> start.dialog == EngineMissingMessage
      ensures start == Downloading <==> hasWindow && engineLoaded
    {
      if !hasWindow {
        return NoWindow;
      }
      if !engineLoaded {
        return EngineNotInitialized(EngineMissingMessage);
      }
      start := Downloading;
    }

    /** The rest of `download-model`: a finished download is followed by a
        full load; a failed one only shows an error dialog. */
    method FinishDownloadModel(download: DownloadOutcome, modelFileExists: bool, load: LoadOutcome)
      returns (dialog: Option<string>)
      requires Valid()
      modifies this`model, this`context, this`session, this`nextId
      ensures Valid()
      ensures download.DownloadThrew? ==>
        && dialog == Some(DownloadFailedDialog(download.message))
        && model == old(model) && context == old(context) && session == old(session)
      ensures download.Downloaded? ==>
        && (AllLoaded() || NoneLoaded())
        && (AllLoaded() <==> modelFileExists && load.Loaded?)
        && dialog == (if modelFileExists && !load.Loaded? then Some(LoadFailedDialog(load.message)) else None)
    {
      if download.DownloadThrew? {
        return Some(DownloadFailedDialog(download.message));
      }
      dialog := LoadModelAndCreateSession(modelFileExists, load);
    }

    /** The start of `run-inference`: with nothing loaded the request is
        refused; a missing session is created, and if that throws the
        request is refused too. `None` means a session is ready. */
    method AcquireSession(create: SessionOutcome) returns (refusal: Option<Reply>)
      requires Valid()
      modifies this`session, this`nextId
      ensures Valid()
      ensures refusal.None? <==> model.Some? && context.Some? && (old(session).Some? || create.SessionCreated?)
      ensures refusal.None? ==> session.Some? && (old(session).Some? ==> session == old(session))
      ensures model.None? || context.None? ==> refusal == Some(ErrorJson(NotLoaded)) && session == old(session)
      ensures model.Some? && context.Some? && old(session).None? && create.SessionThrew? ==>
        refusal == Some(ErrorJson(SessionCreateFailed(create.message))) && session == None
    {
      if model.None? || context.None? {
        return Some(ErrorJson(NotLoaded));
      }
      if session.None? {
        if create.SessionThrew? {
          return Some(ErrorJson(SessionCreateFailed(create.message)));
        }
        NewSession();
      }
      refusal := None;
    }

    /** The `run-inference` handler. `create` is how creating a missing
        session goes, `answer` how the prompt settles, `reset` how the
        first-tier session reset goes, and `modelFileExists` and `reload`
        how the second-tier full reload goes; `prompted` says whether the
        prompt was issued at all. */
    method RunInference(create: SessionOutcome, answer: PromptOutcome, reset: SessionOutcome,
                        modelFileExists: bool, reload: LoadOutcome)
      returns (reply: Reply, prompted: bool, dialog: Option<string>)
      requires Valid()
      modifies this`model, this`context, this`session, this`nextId
      ensures Valid()
      // Nothing loaded: refuse, and change nothing.
      ensures old(model).None? || old(context).None? ==>
        && reply == ErrorJson(NotLoaded) && !prompted && dialog == None
        && model == old(model) && context == old(context) && session == old(session)
      // A missing session that cannot be created: report it, no prompt.
      ensures old(model).Some? && old(context).Some? && old(session).None? && create.SessionThrew? ==>
        && reply == ErrorJson(SessionCreateFailed(create.message)) && !prompted && dialog == None
        && model == old(model) && context == old(context) && session == None
      // Otherwise the prompt is issued on a session.
      ensures prompted <==>
        old(model).Some? && old(context).Some? && (old(session).Some? || create.SessionCreated?)
      ensures prompted && answer.Answered? ==>
        && reply == Answer(answer.text) && dialog == None
        && model == old(model) && context == old(context) && session.Some?
        && (old(session).Some? ==> session == old(session))
      // Tier 1: a fresh session on the same context.
      ensures prompted && answer.PromptThrew? && reset.SessionCreated? ==>
        && reply == ErrorJson(SessionReset(answer.message)) && dialog == None
        && model == old(model) && context == old(context) && session.Some?
        && session != old(session)
      // Tier 2: a full reload; the reply says whether it worked.
      ensures prompted && answer.PromptThrew? && reset.SessionThrew? ==>
        && (AllLoaded() || NoneLoaded())
        && (AllLoaded() <==> modelFileExists && reload.Loaded?)
        && (reply == ErrorJson(EngineReloaded(answer.message)) <==> model.Some? && session.Some?)
        && (reply == ErrorJson(EngineUnrecovered(answer.message)) <==> !(model.Some? && session.Some?))
        && dialog == (if modelFileExists && !reload.Loaded? then Some(LoadFailedDialog(reload.message)) else None)
    {
      dialog := None;
      var refusal := AcquireSession(create);
      prompted := refusal.None?;
      if refusal.Some? {
        return refusal.value, prompted, dialog;
      }
      match answer {
        case Answered(text) =>
          reply := Answer(text);
        case PromptThrew(message) =>
          reply, dialog := Recover(message, reset, modelFileExists, reload);
      }
    }

    /** The `catch` of `run-inference`: the failed session is dropped; a
        fresh one on the same context is tier 1, and when that throws too, a
        full reload is tier 2, whose reply says whether the engine came back. */
    method Recover(message: string, reset: SessionOutcome, modelFileExists: bool, reload: LoadOutcome)
      returns (reply: Reply, dialog: Option<string>)
      requires Valid() && model.Some? && session.Some?
      modifies this`model, this`context, this`session, this`nextId
      ensures Valid()
      ensures reset.SessionCreated? ==>
        && reply == ErrorJson(SessionReset(message)) && dialog == None
        && model == old(model) && context == old(context) && session.Some? && session != old(session)
      ensures reset.SessionThrew? ==>
        && (AllLoaded() || NoneLoaded())
        && (AllLoaded() <==> modelFileExists && reload.Loaded?)
        && (reply == ErrorJson(EngineReloaded(message)) <==> model.Some? && session.Some?)
        && (reply == ErrorJson(EngineUnrecovered(message)) <==> !(model.Some? && session.Some?))
        && dialog == (if modelFileExists && !reload.Loaded? then Some(LoadFailedDialog(reload.message)) else None)
    {
      session := None;
      if reset.SessionCreated? {
        NewSession();
        return ErrorJson(SessionReset(message)), None;
      }
      dialog := LoadModelAndCreateSession(modelFileExists, reload);
      reply := ErrorJson(if model.Some? && session.Some? then EngineReloaded(message) else EngineUnrecovered(message));
    }
  }
}
