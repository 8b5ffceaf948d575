/** First-load initialisation (initialize.py): the conversation keys, the
    session id, the company-law vector store and the agent executor with its
    tool catalogue. Each step does its work only when its session key is
    absent, which is what makes the whole of `initialize` safe to run on
    every rerun of the page. */
module Initialize {
  import opened Wrappers
  import C = Constants
  import opened Session
  import opened IndexBuild
  import Utils
  import Components

  // ---------------------------------------------------------------------
  // Conversation keys and session id
  // ---------------------------------------------------------------------

  /** Creates the two conversation logs, both empty, when `messages` is
      absent. The check is on `messages` only: an existing conversation is
      kept as is, and so is an absent `chat_history` next to it. */
  function InitializeSessionState(s: SessionState): (r: SessionState)
    ensures r.messages.Some?
    ensures s.messages.Some? ==> r == s
    ensures s.messages.None? ==> r.messages == Some([]) && r.chatHistory == Some([])
    ensures r.(messages := s.messages, chatHistory := s.chatHistory) == s
  {
    if s.messages.Some? then s else s.(messages := Some([]), chatHistory := Some([]))
  }

  /** A rerun does not clear the conversation: initialising twice is
      initialising once, and a fresh session starts with no history. */
  lemma SessionStateIdempotent(s: SessionState)
    ensures InitializeSessionState(InitializeSessionState(s)) == InitializeSessionState(s)
    ensures Utils.SessionHistory(InitializeSessionState(FreshSession)) == []
  {
  }

  /** Stores `freshId` (the `uuid4().hex` drawn on this run) as the session
      id when there is none yet; nothing else changes. */
  function InitializeSessionId(s: SessionState, freshId: string): (r: SessionState)
    ensures r.sessionId.Some?
    ensures s.sessionId.Some? ==> r == s
    ensures s.sessionId.None? ==> r.sessionId == Some(freshId)
    ensures r.(sessionId := s.sessionId) == s
  {
    if s.sessionId.Some? then s else s.(sessionId := Some(freshId))
  }

  /** The id is drawn once per session: whatever id a later rerun draws,
      the first one stays. */
  lemma SessionIdStable(s: SessionState, first: string, later: string)
    ensures InitializeSessionId(InitializeSessionId(s, first), later) == InitializeSessionId(s, first)
    ensures s.sessionId.None? ==> InitializeSessionId(InitializeSessionId(s, first), later).sessionId == Some(first)
  {
  }

  // ---------------------------------------------------------------------
  // Vector store
  // ---------------------------------------------------------------------

  /** The two paths the protocol tests with `os.path.exists`: the saved
      index directory and the downloaded statute PDF. */
  datatype Disk = Disk(indexSaved: bool, pdfPresent: bool)

  /** The outside world the store initialisation calls into: loading the
      saved index, downloading the PDF (its error, if any), parsing it into
      pages, the text splitter, embedding batch `j` (its error, if any) and
      saving the index (its error, if any). */
  datatype IndexServices = IndexServices(
    load: Result<Store>,
    download: Option<string>,
    parse: Result<seq<Document>>,
    split: seq<Document> -> seq<Document>,
    embedFailure: nat -> Option<string>,
    saveFailure: Option<string>)

  /** A state of the session and the disk, and the external calls made to
      reach it, in order. */
  datatype InitStep = InitStep(state: SessionState, disk: Disk, effects: seq<Effect>)

  /** What the build branch produces: the store (`None` when any call
      raised), the disk afterwards, and the calls made. */
  datatype Built = Built(store: Option<Store>, disk: Disk, effects: seq<Effect>)

  /** The chunks the build embeds: the split pages of the parsed PDF. */
  function Chunks(svc: IndexServices): seq<Document>
    requires svc.parse.Success?
  {
    svc.split(svc.parse.value)
  }

  /** The build branch: download the PDF when it is missing, parse it,
      split it, embed the chunks in batches of `EMBEDDING_BATCH_SIZE`, then
      create the index directory and save into it. The directory is created
      before the save, so it exists even when the save raises. */
  function BuildIndex(disk: Disk, svc: IndexServices): (r: Built)
    ensures r.store.Some? <==>
      && (disk.pdfPresent || svc.download.None?)
      && svc.parse.Success?
      && (forall j | 0 <= j < |Batches(Chunks(svc), C.EmbeddingBatchSize)| :: svc.embedFailure(j).None?)
      && svc.saveFailure.None?
    ensures r.store.Some? ==> r.store.value == Store(Chunks(svc))
    ensures r.disk.pdfPresent <==> disk.pdfPresent || svc.download.None?
    ensures r.disk.indexSaved <==>
      || disk.indexSaved
      || ((disk.pdfPresent || svc.download.None?) && svc.parse.Success?
          && EmbedAll(Chunks(svc), C.EmbeddingBatchSize, svc.embedFailure).store.Success?)
    ensures |r.effects| > 0 && (r.effects[0] == DownloadPdf <==> !disk.pdfPresent)
  {
    var download := if disk.pdfPresent then [] else [DownloadPdf];
    if !disk.pdfPresent && svc.download.Some? then
      Built(None, disk, download)
    else
      var disk1 := disk.(pdfPresent := true);
      match svc.parse
      case Failure(_) => Built(None, disk1, download + [LoadPdf])
      case Success(pages) =>
        var texts := svc.split(pages);
        var embedded := EmbedAll(texts, C.EmbeddingBatchSize, svc.embedFailure);
        var prefix := download + [LoadPdf, SplitDocuments] + embedded.effects;
        match embedded.store
        case Failure(_) => Built(None, disk1, prefix)
        case Success(store) =>
          var disk2 := disk1.(indexSaved := true);
          var effects := prefix + [SaveIndex(store)];
          if svc.saveFailure.Some? then Built(None, disk2, effects) else Built(Some(store), disk2, effects)
  }

  /** `initialize_vector_store`: a no-op when the key is present; otherwise
      load the saved index if its directory exists, else build it. Any
      raised error leaves the key holding `None`. Only `vector_store` in the
      session changes. */
  function InitializeVectorStore(s: SessionState, disk: Disk, svc: IndexServices): (r: InitStep)
    ensures s.vectorStore.Some? ==> r == InitStep(s, disk, [])
    ensures r.state.vectorStore.Some?
    ensures r.state.(vectorStore := s.vectorStore) == s
    ensures disk.indexSaved ==> r.disk == disk
  {
    if s.vectorStore.Some? then InitStep(s, disk, [])
    else if disk.indexSaved then
      var store := if svc.load.Success? then Some(svc.load.value) else None;
      InitStep(s.(vectorStore := Some(store)), disk, [LoadIndex])
    else
      var built := BuildIndex(disk, svc);
      InitStep(s.(vectorStore := Some(built.store)), built.disk, built.effects)
  }

  /** A saved index is loaded and nothing else is called: no download, no
      embedding, no save. A failed load leaves `None`. */
  lemma LoadPathCallsOnlyLoad(s: SessionState, disk: Disk, svc: IndexServices)
    requires s.vectorStore.None? && disk.indexSaved
    ensures InitializeVectorStore(s, disk, svc).effects == [LoadIndex]
    ensures InitializeVectorStore(s, disk, svc).state.vectorStore
      == Some(if svc.load.Success? then Some(svc.load.value) else None)
  {
  }

  /** Without a saved index the PDF is downloaded exactly when it is not on
      disk, and afterwards it is on disk unless the download raised. */
  lemma DownloadIffPdfMissing(s: SessionState, disk: Disk, svc: IndexServices)
    requires s.vectorStore.None? && !disk.indexSaved
    ensures var r := InitializeVectorStore(s, disk, svc);
      && (DownloadPdf in r.effects <==> !disk.pdfPresent)
      && (r.disk.pdfPresent <==> disk.pdfPresent || svc.download.None?)
  {
    var r := InitializeVectorStore(s, disk, svc);
    if disk.pdfPresent {
      assert DownloadPdf !in r.effects by {
        BuildHasNoDownload(disk, svc);
      }
    } else {
      assert r.effects[0] == DownloadPdf;
    }
  }

  lemma BuildHasNoDownload(disk: Disk, svc: IndexServices)
    requires disk.pdfPresent
    ensures DownloadPdf !in BuildIndex(disk, svc).effects
  {
    var b := BuildIndex(disk, svc);
    if svc.parse.Success? {
      var texts := svc.split(svc.parse.value);
      var embedded := EmbedAll(texts, C.EmbeddingBatchSize, svc.embedFailure);
      EffectsOfEmbedding(texts, svc.embedFailure);
      assert forall e | e in b.effects :: e in embedded.effects || e == LoadPdf || e == SplitDocuments || e.SaveIndex?;
    }
  }

  /** The batch loop only embeds, merges and logs progress. */
  lemma EffectsOfEmbedding(texts: seq<Document>, fail: nat -> Option<string>)
    ensures forall e | e in EmbedAll(texts, C.EmbeddingBatchSize, fail).effects ::
      e.EmbedBatch? || e.MergeBatch? || e.Progress?
  {
    var bs := Batches(texts, C.EmbeddingBatchSize);
    var total := ProgressTotal(|texts|, C.EmbeddingBatchSize);
    forall k | 0 <= k <= |bs|
      ensures forall e | e in StepsUpTo(bs, k, total) :: e.EmbedBatch? || e.MergeBatch? || e.Progress?
    {
      StepsKinds(bs, k, total);
    }
  }

  lemma {:induction false} StepsKinds(bs: seq<seq<Document>>, k: nat, total: nat)
    requires k <= |bs|
    ensures forall e | e in StepsUpTo(bs, k, total) :: e.EmbedBatch? || e.MergeBatch? || e.Progress?
  {
    if k > 0 {
      StepsKinds(bs, k - 1, total);
    }
  }

  /** When every call succeeds the build stores exactly the split chunks,
      in order; it embeds the batches of the chunks in order, merges every
      one after the first, and saves last, once, after the final merge; the
      PDF and the index directory are then on disk. */
  lemma BuildStoresEveryChunk(s: SessionState, disk: Disk, svc: IndexServices)
    requires s.vectorStore.None? && !disk.indexSaved
    requires disk.pdfPresent || svc.download.None?
    requires svc.parse.Success? && svc.saveFailure.None?
    requires forall j | 0 <= j < |Batches(Chunks(svc), C.EmbeddingBatchSize)| :: svc.embedFailure(j).None?
    ensures var r := InitializeVectorStore(s, disk, svc);
      var texts := Chunks(svc);
      var embedded := EmbedAll(texts, C.EmbeddingBatchSize, svc.embedFailure).effects;
      && r.state.vectorStore == Some(Some(Store(texts)))
      && r.disk == Disk(true, true)
      && r.effects[|r.effects| - 1] == SaveIndex(Store(texts))
      && SaveIndex(Store(texts)) !in r.effects[..|r.effects| - 1]
      && r.effects == (if disk.pdfPresent then [] else [DownloadPdf]) + [LoadPdf, SplitDocuments] + embedded
         + [SaveIndex(Store(texts))]
      && EmbeddedBatches(embedded) == Batches(texts, C.EmbeddingBatchSize)
      && MergeCount(embedded) == |Batches(texts, C.EmbeddingBatchSize)| - 1
  {
    var texts := Chunks(svc);
    BuildAccount(texts, C.EmbeddingBatchSize, svc.embedFailure);
    EffectsOfEmbedding(texts, svc.embedFailure);
    var r := InitializeVectorStore(s, disk, svc);
    var init := r.effects[..|r.effects| - 1];
    assert forall e | e in init :: !e.SaveIndex?;
  }

  /** Any raised error leaves `None` in the key (and the chat then reports
      the store as unavailable): a store is kept only when every call
      succeeded. */
  lemma FailureLeavesNone(s: SessionState, disk: Disk, svc: IndexServices)
    requires s.vectorStore.None? && !disk.indexSaved
    ensures var r := InitializeVectorStore(s, disk, svc);
      r.state.vectorStore.value.Some? <==>
        && (disk.pdfPresent || svc.download.None?)
        && svc.parse.Success?
        && (forall j | 0 <= j < |Batches(Chunks(svc), C.EmbeddingBatchSize)| :: svc.embedFailure(j).None?)
        && svc.saveFailure.None?
  {
  }

  /** After a successful build the next session finds the index directory
      and only loads: the PDF is neither downloaded nor embedded again. */
  lemma NextSessionLoads(s: SessionState, disk: Disk, svc: IndexServices, next: SessionState, svc2: IndexServices)
    requires s.vectorStore.None? && !disk.indexSaved
    requires InitializeVectorStore(s, disk, svc).state.vectorStore.value.Some?
    requires next.vectorStore.None?
    ensures InitializeVectorStore(next, InitializeVectorStore(s, disk, svc).disk, svc2).effects == [LoadIndex]
  {
  }

  /** A save that raises still leaves the index directory behind (it is
      created first), so every later session takes the load path and never
      rebuilds: with an unloadable directory the store stays `None`. */
  lemma FailedSaveLeavesDirectory(s: SessionState, disk: Disk, svc: IndexServices,
                                  next: SessionState, svc2: IndexServices)
    requires s.vectorStore.None? && !disk.indexSaved
    requires disk.pdfPresent && svc.parse.Success? && svc.saveFailure.Some?
    requires forall j | 0 <= j < |Batches(Chunks(svc), C.EmbeddingBatchSize)| :: svc.embedFailure(j).None?
    requires next.vectorStore.None? && svc2.load.Failure?
    ensures InitializeVectorStore(s, disk, svc).state.vectorStore == Some(None)
    ensures InitializeVectorStore(s, disk, svc).disk.indexSaved
    ensures var later := InitializeVectorStore(next, InitializeVectorStore(s, disk, svc).disk, svc2);
      later.effects == [LoadIndex] && later.state.vectorStore == Some(None)
  {
  }

  // ---------------------------------------------------------------------
  // Tool catalogue and agent executor
  // ---------------------------------------------------------------------

  /** The ten tools in the order the agent is given them. */
  const Tools: seq<ToolSpec> := [
    ToolSpec(C.MarketingStrategyName, C.MarketingStrategyDescription, AdviceTool(Marketing)),
    ToolSpec(C.SalesStrategyName, C.SalesStrategyDescription, AdviceTool(Sales)),
    ToolSpec(C.RecruitmentStrategyName, C.RecruitmentStrategyDescription, AdviceTool(Recruitment)),
    ToolSpec(C.OrganizationalStrategyName, C.OrganizationalStrategyDescription, AdviceTool(Organizational)),
    ToolSpec(C.BusinessImprovementName, C.BusinessImprovementDescription, AdviceTool(BusinessImprovement)),
    ToolSpec(C.PhysicalHealthName, C.PhysicalHealthDescription, AdviceTool(PhysicalHealth)),
    ToolSpec(C.MentalHealthName, C.MentalHealthDescription, AdviceTool(MentalHealth)),
    ToolSpec(C.CompanyLawName, C.CompanyLawDescription, CompanyLawTool),
    ToolSpec(C.SearchWebToolName, C.SearchWebToolDescription, WebSearchTool),
    ToolSpec(C.SearchWikipediaToolName, C.SearchWikipediaToolDescription, WikipediaTool)
  ]

  /** Lookup of a tool by the name the agent writes in its action. This
      happens inside LangChain, not in initialize.py: LangChain builds a
      name map, which keeps the last entry of a duplicated name, while this
      returns the first. The two agree on `Tools` because its names are
      distinct (`ToolNamesDistinct`). */
  function FindTool(tools: seq<ToolSpec>, name: string): (r: Option<ToolSpec>)
    ensures r.None? <==> forall i | 0 <= i < |tools| :: tools[i].name != name
    ensures r.Some? ==> r.value in tools && r.value.name == name
  {
    if |tools| == 0 then None
    else if tools[0].name == name then Some(tools[0])
    else FindTool(tools[1..], name)
  }

  /** No two tools share a name. */
  lemma ToolNamesDistinct()
    ensures forall i, j | 0 <= i < j < |Tools| :: Tools[i].name != Tools[j].name
  {
    assert Tools[0].name[0] == 'マ';
    assert Tools[1].name[0] == '営';
    assert Tools[2].name[0] == '採';
    assert Tools[3].name[0] == '組';
    assert Tools[4].name[0] == '業';
    assert Tools[5].name[0] == '健';
    assert Tools[6].name[0] == 'メ';
    assert Tools[7].name[0] == '会';
    assert Tools[8].name[0] == 's';
    assert Tools[9].name[0] == 'W';
  }

  /** Every handler has exactly one entry in the catalogue: each advisor,
      the company-law tool, web search and Wikipedia. */
  lemma CatalogueComplete(h: Handler)
    ensures exists i | 0 <= i < |Tools| :: Tools[i].handler == h
    ensures forall i, j | 0 <= i < j < |Tools| :: Tools[i].handler != Tools[j].handler
  {
    match h {
      case AdviceTool(a) =>
        match a {
          case Marketing => assert Tools[0].handler == h;
          case Sales => assert Tools[1].handler == h;
          case Recruitment => assert Tools[2].handler == h;
          case Organizational => assert Tools[3].handler == h;
          case BusinessImprovement => assert Tools[4].handler == h;
          case PhysicalHealth => assert Tools[5].handler == h;
          case MentalHealth => assert Tools[6].handler == h;
        }
      case CompanyLawTool => assert Tools[7].handler == h;
      case WebSearchTool => assert Tools[8].handler == h;
      case WikipediaTool => assert Tools[9].handler == h;
    }
  }

  /** Looking up any entry's name finds that entry, so the agent reaches
      every tool by its name. */
  lemma LookupFindsEachTool()
    ensures forall i | 0 <= i < |Tools| :: FindTool(Tools, Tools[i].name) == Some(Tools[i])
  {
    ToolNamesDistinct();
    forall i | 0 <= i < |Tools|
      ensures FindTool(Tools, Tools[i].name) == Some(Tools[i])
    {
      FindFirst(Tools, i);
    }
  }

  /** In a catalogue with distinct names, looking up entry `i`'s name finds
      entry `i`. */
  lemma {:induction false} FindFirst(tools: seq<ToolSpec>, i: nat)
    requires i < |tools|
    requires forall a, b | 0 <= a < b < |tools| :: tools[a].name != tools[b].name
    ensures FindTool(tools, tools[i].name) == Some(tools[i])
  {
    if i > 0 {
      assert tools[0].name != tools[i].name;
      assert tools[1..][i - 1] == tools[i];
      FindFirst(tools[1..], i - 1);
    }
  }

  /** What the tools call: the chat completion, the company-law retrieval
      with its top-K, the session's store, SerpAPI web search (which may
      raise) and the Wikipedia API. */
  datatype ToolEnv = ToolEnv(
    complete: Components.Completion,
    rag: Components.RagServices,
    topK: nat,
    store: Option<Option<Store>>,
    webSearch: string -> Result<string>,
    wikipedia: Utils.WikipediaApi)

  /** Running a tool on the agent's action input. The company-law and
      Wikipedia tools turn every failure into a message and never raise;
      the advisors and web search pass their service's failure on. */
  function InvokeTool(h: Handler, input: string, env: ToolEnv): (r: Result<string>)
    ensures (h == CompanyLawTool || h == WikipediaTool) ==> r.Success?
    ensures h == CompanyLawTool ==> r.value == Components.CompanyLawAdvice(input, env.store, env.topK, env.rag)
    ensures h == WikipediaTool ==> r.value == Utils.RunWikipediaSearch(input, env.wikipedia)
    ensures h.AdviceTool? ==> r == Components.Advise(h.advisor, input, env.complete)
    ensures h == WebSearchTool ==> r == env.webSearch(input)
  {
    match h
    case AdviceTool(a) => Components.Advise(a, input, env.complete)
    case CompanyLawTool => Success(Components.CompanyLawAdvice(input, env.store, env.topK, env.rag))
    case WebSearchTool => env.webSearch(input)
    case WikipediaTool => Success(Utils.RunWikipediaSearch(input, env.wikipedia))
  }

  const ZeroShotReactDescription: string := "zero-shot-react-description"
  const EarlyStoppingGenerate: string := "generate"

  /** The executor the page talks to: the catalogue, the configured model,
      at most `AI_AGENT_MAX_ITERATIONS` reasoning steps, a final answer
      generated when the steps run out, and parsing errors handed back to
      the model instead of raised. */
  const ConfiguredAgent: AgentExecutor :=
    AgentExecutor(Tools, C.Model, C.AiAgentMaxIterations, ZeroShotReactDescription, EarlyStoppingGenerate, true)

  /** `initialize_agent_executor`: builds the executor when the key is
      absent; an existing one is kept. Nothing else changes. */
  function InitializeAgentExecutor(s: SessionState): (r: SessionState)
    ensures r.agentExecutor.Some?
    ensures s.agentExecutor.Some? ==> r == s
    ensures s.agentExecutor.None? ==> r.agentExecutor == Some(ConfiguredAgent)
    ensures r.(agentExecutor := s.agentExecutor) == s
  {
    if s.agentExecutor.Some? then s else s.(agentExecutor := Some(ConfiguredAgent))
  }

  /** The configured agent stops after three steps, generates a final
      answer rather than failing, and offers ten tools with distinct names
      of which only the company-law tool reads the vector store. */
  lemma ConfiguredAgentShape()
    ensures ConfiguredAgent.maxIterations == 3
    ensures ConfiguredAgent.handleParsingErrors && ConfiguredAgent.earlyStoppingMethod == "generate"
    ensures |ConfiguredAgent.tools| == 10
    ensures forall i, j | 0 <= i < j < |ConfiguredAgent.tools| ::
      ConfiguredAgent.tools[i].name != ConfiguredAgent.tools[j].name
    ensures forall i | 0 <= i < |ConfiguredAgent.tools| ::
      ConfiguredAgent.tools[i].handler == CompanyLawTool <==> i == 7
  {
    ToolNamesDistinct();
  }

  // ---------------------------------------------------------------------
  // The whole initialisation
  // ---------------------------------------------------------------------

  /** `initialize()`: conversation keys, session id, (logger,) vector store,
      agent executor, in that order. Afterwards every key the chat reads is
      present. */
  function Initialize(s: SessionState, disk: Disk, freshId: string, svc: IndexServices): (r: InitStep)
    ensures r.state.messages.Some? && r.state.sessionId.Some?
    ensures r.state.vectorStore.Some? && r.state.agentExecutor.Some?
    ensures r.state.mode == s.mode && r.state.mode2 == s.mode2 && r.state.previousMode == s.previousMode
  {
    var s1 := InitializeSessionId(InitializeSessionState(s), freshId);
    var v := InitializeVectorStore(s1, disk, svc);
    InitStep(InitializeAgentExecutor(v.state), v.disk, v.effects)
  }

  /** Every rerun after the first is free: the second initialisation calls
      nothing outside, touches neither the session nor the disk, whatever
      the services and the id it would draw. */
  lemma RerunIsNoOp(s: SessionState, disk: Disk, id1: string, svc1: IndexServices, id2: string, svc2: IndexServices)
    ensures var first := Initialize(s, disk, id1, svc1);
      Initialize(first.state, first.disk, id2, svc2) == InitStep(first.state, first.disk, [])
  {
  }

  /** A fresh session gets empty logs, the drawn id and the configured
      agent. */
  lemma FirstLoad(disk: Disk, id: string, svc: IndexServices)
    ensures var r := Initialize(FreshSession, disk, id, svc);
      && r.state.messages == Some([]) && r.state.chatHistory == Some([])
      && r.state.sessionId == Some(id)
      && r.state.agentExecutor == Some(ConfiguredAgent)
  {
  }
}
