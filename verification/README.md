# Advisory chatbot core, modelled in Dafny

The system is a Streamlit chat page for company and employee advice. The
page builds an input for a LangChain ReAct agent from four things: the
selected consultation mode, the selected genre, the recent conversation and
the new question. The agent can call ten tools:

- seven template advisors (marketing, sales, recruitment, organisation,
  business improvement, physical health, mental health);
- a company-law retrieval tool over a FAISS index of the Companies Act PDF;
- web search;
- Wikipedia search.

Before the agent's answer is shown, a guard replaces any leaked reasoning
transcript with a fixed fallback. On first load, initialisation creates the
conversation keys and a session id. It then loads the saved index or builds
it: download the PDF, split it into chunks, embed them in batches of 100 and
save the index. Finally it configures the agent executor.

The model is a set of pure functions over immutable data.

- The Streamlit session is a record of optional fields (`Session.SessionState`).
- A Python exception is a `Failure` carrying `str(e)`.
- A missing key or `None` is an `Option`.
- Every call outside the core is a parameter. Where the call's argument
  varies it is a function: the chat completion, the retriever, the agent's
  `invoke`, SerpAPI, the two Wikipedia HTTP requests, URL quoting, the text
  splitter and the embedding of batch `j`. Otherwise it is the call's
  outcome, a `Result` or an optional error: the FAISS load, the PDF
  download, the PDF parse and the save.
- The vector store is represented only by the sequence of chunks it indexes,
  and `merge_from` appends.
- Initialisation returns the list of external calls it attempted, in order
  (`IndexBuild.Effect`). Ordering claims such as "the save comes after the
  last merge" are proved about that list.

Modules:

- `wrappers.dfy`: `Option` and `Result`.
- `strings.dfy`: prefix, suffix and substring predicates, and Python's `sep.join`.
- `constants.dfy`: the literals the core uses, copied from constants.py.
- `session.dfy`: documents, the store, logged messages, tools, the agent
  configuration and the session record.
- `utils.dfy`: utils.py. Source icon, error message, conversational input,
  answer extraction and the Wikipedia tool.
- `components.dfy`: the non-rendering part of components.py. The answer
  guard, the logged reply, the advisors, the company-law tool and the
  mode/genre state machine with the page's selection section (main.py:90-105).
- `index_build.dfy`: the batch loop of `initialize_vector_store`. It has a
  reference definition and a method that follows the Python loop index by
  index.
- `initialize.py` is modelled by `initialize.dfy`: session keys, session id,
  the vector-store protocol, the tool catalogue, the agent executor and
  `initialize()` as a whole.

## Model

| member | source | states |
|---|---|---|
| Utils.SourceIcon | utils.py:28-44 | The link icon is chosen exactly when the source starts with "http", and the document icon exactly when it does not. |
| Utils.BuildErrorMessage | utils.py:47-57 | The shown text starts with the given message, then a newline, then ends with the common "contact the administrator" line. |
| Utils.Header | utils.py:70-79 | The header has a mode tag only when the mode is truthy and a genre tag only when the genre is truthy, joined by a newline when both are present. With neither it is empty. |
| Utils.HistoryDistributes | utils.py:82-89 | History is taken message by message. The history of two concatenated logs is the concatenation of their histories, so log order is kept. |
| Utils.HistoryKeepsAcceptedMessages | utils.py:85-89 | A log of accepted messages (role user/assistant, string content) gives exactly one turn per message, in the same order. |
| Utils.AssistantRepliesNeverReachHistory | utils.py:86-89 | On a log as the page writes it (assistant content is the reply dict, not a string), only user turns reach the history. |
| Utils.RecentWindow | utils.py:91-93 | The window holds the last min(n, 2·max_turns) entries as a suffix of the history, and nothing when max_turns ≤ 0. |
| Utils.WindowAsWrittenAgrees | utils.py:93 | For every positive max_turns, the slice `history[-max_turns*2:]` as written equals the intended window. |
| Utils.ZeroTurnsKeepsWholeHistory | utils.py:93 | For every history: with max_turns = 0 the slice as written keeps the whole history, and with max_turns = -k it keeps all but the first 2k entries, while the intended window is empty in both cases. |
| Utils.ConversationalInput | utils.py:60-101 | Built on the corrected window `Utils.RecentWindow`. The input is header, history block and user line, with empty sections dropped and each kept section followed by a blank line. It always ends with the user line, and it is just the user line when there is no header and no history. |
| Utils.SectionsJoin | utils.py:100-101 | Filtering out empty parts and joining the rest with "\n\n" gives each non-empty section its own trailing separator. |
| Utils.BareQuestion | utils.py:60-101 | With no mode, no genre and no log, the input is exactly "ユーザー: " followed by the question. |
| Utils.ModeGenreAndOnePair | utils.py:60-101 | For any non-empty mode and genre, and a log of one user and one assistant string, the input is the two header lines, a blank line, the two history lines, a blank line and the user line. |
| Utils.OnePairBlock | utils.py:82-97 | A log of one user string and one assistant string renders as the "ユーザー:" line followed by the "アシスタント:" line. |
| Utils.ExtractOutput | utils.py:118-120 | The answer is the `output` string when the result has one, and otherwise the whole result dict, unchanged. |
| Utils.GetLlmResponse | utils.py:104-120 | The agent is invoked on the conversational input with max_turns 4. Its failure propagates unchanged; its success yields the extracted output. |
| Utils.RunWikipediaSearch | utils.py:123-166 | The tool never raises. A raised error gives the error message, no hits gives the not-found message, and a missing title gives the failure message. Otherwise it gives the citation of the top hit, using the fixed fallback text for a missing extract and the `/wiki/` URL for a missing page URL. |
| Utils.CitationIffArticleFound | utils.py:147-163 | The answer starts with the 【Wikipedia】 heading exactly when a titled top hit was found and its summary was fetched. |
| Components.FallbackIsClean | components.py:196-199 | The fallback text itself contains no "Action:". |
| Components.GuardAnswer | components.py:196-199 | The guarded answer never contains "Action:" without "Final Answer". It equals the input exactly when the input does not leak, and otherwise it is the fixed fallback. |
| Components.GuardIdempotent | components.py:196-199 | Guarding an answer twice is the same as guarding it once. |
| Components.GuardExamples | components.py:196-199 | "Action: foo" is replaced; "Final Answer: foo" passes unchanged. |
| Components.DisplayContactResponse | components.py:179-205 | The logged reply carries the current mode and the guarded answer, which never leaks a transcript. |
| Components.AnswerOfAgentResult | components.py:189-194 | From the agent's result to the logged reply: the guarded `output`, or "" when there is none. |
| Components.AdvisorTemplatesDistinct | components.py:207-240 | The seven advisors use seven pairwise different system templates. |
| Components.Advise | components.py:207-240 | An advisor returns the completion of the question under its own template. The completion's failure propagates unchanged. |
| Components.FormatCompanyLawTemplate | components.py:260 | Formatting the template replaces the `{context}` placeholder with the context and leaves the rest of the template unchanged. |
| Components.RetrievedContext | components.py:257 | No chunks give an empty context, and a single chunk gives that chunk's text. |
| Components.RetrievedContextAppend | components.py:257 | A further chunk extends the context at its end, after a blank line. |
| Components.CompanyLawAdviceAsWritten | components.py:242-264 | The tool as written: without a store (or with a `None` store) the unavailable message; with a loaded store always the search-error message for the missing `SEARCH_TOP_K`. |
| Components.AsWrittenRagNeverAnswers | components.py:251-264 | As written, with a loaded store the tool always returns the search-error message for the missing `SEARCH_TOP_K`, whatever the question and services. |
| Components.CompanyLawAdvice | components.py:242-264 | With no store, or a `None` store, the tool returns the unavailable message. With a store it returns the completion of the question under the template filled with the retrieved chunks. Every raised error becomes the search-error message, so the tool never raises. |
| Components.UnavailableIgnoresServices | components.py:247-249 | Without a store the answer depends on neither retrieval nor completion. |
| Components.RagAnswersFromRetrievedChunks | components.py:251-262 | With a loaded store and working services the answer is the completion over the retrieved chunks. It differs from the as-written error. |
| Components.GenreOptions | components.py:67-78 | The first mode offers the six business genres; any other mode offers the two health genres. |
| Components.GenresDistinct | components.py:67-78 | The eight genre labels are pairwise distinct. |
| Components.GenresPartitionedByMode | components.py:67-78 | Every genre is offered under exactly one of the two modes. |
| Components.SelectGenre | components.py:60-80 | The stored genre is one of the options of the current mode. Nothing but `mode_2` changes. |
| Components.IsModeChanged | components.py:83-94 | A change is reported exactly when the mode differs from the remembered one (an absent memory counts as different). Afterwards the current mode is remembered, and nothing else changes. |
| Components.ModeChangeReportedOnce | components.py:83-94 | Asking again right after a check reports no change and alters nothing. |
| Components.ClearConversationLog | components.py:96-100 | The log becomes empty and nothing else changes. |
| Components.ResetGenreSelection | components.py:102-106 | The genre becomes unset and nothing else changes. |
| Components.SelectMode | components.py:44-56 | The radio button stores one of the two modes, and nothing else changes. |
| Components.SelectionSectionAsWritten | main.py:90-105 | As written, every run stores the mode and genre and then fails with the missing `display_selected_filters` attribute, before the change check. Nothing but the two selections changes. |
| Components.SelectionSection | main.py:90-105 | Without the undefined call: the run reruns exactly when the mode differs from the remembered one, and then the log is empty and the genre unset. Otherwise it goes on with the picked genre. The mode is remembered either way, the log is kept or emptied, and no other key changes. |
| Components.AsWrittenSwitchKeepsLog | main.py:96-105 | On a mode switch the as-written run keeps the log and does not remember the new mode, while the corrected section reruns with the log cleared. |
| Components.ModeSwitchStartsFreshContext | main.py:90-105 | A mode switch reruns the page. The rerun, with the same mode and a fresh genre pick, goes on to the chat, and the next agent input has no history block and a header naming the new mode and the picked genre. |
| IndexBuild.BatchesPartition | initialize.py:164-175 | The first slice followed by the slices `texts[i:i+size]` concatenates back to exactly the chunk list, in order. |
| IndexBuild.BatchesBounded | initialize.py:166-172 | There is at least one batch. No batch exceeds the batch size, and no batch is empty when there are chunks. |
| IndexBuild.BatchExists | initialize.py:171 | Batch j ≥ 1 exists exactly when the loop index j·size is below the number of chunks. |
| IndexBuild.BatchAt | initialize.py:166-172 | Batch j is the slice `texts[j*size : j*size+size]`. |
| IndexBuild.BatchCount | initialize.py:168-175 | For n ≥ 1 chunks the number of batches is the logged total ⌈n/size⌉. For no chunks there is still one empty first batch, while the logged total is 0. |
| IndexBuild.LoopStep | initialize.py:171-175 | The pass at index i = k·size handles batch k (its index is i // size = k), and a successful pass extends the merged chunks and the calls by exactly that batch. |
| IndexBuild.FirstFailure | initialize.py:167-174 | The batch found is the first whose embedding raises: it raises, and every earlier batch succeeded. |
| IndexBuild.EmbedAll | initialize.py:160-175 | The build succeeds exactly when no batch's embedding raises, and then the store holds exactly the chunks, in order. |
| IndexBuild.EmbedInBatches | initialize.py:164-175 | The loop as written produces the same store, or the same first error, and the same call sequence as the reference `EmbedAll`. |
| IndexBuild.EmbedRemaining | initialize.py:170-175 | The `range(B, n, B)` loop over batches 1.. (entered after the first batch succeeded) agrees with `EmbedAll`: same store or first embedding error, and the same embed/merge/progress calls. |
| IndexBuild.StepsAccount | initialize.py:166-175 | After k successful batches, progress has been logged as 1..k in order, batches 0..k-1 have been embedded in order, and k-1 merges have been made. |
| IndexBuild.BuildAccount | initialize.py:164-175 | A complete build embeds exactly the batch partition, merges all batches but the first, and logs progress 1..⌈n/size⌉ once each. |
| Initialize.InitializeSessionState | initialize.py:105-113 | When `messages` is absent, both logs are created empty. An existing log is kept as is, and nothing else changes. |
| Initialize.SessionStateIdempotent | initialize.py:109-113 | A rerun does not clear the conversation, and a fresh session starts with an empty history. |
| Initialize.InitializeSessionId | initialize.py:96-102 | An id is stored only when none exists. Nothing else changes. |
| Initialize.SessionIdStable | initialize.py:100-102 | The first id drawn stays for the whole session, whatever later reruns draw. |
| Initialize.BuildIndex | initialize.py:139-184 | The build keeps a store exactly when the download (if needed), the parse, every batch and the save succeed, and the store is then the split chunks. The PDF is on disk afterwards unless the download raised. The index directory exists once every batch succeeded, even if the save raised. The first call is the download exactly when the PDF was missing. |
| Initialize.InitializeVectorStore | initialize.py:116-184 | It does nothing when the key is present. Otherwise the key is always set afterwards. Only `vector_store` changes in the session, and the load path leaves the disk unchanged. |
| Initialize.LoadPathCallsOnlyLoad | initialize.py:129-137 | With a saved index, the only call is the load, and a failed load leaves `None`. |
| Initialize.DownloadIffPdfMissing | initialize.py:139-145 | The PDF is downloaded exactly when it is not on disk. Afterwards it is on disk unless the download raised. |
| Initialize.BuildStoresEveryChunk | initialize.py:147-180 | When every call succeeds, the store is exactly the split chunks and the call sequence is [download?], load, split, the batch calls, save. The save is the last call and happens once, after all merges. PDF and index are then on disk. |
| Initialize.FailureLeavesNone | initialize.py:182-184 | A store is kept exactly when download, parse, every batch and the save all succeeded; otherwise the key holds `None`. |
| Initialize.NextSessionLoads | initialize.py:129-179 | After a successful build the next session only loads the index. |
| Initialize.FailedSaveLeavesDirectory | initialize.py:177-184 | A save that raises still leaves the index directory behind. Later sessions then only try to load, and the store stays `None` when that load fails. |
| Initialize.ToolNamesDistinct | initialize.py:206-276 | The ten tool names are pairwise distinct. |
| Initialize.CatalogueComplete | initialize.py:206-276 | Each handler (seven advisors, company law, web, Wikipedia) appears in exactly one catalogue entry. |
| Initialize.LookupFindsEachTool | initialize.py:206-276 | Looking up any entry's name finds that very entry. |
| Initialize.FindTool | initialize.py:206-276 | Lookup by name over the catalogue built here fails exactly when no entry has the name. When it succeeds, the entry found is in the catalogue and carries that name. |
| Initialize.InvokeTool | initialize.py:208-275 | The company-law and Wikipedia tools never raise. The advisors and web search pass on their service's failure unchanged. |
| Initialize.InitializeAgentExecutor | initialize.py:187-286 | The executor is built only when absent. An existing executor is kept, and no other modelled key changes. |
| Initialize.ConfiguredAgentShape | initialize.py:279-286 | The agent gets at most 3 iterations, generated early stopping, parsing errors handled, and ten distinctly named tools, of which only the eighth is the company-law tool. |
| Initialize.Initialize | initialize.py:37-50 | Afterwards every key the chat reads is present, and the mode keys are untouched. |
| Initialize.RerunIsNoOp | initialize.py:37-50 | A second initialisation makes no external call and changes neither the session nor the disk, whatever services and id it is given. |
| Initialize.FirstLoad | initialize.py:37-50 | A fresh session gets empty logs, the drawn id and the configured agent. |

## Left out

- The agent loop (ReAct reasoning, the choice of which tool to call, the iteration limit at run time) belongs to LangChain. Only its configuration and the tools it is given are modelled; `invoke` is a parameter.
- Initialize.FindTool: LangChain's own name lookup is modelled only by this first-match search. LangChain's name map keeps the last entry of a duplicated name; the two agree on the catalogue because its names are distinct (`Initialize.ToolNamesDistinct`).
- The chat model, its temperature, token counting (`tiktoken`) and the `LLMChain` prompt assembly are out of the model. A completion is a function of (question, system template).
- The PDF loader, the recursive text splitter (chunk size 1000, overlap 200), embeddings and FAISS similarity search are parameters. The store is represented only by its chunk sequence.
- HTTP (the PDF download, SerpAPI and the two Wikipedia requests) and URL quoting are parameters.
- `initialize_logger` and every log line except the batch progress line are not modelled; their failures (such as `os.makedirs` raising for the log directory) are out of scope.
- Rendering is not modelled: title, sidebar text and style, the initial message, `display_conversation_log`, and the Markdown output of the displayed answer.
- main.py, the page driver, is not part of this model apart from its selection section (main.py:90-105, `Components.SelectionSection` and its as-written form) and the dict-shaped assistant log entries it writes, which are modelled only through `Utils.LoggedByPage`.
- `OpenAIEmbeddings()` raising on construction is not modelled separately. It has the same effect as the load, or the first embedding, raising.
- `os.makedirs` raising is not modelled. A download that raises is modelled as leaving no PDF on disk; a partly written file is not modelled.
- The constructors of `SerpAPIWrapper`, `ChatOpenAI` and the agent raising during `initialize_agent_executor` are not modelled. The model always builds the executor.
- Components.SelectGenre and Components.IsModeChanged require the mode to be set: the page always sets it from the radio button before calling them, and the code reads `st.session_state.mode` without a default.
- Utils.ConversationalInput uses the corrected window `Utils.RecentWindow`, not the slice at utils.py:93. For max_turns = 0 the code keeps the whole history and for max_turns = -k it keeps `history[2k:]`, where the model keeps none. For every positive max_turns, including the only value the code passes (4), the two agree (`Utils.WindowAsWrittenAgrees`).
- Initialize.InitializeAgentExecutor: the `enc` (tiktoken encoder) and `llm` keys written at initialize.py:198-200 are not part of `SessionState`, so the model does not state what happens to them.
- Components.CompanyLawAdvice takes top-K as a parameter, because the code reads a constant that constants.py does not define (see Findings).
- Initialize.InvokeTool sends the company-law tool to the corrected `Components.CompanyLawAdvice` with a top-K from its environment. As written, the tool answers every call with a loaded store with the search-error message (`Components.CompanyLawAdviceAsWritten`).
- Components.ModeSwitchStartsFreshContext is stated for the selection section without the undefined call at main.py:96. As written, every page run raises there, so no mode switch is ever acted on (see Findings).

## Findings

| source | as written | input that shows it | evidently intended | confidence | as-written member | corrected member |
|---|---|---|---|---|---|---|
| components.py:253 | The retriever's `k` is read from `ct.SEARCH_TOP_K`, which constants.py does not define. The lookup raises inside the `try`, so the tool answers with the search-error message. | Any question when the vector store loaded successfully | Retrieve the top-K chunks, fill the template and answer from them | not executed; high (the name appears nowhere in constants.py) | Components.AsWrittenRagNeverAnswers | Components.RagAnswersFromRetrievedChunks |
| main.py:96 | `cn.display_selected_filters()` calls a function components.py does not define, outside any `try`. Every run raises AttributeError there, before the mode-change check at main.py:99. | Any page load | Show the selected mode and genre, then clear the log and the genre and rerun on a mode switch | not executed; high (the name appears only at main.py:96) | Components.AsWrittenSwitchKeepsLog | Components.SelectionSection |
| utils.py:93 | `history[-max_turns * 2:]`: for `max_turns` = 0 this is `history[0:]`, the whole history; for `max_turns` = -k it is `history[2k:]`, all but the first 2k entries. | `max_turns` = 0 with a two-turn history; `max_turns` = -1 with a three-turn history | No history at all for zero or negative turns | not executed; low impact (the only caller uses the default 4) | Utils.ZeroTurnsKeepsWholeHistory | Utils.RecentWindow |
