/** The non-rendering part of the display module (components.py): the guard
    on the agent's answer, the seven template advisors, the company-law RAG
    tool, and the mode/genre state machine of the sidebar. */
module Components {
  import opened Wrappers
  import opened Strings
  import C = Constants
  import opened Session
  import Utils

  // ---------------------------------------------------------------------
  // Answer guard
  // ---------------------------------------------------------------------

  /** Shown instead of a leaked ReAct transcript. */
  const ReActFallback: string := "外部検索が完了しませんでした。キーワードを変えて再度お試しください。"

  /** The answer still holds an "Action:" step but no final answer: the
      agent's intermediate reasoning leaked out. */
  predicate LeaksTranscript(answer: string) {
    Contains(answer, "Action:") && !Contains(answer, "Final Answer")
  }

  /** The fallback has no 'A' at all, so it cannot contain "Action:". */
  lemma FallbackIsClean()
    ensures !LeaksTranscript(ReActFallback)
  {
    assert "Action:"[0] == 'A';
    AbsentCharRulesOut(ReActFallback, "Action:", 'A');
  }

  /** The guard never lets a leaked transcript through, passes every other
      answer unchanged, and otherwise substitutes the fixed fallback. */
  function GuardAnswer(answer: string): (r: string)
    ensures !LeaksTranscript(r)
    ensures r == answer <==> !LeaksTranscript(answer)
    ensures r != answer ==> r == ReActFallback
  {
    FallbackIsClean();
    if LeaksTranscript(answer) then ReActFallback else answer
  }

  /** Guarding twice is guarding once. */
  lemma GuardIdempotent(answer: string)
    ensures GuardAnswer(GuardAnswer(answer)) == GuardAnswer(answer)
  {
  }

  /** A bare action is replaced; a final answer passes. */
  lemma GuardExamples()
    ensures GuardAnswer("Action: foo") == ReActFallback
    ensures GuardAnswer("Final Answer: foo") == "Final Answer: foo"
  {
    ContainsAt("Action: foo", "Action:", 0);
    assert "Final Answer"[0] == 'F';
    AbsentCharRulesOut("Action: foo", "Final Answer", 'F');
    ContainsAt("Final Answer: foo", "Final Answer", 0);
  }

  /** The text the display starts from: a dict's `output` (or "" when it
      has none), any other value through `str`. */
  function RawAnswer(response: Utils.LlmResponse): string {
    match response
    case TextResponse(text) => text
    case DictResponse(result) => result.output.GetOr("")
    case OtherResponse(repr) => repr
  }

  /** The record logged for an answer: the current mode and the guarded
      answer, which never carries a leaked transcript. */
  function DisplayContactResponse(response: Utils.LlmResponse, mode: string): (reply: ContactReply)
    ensures reply.mode == mode
    ensures reply.answer == GuardAnswer(RawAnswer(response))
    ensures !LeaksTranscript(reply.answer)
  {
    ContactReply(mode, GuardAnswer(RawAnswer(response)))
  }

  /** From the agent's result dict to the logged answer: the guarded
      `output`, or "" when the agent returned no output at all. */
  lemma AnswerOfAgentResult(result: Utils.AgentResult, mode: string)
    ensures DisplayContactResponse(Utils.ExtractOutput(result), mode).answer
      == GuardAnswer(result.output.GetOr(""))
  {
  }

  // ---------------------------------------------------------------------
  // Template advisors
  // ---------------------------------------------------------------------

  /** A chat completion for (user input, system template); it may raise. */
  type Completion = (string, string) -> Result<string>

  /** The system template each advisor hands to the completion. */
  function AdvisorTemplate(advisor: Advisor): string {
    match advisor
    case Marketing => C.MarketingStrategyTemplate
    case Sales => C.SalesStrategyTemplate
    case Recruitment => C.RecruitmentStrategyTemplate
    case Organizational => C.OrganizationalStrategyTemplate
    case BusinessImprovement => C.BusinessImprovementTemplate
    case PhysicalHealth => C.PhysicalHealthTemplate
    case MentalHealth => C.MentalHealthTemplate
  }

  /** No two advisors share a template: each dispatcher reaches the model
      with its own instructions. */
  lemma AdvisorTemplatesDistinct(a: Advisor, b: Advisor)
    requires a != b
    ensures AdvisorTemplate(a) != AdvisorTemplate(b)
  {
    assert C.MarketingStrategyTemplate[12] == 'マ';
    assert C.SalesStrategyTemplate[12] == '営';
    assert C.RecruitmentStrategyTemplate[12] == '採';
    assert C.OrganizationalStrategyTemplate[12] == '組';
    assert C.BusinessImprovementTemplate[12] == '業';
    assert C.PhysicalHealthTemplate[12] == '健';
    assert C.MentalHealthTemplate[12] == 'メ';
  }

  /** An advisory tool returns the completion for its own template verbatim;
      a failure of the completion propagates. */
  function Advise(advisor: Advisor, param: string, complete: Completion): (r: Result<string>)
    ensures r.Success? <==> complete(param, AdvisorTemplate(advisor)).Success?
    ensures r.Success? ==> r.value == complete(param, AdvisorTemplate(advisor)).value
    ensures r.Failure? ==> r.error == complete(param, AdvisorTemplate(advisor)).error
  {
    complete(param, AdvisorTemplate(advisor))
  }

  // ---------------------------------------------------------------------
  // Company-law RAG tool
  // ---------------------------------------------------------------------

  const UnavailableMessage: string := "会社法の資料が読み込まれていません。アプリを再起動してください。"

  function RagErrorMessage(error: string): string {
    "会社法の検索中にエラーが発生しました: " + error
  }

  /** `COMPANY_LAW_TEMPLATE.format(context=context)`: the placeholder is
      replaced by the context and nothing else changes. */
  function FormatCompanyLawTemplate(context: string): (t: string)
    ensures t == C.CompanyLawTemplate[..|C.CompanyLawTemplateHead|] + context
      + C.CompanyLawTemplate[|C.CompanyLawTemplateHead| + |C.ContextPlaceholder|..]
    ensures t[|C.CompanyLawTemplateHead|..|t| - |C.CompanyLawTemplateTail|] == context
  {
    var t := C.CompanyLawTemplateHead + context + C.CompanyLawTemplateTail;
    assert C.CompanyLawTemplate[..|C.CompanyLawTemplateHead|] == C.CompanyLawTemplateHead;
    assert C.CompanyLawTemplate[|C.CompanyLawTemplateHead| + |C.ContextPlaceholder|..] == C.CompanyLawTemplateTail;
    t
  }

  /** The retrieved chunks' text, in retrieval order, blank-line separated. */
  function RetrievedContext(docs: seq<Document>): (context: string)
    ensures |docs| == 0 ==> context == ""
    ensures |docs| == 1 ==> context == docs[0].pageContent
  {
    Join(seq(|docs|, i requires 0 <= i < |docs| => docs[i].pageContent), "\n\n")
  }

  /** A further chunk extends the context at its end, after a blank line. */
  lemma RetrievedContextAppend(docs: seq<Document>, d: Document)
    requires |docs| > 0
    ensures RetrievedContext(docs + [d]) == RetrievedContext(docs) + "\n\n" + d.pageContent
  {
    var texts := seq(|docs| + 1, i requires 0 <= i < |docs| + 1 => (docs + [d])[i].pageContent);
    assert texts[..|docs|] == seq(|docs|, i requires 0 <= i < |docs| => docs[i].pageContent);
  }

  /** The similarity search over the store (store, query, k) and the chat
      completion; both may raise. */
  datatype RagServices = RagServices(
    retrieve: (Store, string, nat) -> Result<seq<Document>>,
    complete: Completion)

  /** `vector_store` is in the session and is not `None`. */
  predicate StoreLoaded(store: Option<Option<Store>>) {
    store.Some? && store.value.Some?
  }

  /** The tool with the top-K setting as looked up (which may itself raise). */
  function CompanyLawAdviceWith(param: string, store: Option<Option<Store>>, topK: Result<nat>, svc: RagServices)
    : string
  {
    if !StoreLoaded(store) then UnavailableMessage
    else
      match topK
      case Failure(e) => RagErrorMessage(e)
      case Success(k) =>
        match svc.retrieve(store.value.value, param, k)
        case Failure(e) => RagErrorMessage(e)
        case Success(docs) =>
          match svc.complete(param, FormatCompanyLawTemplate(RetrievedContext(docs)))
          case Failure(e) => RagErrorMessage(e)
          case Success(answer) => answer
  }

  /** `str(e)` of the attribute lookup `ct.SEARCH_TOP_K`, which the
      constants module does not define. */
  const MissingTopKError: string := "module 'constants' has no attribute 'SEARCH_TOP_K'"

  function LookupSearchTopK(): Result<nat> {
    Failure(MissingTopKError)
  }

  /** The tool as written: top-K read from a constant that does not exist. */
  function CompanyLawAdviceAsWritten(param: string, store: Option<Option<Store>>, svc: RagServices): (r: string)
    ensures !StoreLoaded(store) ==> r == UnavailableMessage
    ensures StoreLoaded(store) ==> r == RagErrorMessage(MissingTopKError)
  {
    CompanyLawAdviceWith(param, store, LookupSearchTopK(), svc)
  }

  /** As written, a loaded store never yields an answer: the lookup raises
      before retrieval and the tool reports a search error, whatever the
      question, the store and the services. */
  lemma AsWrittenRagNeverAnswers(param: string, st: Store, svc: RagServices)
    ensures CompanyLawAdviceAsWritten(param, Some(Some(st)), svc) == RagErrorMessage(MissingTopKError)
  {
  }

  /** The tool with top-K supplied. Without a store it answers the fixed
      unavailable message. With one it retrieves `topK` chunks for the
      question, fills the template with their text and returns the
      completion; every raised error becomes a search-error message, so the
      tool never raises. */
  function CompanyLawAdvice(param: string, store: Option<Option<Store>>, topK: nat, svc: RagServices): (r: string)
    ensures !StoreLoaded(store) ==> r == UnavailableMessage
    ensures StoreLoaded(store) && svc.retrieve(store.value.value, param, topK).Failure?
      ==> r == RagErrorMessage(svc.retrieve(store.value.value, param, topK).error)
    ensures StoreLoaded(store) && svc.retrieve(store.value.value, param, topK).Success? ==>
      var prompt := FormatCompanyLawTemplate(RetrievedContext(svc.retrieve(store.value.value, param, topK).value));
      && (svc.complete(param, prompt).Failure? ==> r == RagErrorMessage(svc.complete(param, prompt).error))
      && (svc.complete(param, prompt).Success? ==> r == svc.complete(param, prompt).value)
  {
    CompanyLawAdviceWith(param, store, Success(topK), svc)
  }

  /** Without a store the answer does not depend on retrieval or completion:
      neither is consulted. */
  lemma UnavailableIgnoresServices(param: string, store: Option<Option<Store>>, k1: nat, k2: nat,
                                   svc1: RagServices, svc2: RagServices)
    requires !StoreLoaded(store)
    ensures CompanyLawAdvice(param, store, k1, svc1) == CompanyLawAdvice(param, store, k2, svc2)
  {
  }

  /** With a loaded store and working services, the answer is the completion
      of the question against the template filled with the retrieved
      chunks, never the search-error message the code as written returns. */
  lemma RagAnswersFromRetrievedChunks(param: string, st: Store, topK: nat, svc: RagServices,
                                      docs: seq<Document>, answer: string)
    requires svc.retrieve(st, param, topK) == Success(docs)
    requires svc.complete(param, FormatCompanyLawTemplate(RetrievedContext(docs))) == Success(answer)
    requires answer != RagErrorMessage(MissingTopKError)
    ensures CompanyLawAdvice(param, Some(Some(st)), topK, svc) == answer
    ensures CompanyLawAdvice(param, Some(Some(st)), topK, svc) != CompanyLawAdviceAsWritten(param, Some(Some(st)), svc)
  {
  }

  // ---------------------------------------------------------------------
  // Mode and genre selection
  // ---------------------------------------------------------------------

  /** The two modes of the sidebar radio. */
  const ModeOptions: seq<string> := [C.AnswerMode1, C.AnswerMode2]

  /** Every genre label the sidebar can offer. */
  const AllGenres: seq<string> :=
    [C.AnswerMode3, C.AnswerMode4, C.AnswerMode5, C.AnswerMode6, C.AnswerMode7, C.AnswerMode10,
     C.AnswerMode8, C.AnswerMode9]

  /** The business mode offers the six business genres (company law
      included); every other mode offers the two health genres. */
  function GenreOptions(mode: string): (options: seq<string>)
    ensures mode == C.AnswerMode1 ==> options == AllGenres[..6]
    ensures mode != C.AnswerMode1 ==> options == AllGenres[6..]
  {
    if mode == C.AnswerMode1 then
      [C.AnswerMode3, C.AnswerMode4, C.AnswerMode5, C.AnswerMode6, C.AnswerMode7, C.AnswerMode10]
    else
      [C.AnswerMode8, C.AnswerMode9]
  }

  /** The genre labels are pairwise distinct (their first characters
      already differ). */
  lemma GenresDistinct()
    ensures forall i, j | 0 <= i < j < |AllGenres| :: AllGenres[i] != AllGenres[j]
  {
    assert AllGenres[0][0] == 'マ' && AllGenres[1][0] == '営' && AllGenres[2][0] == '採';
    assert AllGenres[3][0] == '組' && AllGenres[4][0] == '業' && AllGenres[5][0] == '法';
    assert AllGenres[6][0] == '身' && AllGenres[7][0] == 'メ';
  }

  /** Every genre is offered under exactly one of the two modes, and the two
      option lists together cover all genres. */
  lemma GenresPartitionedByMode(g: string)
    ensures g in AllGenres <==> g in GenreOptions(ModeOptions[0]) || g in GenreOptions(ModeOptions[1])
    ensures !(g in GenreOptions(ModeOptions[0]) && g in GenreOptions(ModeOptions[1]))
  {
    assert ModeOptions[1] != C.AnswerMode1 by {
      assert ModeOptions[1][0] == '健' && C.AnswerMode1[0] == '経';
    }
    assert AllGenres == AllGenres[..6] + AllGenres[6..];
    GenresDistinct();
  }

  /** The genre select box: it reads the current mode and stores the picked
      option of that mode in `mode_2`; nothing else changes. */
  function SelectGenre(s: SessionState, pick: nat): (r: SessionState)
    requires s.mode.Some? && pick < |GenreOptions(s.mode.value)|
    ensures r.mode2.Some? && r.mode2.value in GenreOptions(s.mode.value)
    ensures r.mode2.value in AllGenres
    ensures r.(mode2 := s.mode2) == s
  {
    assert forall g | g in GenreOptions(s.mode.value) :: g in AllGenres;
    s.(mode2 := Some(GenreOptions(s.mode.value)[pick]))
  }

  /** Change detection: reports a change exactly when the mode differs from
      the remembered one (an absent `previous_mode` counts as different),
      and in both cases leaves the current mode remembered. */
  function IsModeChanged(s: SessionState): (r: (bool, SessionState))
    requires s.mode.Some?
    ensures r.0 <==> s.previousMode != s.mode
    ensures r.1.previousMode == s.mode
    ensures r.1.(previousMode := s.previousMode) == s
  {
    if s.mode != s.previousMode then (true, s.(previousMode := s.mode)) else (false, s)
  }

  /** A change is reported once: asking again right away says "unchanged"
      and changes nothing. */
  lemma ModeChangeReportedOnce(s: SessionState)
    requires s.mode.Some?
    ensures !IsModeChanged(IsModeChanged(s).1).0
    ensures IsModeChanged(IsModeChanged(s).1).1 == IsModeChanged(s).1
  {
  }

  /** Clearing the conversation empties the log and nothing else. */
  function ClearConversationLog(s: SessionState): (r: SessionState)
    ensures r.messages == Some([])
    ensures r.(messages := s.messages) == s
  {
    s.(messages := Some([]))
  }

  /** Resetting the genre unsets `mode_2` and nothing else. */
  function ResetGenreSelection(s: SessionState): (r: SessionState)
    ensures r.mode2 == None
    ensures r.(mode2 := s.mode2) == s
  {
    s.(mode2 := None)
  }

  /** The mode radio button stores the chosen option in `mode`; nothing
      else changes. */
  function SelectMode(s: SessionState, choice: nat): (r: SessionState)
    requires choice < |ModeOptions|
    ensures r.mode == Some(ModeOptions[choice])
    ensures r.(mode := s.mode) == s
  {
    s.(mode := Some(ModeOptions[choice]))
  }

  /** How one run of the page's selection section ends: `st.rerun()` after a
      mode switch, or going on to the chat with the state reached. */
  datatype PageStep = Rerun(state: SessionState) | Proceed(state: SessionState)

  /** `str(e)` of the attribute lookup `cn.display_selected_filters`, which
      the components module does not define. */
  const MissingFiltersError: string := "module 'components' has no attribute 'display_selected_filters'"

  /** The selection section of the page as written: the mode and the genre
      are stored, then the page calls `display_selected_filters`, which the
      components module does not define. The lookup raises outside any
      `try`, so every run ends there with the error, before the change
      check; the session keeps the two selections written before it. */
  function SelectionSectionAsWritten(s: SessionState, choice: nat, pick: nat): (r: (SessionState, Result<PageStep>))
    requires choice < |ModeOptions| && pick < |GenreOptions(ModeOptions[choice])|
    ensures r.1 == Failure(MissingFiltersError)
    ensures r.0.mode == Some(ModeOptions[choice]) && r.0.mode2 == Some(GenreOptions(ModeOptions[choice])[pick])
    ensures r.0.(mode := s.mode, mode2 := s.mode2) == s
  {
    (SelectGenre(SelectMode(s, choice), pick), Failure(MissingFiltersError))
  }

  /** The change check and its reaction, after the mode and genre are
      stored. */
  function SelectionSectionRest(selected: SessionState): PageStep
    requires selected.mode.Some?
  {
    var (changed, remembered) := IsModeChanged(selected);
    if changed then Rerun(ResetGenreSelection(ClearConversationLog(remembered)))
    else Proceed(remembered)
  }

  /** The selection section without the undefined call: store the mode and
      the genre; on a mode switch clear the log and the genre and rerun,
      otherwise go on with the picked genre and the log untouched. */
  function SelectionSection(s: SessionState, choice: nat, pick: nat): (r: PageStep)
    requires choice < |ModeOptions| && pick < |GenreOptions(ModeOptions[choice])|
    ensures r.Rerun? <==> s.previousMode != Some(ModeOptions[choice])
    ensures r.state.mode == Some(ModeOptions[choice]) && r.state.previousMode == Some(ModeOptions[choice])
    ensures r.Rerun? ==> r.state.messages == Some([]) && r.state.mode2 == None
    ensures r.Proceed? ==> r.state.mode2 == Some(GenreOptions(ModeOptions[choice])[pick])
    ensures r.state.messages == s.messages || r.state.messages == Some([])
    ensures r.state.(mode := s.mode, mode2 := s.mode2, previousMode := s.previousMode, messages := s.messages) == s
  {
    SelectionSectionRest(SelectGenre(SelectMode(s, choice), pick))
  }

  /** As written, a mode switch is never acted on: the run raises before
      the change check, so the log survives and the switch stays
      unremembered, where the section without the undefined call clears the
      log and reruns. */
  lemma AsWrittenSwitchKeepsLog(s: SessionState, choice: nat, pick: nat)
    requires choice < |ModeOptions| && pick < |GenreOptions(ModeOptions[choice])|
    requires s.previousMode != Some(ModeOptions[choice]) && s.messages != Some([])
    ensures SelectionSectionAsWritten(s, choice, pick).0.messages == s.messages
    ensures SelectionSectionAsWritten(s, choice, pick).0.previousMode == s.previousMode
    ensures SelectionSection(s, choice, pick).Rerun?
    ensures SelectionSection(s, choice, pick).state.messages != s.messages
  {
  }

  /** A mode switch reruns the page, and the rerun, with the same mode and
      a fresh genre pick, goes on to the chat with no conversation left: the
      next agent input has no history block, and its header names the new
      mode and the genre just picked. */
  lemma ModeSwitchStartsFreshContext(s: SessionState, choice: nat, pick: nat, pick2: nat,
                                     chatMessage: string, maxTurns: int)
    requires choice < |ModeOptions|
    requires pick < |GenreOptions(ModeOptions[choice])| && pick2 < |GenreOptions(ModeOptions[choice])|
    requires s.previousMode != Some(ModeOptions[choice])
    ensures SelectionSection(s, choice, pick).Rerun?
    ensures
      var next := SelectionSection(SelectionSection(s, choice, pick).state, choice, pick2);
      && next.Proceed?
      && Utils.ConversationalInput(chatMessage, maxTurns, next.state)
        == Utils.Section(Utils.Header(Some(ModeOptions[choice]), Some(GenreOptions(ModeOptions[choice])[pick2])))
           + Utils.UserLine(chatMessage)
  {
    var next := SelectionSection(SelectionSection(s, choice, pick).state, choice, pick2);
    assert Utils.SessionHistory(next.state) == [];
    assert Utils.HistoryBlock(Utils.RecentWindow([], maxTurns)) == "";
  }
}
