/** The data the core shares: documents and the vector store, the chat log as
    the page stores it, the agent's configuration, and the per-session state
    Streamlit keeps between reruns, as a record of optional fields. */
module Session {
  import opened Wrappers

  /** A parsed PDF page or a chunk of one (a LangChain `Document`); only the
      text is ever read, the page number is carried along as metadata. */
  datatype Document = Document(pageContent: string, page: nat)

  /** A FAISS vector store, seen only through the chunks it indexes, in the
      order they were added. Embeddings are not modelled. */
  datatype Store = Store(docs: seq<Document>)

  /** The record the answer display returns and the page logs as an
      assistant message: `{"mode": ..., "answer": ...}`. */
  datatype ContactReply = ContactReply(mode: string, answer: string)

  /** The `content` of a logged message: a string (user turns), the reply
      record (assistant turns), or anything else (missing, `None`, ...). */
  datatype Content = Text(text: string) | Reply(reply: ContactReply) | NoText

  /** One entry of `messages`: a dict with an optional string `role`, or
      some value that is not a dict at all. */
  datatype Message = Message(role: Option<string>, content: Content) | NotADict

  /** The seven template-advisory tools. */
  datatype Advisor =
    | Marketing
    | Sales
    | Recruitment
    | Organizational
    | BusinessImprovement
    | PhysicalHealth
    | MentalHealth

  /** What a catalogue entry calls when the agent picks it. */
  datatype Handler =
    | AdviceTool(advisor: Advisor)
    | CompanyLawTool
    | WebSearchTool
    | WikipediaTool

  /** A LangChain `Tool`: name, description for the agent, and callable. */
  datatype ToolSpec = ToolSpec(name: string, description: string, handler: Handler)

  /** The configuration handed to `initialize_agent`; the agent loop itself
      belongs to a library and is not modelled. */
  datatype AgentExecutor = AgentExecutor(
    tools: seq<ToolSpec>,
    model: string,
    maxIterations: nat,
    agentType: string,
    earlyStoppingMethod: string,
    handleParsingErrors: bool)

  /** `st.session_state`, one field per key the core reads or writes; `None`
      means the key is absent. For `vectorStore` the inner option is the
      stored value, so `Some(None)` is a key holding Python `None`. `mode2`
      merges "absent" and `None`: both are falsy and neither is ever shown. */
  datatype SessionState = SessionState(
    messages: Option<seq<Message>>,
    chatHistory: Option<seq<Message>>,
    sessionId: Option<string>,
    vectorStore: Option<Option<Store>>,
    agentExecutor: Option<AgentExecutor>,
    mode: Option<string>,
    mode2: Option<string>,
    previousMode: Option<string>)

  /** The state of a session nobody has touched yet. */
  const FreshSession: SessionState :=
    SessionState(None, None, None, None, None, None, None, None)
}
