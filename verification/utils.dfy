/** Helpers outside the display layer (utils.py): the source icon, the error
    message builder, the conversational context handed to the agent, the
    extraction of the agent's answer, and the Wikipedia search tool. */
module Utils {
  import opened Wrappers
  import opened Strings
  import C = Constants
  import opened Session

  // ---------------------------------------------------------------------
  // Icons and error messages
  // ---------------------------------------------------------------------

  /** A web source (anything starting with "http") gets the link icon, any
      other source the document icon. */
  function SourceIcon(source: string): (icon: string)
    ensures icon == C.LinkSourceIcon <==> StartsWith(source, "http")
    ensures icon == C.DocSourceIcon <==> !StartsWith(source, "http")
  {
    if StartsWith(source, "http") then C.LinkSourceIcon else C.DocSourceIcon
  }

  /** The message, a newline, then the "contact the administrator" line. */
  function BuildErrorMessage(message: string): (r: string)
    ensures StartsWith(r, message)
    ensures EndsWith(r, "\n" + C.CommonErrorMessage)
    ensures |r| == |message| + 1 + |C.CommonErrorMessage|
  {
    JoinTwo(message, C.CommonErrorMessage, "\n");
    Join([message, C.CommonErrorMessage], "\n")
  }

  // ---------------------------------------------------------------------
  // Conversational context
  // ---------------------------------------------------------------------

  /** How many recent pairs the only caller asks for (the default argument). */
  const DefaultMaxTurns: int := 4

  datatype Role = User | Assistant

  /** A chat turn that made it into the history. */
  datatype Turn = Turn(role: Role, text: string)

  /** Python truthiness of an optional string attribute. */
  predicate Truthy(o: Option<string>) {
    o.Some? && o.value != ""
  }

  function ModeTag(mode: string): string {
    "[お悩み種別: " + mode + "]"
  }

  function GenreTag(genre: string): string {
    "[選択ジャンル: " + genre + "]"
  }

  /** The header names the mode, then the genre, each only when set and
      non-empty, one per line. */
  function Header(mode: Option<string>, mode2: Option<string>): (h: string)
    ensures !Truthy(mode) && !Truthy(mode2) ==> h == ""
    ensures Truthy(mode) && !Truthy(mode2) ==> h == ModeTag(mode.value)
    ensures !Truthy(mode) && Truthy(mode2) ==> h == GenreTag(mode2.value)
    ensures Truthy(mode) && Truthy(mode2) ==> h == ModeTag(mode.value) + "\n" + GenreTag(mode2.value)
  {
    var parts := (if Truthy(mode) then [ModeTag(mode.value)] else [])
      + (if Truthy(mode2) then [GenreTag(mode2.value)] else []);
    JoinTwo(ModeTag(mode.GetOr("")), GenreTag(mode2.GetOr("")), "\n");
    assert Truthy(mode) && Truthy(mode2) ==> parts == [ModeTag(mode.value), GenreTag(mode2.value)];
    if |parts| > 0 then Join(parts, "\n") else ""
  }

  /** A logged message enters the history when its role is "user" or
      "assistant" and its content is a string. */
  function TurnOf(m: Message): seq<Turn> {
    match m
    case NotADict => []
    case Message(role, content) =>
      if role == Some("user") && content.Text? then [Turn(User, content.text)]
      else if role == Some("assistant") && content.Text? then [Turn(Assistant, content.text)]
      else []
  }

  /** The accepted turns of a log, in log order. */
  function History(messages: seq<Message>): seq<Turn> {
    if |messages| == 0 then []
    else History(messages[..|messages| - 1]) + TurnOf(messages[|messages| - 1])
  }

  /** History of the session's `messages`, or nothing when the key is absent. */
  function SessionHistory(s: SessionState): seq<Turn> {
    if s.messages.Some? then History(s.messages.value) else []
  }

  /** History is computed message by message: it distributes over
      concatenation of logs, so it keeps log order and drops nothing but the
      messages `TurnOf` rejects. */
  lemma {:induction false} HistoryDistributes(a: seq<Message>, b: seq<Message>)
    ensures History(a + b) == History(a) + History(b)
    decreases |b|
  {
    if |b| == 0 {
      assert a + b == a;
    } else {
      var b' := b[..|b| - 1];
      var last := b[|b| - 1];
      assert (a + b)[..|a + b| - 1] == a + b';
      assert (a + b)[|a + b| - 1] == last;
      calc {
        History(a + b);
        History(a + b') + TurnOf(last);
        { HistoryDistributes(a, b'); }
        History(a) + History(b') + TurnOf(last);
        History(a) + History(b);
      }
    }
  }

  /** A log whose every message is accepted yields exactly one turn per message. */
  lemma {:induction false} HistoryKeepsAcceptedMessages(ms: seq<Message>)
    requires forall i | 0 <= i < |ms| :: |TurnOf(ms[i])| == 1
    ensures |History(ms)| == |ms|
    ensures forall i | 0 <= i < |ms| :: History(ms)[i] == TurnOf(ms[i])[0]
  {
    if |ms| > 0 {
      HistoryKeepsAcceptedMessages(ms[..|ms| - 1]);
    }
  }

  /** The log as the chat page writes it: user messages carry their text,
      assistant messages carry the reply record. */
  predicate LoggedByPage(ms: seq<Message>) {
    forall i | 0 <= i < |ms| ::
      && ms[i].Message?
      && (|| (ms[i].role == Some("user") && ms[i].content.Text?)
          || (ms[i].role == Some("assistant") && ms[i].content.Reply?))
  }

  /** Because assistant content is a record rather than a string, on a log
      written by the page only user turns ever reach the history. */
  lemma {:induction false} AssistantRepliesNeverReachHistory(ms: seq<Message>)
    requires LoggedByPage(ms)
    ensures forall i | 0 <= i < |History(ms)| :: History(ms)[i].role == User
  {
    if |ms| > 0 {
      AssistantRepliesNeverReachHistory(ms[..|ms| - 1]);
    }
  }

  /** Python's `s[start:]` for any integer `start`. */
  function SliceFrom<T>(s: seq<T>, start: int): seq<T> {
    var k := if start < 0 then start + |s| else start;
    s[if k < 0 then 0 else if k > |s| then |s| else k..]
  }

  /** The window as written, `history[-max_turns * 2:]`. */
  function WindowAsWritten(h: seq<Turn>, maxTurns: int): seq<Turn> {
    SliceFrom(h, -maxTurns * 2)
  }

  /** With `max_turns` = 0 the slice `history[-0:]` is the whole history,
      not the empty one the parameter asks for; with a negative count `-k`
      the slice `history[2k:]` drops only the first `2k` entries. */
  lemma ZeroTurnsKeepsWholeHistory(h: seq<Turn>, maxTurns: int)
    ensures WindowAsWritten(h, 0) == h
    ensures maxTurns < 0 ==> WindowAsWritten(h, maxTurns) == h[if -2 * maxTurns < |h| then -2 * maxTurns else |h|..]
    ensures maxTurns <= 0 ==> RecentWindow(h, maxTurns) == []
  {
    assert WindowAsWritten(h, 0) == SliceFrom(h, 0) == h[0..] == h;
  }

  /** The intended window: the last `2 * maxTurns` entries (entries, not
      aligned pairs), and none when `maxTurns` is not positive. */
  function RecentWindow(h: seq<Turn>, maxTurns: int): (w: seq<Turn>)
    ensures maxTurns <= 0 ==> w == []
    ensures maxTurns > 0 ==> |w| == if |h| < 2 * maxTurns then |h| else 2 * maxTurns
    ensures w == h[|h| - |w|..]
  {
    if maxTurns <= 0 then [] else WindowAsWritten(h, maxTurns)
  }

  /** For every positive turn count the code as written already keeps the
      intended window. */
  lemma WindowAsWrittenAgrees(h: seq<Turn>, maxTurns: int)
    requires maxTurns > 0
    ensures WindowAsWritten(h, maxTurns) == RecentWindow(h, maxTurns)
  {
  }

  function RenderTurn(t: Turn): string {
    (if t.role == User then "ユーザー:" else "アシスタント:") + " " + t.text
  }

  /** The rendered history lines, one per turn, newline-separated. */
  function HistoryBlock(turns: seq<Turn>): string {
    var lines := seq(|turns|, i requires 0 <= i < |turns| => RenderTurn(turns[i]));
    if |lines| > 0 then Join(lines, "\n") else ""
  }

  function UserLine(chatMessage: string): string {
    "ユーザー: " + chatMessage
  }

  /** The sections of the input with the empty ones dropped. */
  function NonEmpty(parts: seq<string>): (kept: seq<string>)
    ensures forall i | 0 <= i < |kept| :: kept[i] != ""
  {
    if |parts| == 0 then []
    else NonEmpty(parts[..|parts| - 1]) + (if parts[|parts| - 1] != "" then [parts[|parts| - 1]] else [])
  }

  /** A section followed by its blank-line separator, or nothing. */
  function Section(text: string): string {
    if text == "" then "" else text + "\n\n"
  }

  /** The agent's input: header, recent history and the new user line, the
      non-empty ones separated by blank lines. It always ends with the user
      line, never has an empty section or a dangling separator, and is the
      bare user line when there is neither header nor history. */
  function ConversationalInput(chatMessage: string, maxTurns: int, s: SessionState): (r: string)
    ensures r == Section(Header(s.mode, s.mode2))
      + Section(HistoryBlock(RecentWindow(SessionHistory(s), maxTurns)))
      + UserLine(chatMessage)
    ensures EndsWith(r, UserLine(chatMessage))
    ensures !Truthy(s.mode) && !Truthy(s.mode2) && RecentWindow(SessionHistory(s), maxTurns) == []
      ==> r == UserLine(chatMessage)
  {
    var header := Header(s.mode, s.mode2);
    var block := HistoryBlock(RecentWindow(SessionHistory(s), maxTurns));
    var line := UserLine(chatMessage);
    assert line != "" by { assert line[0] == 'ユ'; }
    SectionsJoin(header, block, line);
    Join(NonEmpty([header, block, line]), "\n\n")
  }

  /** Dropping the empty sections and joining the rest with blank lines is
      the same as giving each non-empty section its own trailing separator. */
  lemma SectionsJoin(header: string, block: string, line: string)
    requires line != ""
    ensures Join(NonEmpty([header, block, line]), "\n\n") == Section(header) + Section(block) + line
  {
    var parts := [header, block, line];
    assert NonEmpty(parts[..1]) == if header != "" then [header] else [] by {
      assert parts[..1][..0] == [];
    }
    assert NonEmpty(parts[..2]) == NonEmpty(parts[..1]) + if block != "" then [block] else [] by {
      assert parts[..2][..1] == parts[..1];
    }
    assert NonEmpty(parts) == NonEmpty(parts[..2]) + [line] by {
      assert parts[..3 - 1] == parts[..2];
    }
    if header == "" && block == "" {
      assert NonEmpty(parts) == [line];
    } else if header == "" {
      assert NonEmpty(parts) == [block, line];
      JoinTwo(block, line, "\n\n");
    } else if block == "" {
      assert NonEmpty(parts) == [header, line];
      JoinTwo(header, line, "\n\n");
    } else {
      assert NonEmpty(parts) == [header, block, line];
      JoinThree(header, block, line, "\n\n");
    }
  }

  /** No mode, no genre, no log: the input is the bare user line. */
  lemma BareQuestion()
    ensures ConversationalInput("質問", DefaultMaxTurns, FreshSession) == "ユーザー: 質問"
  {
    assert SessionHistory(FreshSession) == [];
    assert Header(None, None) == "";
    assert HistoryBlock(RecentWindow([], DefaultMaxTurns)) == "";
  }

  /** For any texts: with a mode, a genre and one
      user/assistant pair of strings in the log, the input is the two header
      lines, a blank line, the two history lines, a blank line and the
      question. */
  lemma ModeGenreAndOnePair(mode: string, genre: string, asked: string, answered: string, question: string)
    requires mode != "" && genre != ""
    ensures
      var s := FreshSession.(
        mode := Some(mode),
        mode2 := Some(genre),
        messages := Some([Message(Some("user"), Text(asked)), Message(Some("assistant"), Text(answered))]));
      ConversationalInput(question, DefaultMaxTurns, s)
        == ModeTag(mode) + "\n" + GenreTag(genre)
           + "\n\n" + RenderTurn(Turn(User, asked)) + "\n" + RenderTurn(Turn(Assistant, answered))
           + "\n\n" + UserLine(question)
  {
    var line := UserLine(question);
    var ms := [Message(Some("user"), Text(asked)), Message(Some("assistant"), Text(answered))];
    var s := FreshSession.(mode := Some(mode), mode2 := Some(genre), messages := Some(ms));
    PairSections(s, mode, genre, asked, answered, question);
    TwoSections(ModeTag(mode), GenreTag(genre), RenderTurn(Turn(User, asked)), RenderTurn(Turn(Assistant, answered)), line);
  }

  /** The sections of that session: the two-line header and the one-pair
      block. */
  lemma PairSections(s: SessionState, mode: string, genre: string, asked: string, answered: string, question: string)
    requires mode != "" && genre != ""
    requires s == FreshSession.(
        mode := Some(mode),
        mode2 := Some(genre),
        messages := Some([Message(Some("user"), Text(asked)), Message(Some("assistant"), Text(answered))]))
    ensures ConversationalInput(question, DefaultMaxTurns, s)
      == Section(ModeTag(mode) + "\n" + GenreTag(genre))
         + Section(RenderTurn(Turn(User, asked)) + "\n" + RenderTurn(Turn(Assistant, answered)))
         + UserLine(question)
  {
    assert Header(s.mode, s.mode2) == ModeTag(mode) + "\n" + GenreTag(genre);
    assert SessionHistory(s) == History(s.messages.value);
    OnePairBlock(asked, answered);
  }

  /** Two two-line sections before the user line each bring their blank
      line. */
  lemma TwoSections(a: string, b: string, c: string, d: string, line: string)
    ensures Section(a + "\n" + b) + Section(c + "\n" + d) + line
      == a + "\n" + b + "\n\n" + c + "\n" + d + "\n\n" + line
  {
    assert a + "\n" + b != "" && c + "\n" + d != "";
  }

  /** A log of one user and one assistant string renders as those two
      lines, in that order. */
  lemma OnePairBlock(asked: string, answered: string)
    ensures
      var ms := [Message(Some("user"), Text(asked)), Message(Some("assistant"), Text(answered))];
      HistoryBlock(RecentWindow(History(ms), DefaultMaxTurns))
        == RenderTurn(Turn(User, asked)) + "\n" + RenderTurn(Turn(Assistant, answered))
  {
    var h := [Turn(User, asked), Turn(Assistant, answered)];
    PairHistory(asked, answered);
    assert RecentWindow(h, DefaultMaxTurns) == h by {
      assert |RecentWindow(h, DefaultMaxTurns)| == 2;
    }
    TwoLineBlock(Turn(User, asked), Turn(Assistant, answered));
  }

  /** A user string and an assistant string give one turn each, in order. */
  lemma PairHistory(asked: string, answered: string)
    ensures History([Message(Some("user"), Text(asked)), Message(Some("assistant"), Text(answered))])
      == [Turn(User, asked), Turn(Assistant, answered)]
  {
    var ms := [Message(Some("user"), Text(asked)), Message(Some("assistant"), Text(answered))];
    assert ms[..1] == [Message(Some("user"), Text(asked))];
    assert ms[..1][..0] == [];
    assert TurnOf(ms[1]) == [Turn(Assistant, answered)] by {
      assert "assistant"[0] != "user"[0];
    }
    assert History(ms[..1]) == [Turn(User, asked)];
    assert History(ms) == History(ms[..1]) + TurnOf(ms[1]);
  }

  /** Two turns render as two lines. */
  lemma TwoLineBlock(t0: Turn, t1: Turn)
    ensures HistoryBlock([t0, t1]) == RenderTurn(t0) + "\n" + RenderTurn(t1)
  {
    var h := [t0, t1];
    var lines := seq(|h|, i requires 0 <= i < |h| => RenderTurn(h[i]));
    assert lines == [RenderTurn(t0), RenderTurn(t1)];
    JoinTwo(RenderTurn(t0), RenderTurn(t1), "\n");
  }

  // ---------------------------------------------------------------------
  // Agent answer extraction
  // ---------------------------------------------------------------------

  /** The dict `AgentExecutor.invoke` returns; `output` may be missing. */
  datatype AgentResult = AgentResult(input: string, output: Option<string>)

  /** What `get_llm_response` hands to the display: the output string, or
      the whole result dict when it has no output, or any other value
      (shown through its `str`). */
  datatype LlmResponse =
    | TextResponse(text: string)
    | DictResponse(result: AgentResult)
    | OtherResponse(repr: string)

  /** `result.get("output", result)`. */
  function ExtractOutput(result: AgentResult): (r: LlmResponse)
    ensures r.TextResponse? <==> result.output.Some?
    ensures r.TextResponse? ==> r.text == result.output.value
    ensures result.output.None? ==> r == DictResponse(result)
  {
    if result.output.Some? then TextResponse(result.output.value) else DictResponse(result)
  }

  /** Ask the agent (`invoke`, which may raise) with the conversational input
      built from the session, and extract its answer. A failure of the agent
      propagates unchanged to the caller. */
  function GetLlmResponse(chatMessage: string, s: SessionState, invoke: string -> Result<AgentResult>)
    : (r: Result<LlmResponse>)
    ensures var out := invoke(ConversationalInput(chatMessage, DefaultMaxTurns, s));
      && (r.Failure? <==> out.Failure?)
      && (out.Failure? ==> r.error == out.error)
      && (out.Success? ==> r.value == ExtractOutput(out.value))
  {
    var out := invoke(ConversationalInput(chatMessage, DefaultMaxTurns, s));
    match out
    case Failure(e) => Failure(e)
    case Success(result) => Success(ExtractOutput(result))
  }

  // ---------------------------------------------------------------------
  // Wikipedia search tool
  // ---------------------------------------------------------------------

  /** One search hit; its `title` may be missing or empty. */
  datatype Hit = Hit(title: Option<string>)

  /** `data["query"]["search"]`, an absent key read as the empty list. */
  datatype SearchReply = SearchReply(hits: seq<Hit>)

  /** The summary API's `extract` and `content_urls.desktop.page`. */
  datatype SummaryReply = SummaryReply(extract: Option<string>, pageUrl: Option<string>)

  /** The two HTTP round trips (each may raise, e.g. on a non-2xx status or
      invalid JSON) and URL quoting, all outside the model. */
  datatype WikipediaApi = WikipediaApi(
    search: string -> Result<SearchReply>,
    summary: string -> Result<SummaryReply>,
    quote: string -> string)

  const WikipediaHeading: string := "【Wikipedia】"
  const NoExtract: string := "概要が取得できませんでした。"

  function NotFoundMessage(query: string): string {
    "Wikipediaで該当記事が見つかりませんでした: " + query
  }

  function NoTitleMessage(query: string): string {
    "Wikipedia検索結果の取得に失敗しました: " + query
  }

  function WikipediaErrorMessage(error: string): string {
    "Wikipedia検索中にエラーが発生しました: " + error
  }

  function FallbackPageUrl(quotedTitle: string): string {
    "https://ja.wikipedia.org/wiki/" + quotedTitle
  }

  function WikipediaCitation(title: string, extract: string, url: string): string {
    WikipediaHeading + title + "\n" + extract + "\n\nURL: " + url
  }

  /** The search succeeded and its top hit has a title. */
  predicate TitleFound(query: string, api: WikipediaApi) {
    var found := api.search(query);
    && found.Success?
    && |found.value.hits| > 0
    && Truthy(found.value.hits[0].title)
  }

  /** ... and the summary of that article arrived. */
  predicate ArticleFound(query: string, api: WikipediaApi) {
    && TitleFound(query, api)
    && api.summary(api.search(query).value.hits[0].title.value).Success?
  }

  /** The tool never raises: every failure becomes a message. No hit gives
      the not-found message, a missing title the failure message, any raised
      error the error message; otherwise the citation of the top hit, with
      the fixed fallback for a missing extract and the `/wiki/` URL for a
      missing page URL. */
  function RunWikipediaSearch(query: string, api: WikipediaApi): (r: string)
    ensures api.search(query).Failure? ==> r == WikipediaErrorMessage(api.search(query).error)
    ensures api.search(query).Success? && |api.search(query).value.hits| == 0 ==> r == NotFoundMessage(query)
    ensures (api.search(query).Success? && |api.search(query).value.hits| > 0
      && !Truthy(api.search(query).value.hits[0].title)) ==> r == NoTitleMessage(query)
    ensures TitleFound(query, api) ==>
      var title := api.search(query).value.hits[0].title.value;
      var summary := api.summary(title);
      || (summary.Failure? && r == WikipediaErrorMessage(summary.error))
      || (summary.Success? && r == WikipediaCitation(
            title,
            if Truthy(summary.value.extract) then summary.value.extract.value else NoExtract,
            if Truthy(summary.value.pageUrl) then summary.value.pageUrl.value else FallbackPageUrl(api.quote(title))))
  {
    match api.search(query)
    case Failure(e) => WikipediaErrorMessage(e)
    case Success(data) =>
      if |data.hits| == 0 then NotFoundMessage(query)
      else if !Truthy(data.hits[0].title) then NoTitleMessage(query)
      else
        var title := data.hits[0].title.value;
        match api.summary(title)
        case Failure(e) => WikipediaErrorMessage(e)
        case Success(sdata) =>
          var extract := if Truthy(sdata.extract) then sdata.extract.value else NoExtract;
          var url := if Truthy(sdata.pageUrl) then sdata.pageUrl.value else FallbackPageUrl(api.quote(title));
          WikipediaCitation(title, extract, url)
  }

  /** The answer is a citation exactly when an article was found and its
      summary fetched: none of the three failure messages can be mistaken
      for one. */
  lemma CitationIffArticleFound(query: string, api: WikipediaApi)
    ensures StartsWith(RunWikipediaSearch(query, api), WikipediaHeading) <==> ArticleFound(query, api)
  {
    var r := RunWikipediaSearch(query, api);
    if !ArticleFound(query, api) {
      assert r[0] == 'W';
      assert WikipediaHeading[0] == '【';
    } else {
      var title := api.search(query).value.hits[0].title.value;
      assert api.summary(title).Success?;
      assert r[..|WikipediaHeading|] == WikipediaHeading;
    }
  }
}
