/** The Telegram assistant: a per-chat session store (a defaultdict from chat
    id to UserData), the four message handlers that read and change it, and the
    replies they send, kept as an append-only log. Telegram, GigaChat and the
    answer chains are parameters: `Services` for the language-model calls,
    `Utils.Library` for building a vector store from an uploaded file. */
module Bot {
  import opened Common
  import Rag
  import Utils

  /** `Assistant.available_regimes`: the regimes the UserData constructor accepts. */
  const AvailableRegimes: map<string, string> := map[
    "chat" := "Можно поболтать с ассистентом.",
    "question" := "Можно задавать вопросы по статье.",
    "rebuttal" := "Можно проверить корректность рецензии на статью.",
    "paraphrase" := "Можно перефразировать свой не очень хорошо написанный текст на литературный лад."
  ]

  /** The regimes the command handler writes. "review" is among them although
      the constructor would refuse it; "rebuttal" is not. */
  const SettableRegimes: set<string> := {"chat", "question", "review", "paraphrase"}

  /** The regimes whose handlers need an uploaded document. */
  const DocumentRegimes: seq<string> := ["question", "review"]

  /** Search width of the retriever built for an upload. */
  const RetrieverK: nat := 5

  const HelpReply: string := "/clear - Удалить файл."
  const ClearedReply: string := "Единственный достоверный источник уничтожен! Загрузите новый."
  const NothingToClearReply: string := "У вас отсутствует всякая связь с предками. Немедленно восстановите ее!"
  const BuildingReply: string := "Строю эмбеддинги для файла... ((⇀‸↼))"
  const ReadyReply: string := "Я жажду служить!\nВнемлю вашему вопросу."
  const UploadFailedReply: string := "Проблемы с ГигаЧатом, попробуйте еще раз."
  const NoDocumentReply: string := "Где текст статьи, Билли?"
  const QuestionPreface: string := "Секунду... *убегает читать статью*"
  const ReviewPreface: string := "Сейчас разберём по пунктам, что тут написано."
  const ParaphrasePreface: string := "*Надевает монокль*"
  const ServiceFailedReply: string := "Какие-то проблемы с ГигаЧатом, попробуйте еще раз."

  /** The memory objects that exist: the single ConversationBufferMemory made
      when the constructor's default argument was evaluated, and the one the
      ConversationChain was created with. */
  datatype MemoryRef = DefaultArgumentMemory | ChainInitialMemory

  /** One message of a conversation memory. */
  datatype Turn = Human(content: string) | Ai(content: string)

  /** `Assistant.UserData`. */
  datatype UserData = UserData(regime: string, vectorStore: Option<VectorStore>,
                               retriever: Option<Retriever>, memory: MemoryRef)

  /** The `conversations[user_id]` record `/clear` writes. */
  datatype ConversationRecord = ConversationRecord(conversations: seq<string>, responses: seq<string>)

  /** An incoming Telegram message: the chat it came from and its text. */
  datatype Message = Message(chatId: int, text: string)

  /** A sent reply: `reply_to(message, text)` or `send_message(chat_id, text)`. */
  datatype Outgoing = ReplyTo(chatId: int, text: string) | SendMessage(chatId: int, text: string)

  /** The language-model pipelines the message handler calls. Each may raise.
      A handler receives the services for the one message it handles. Within
      that message only the answer chain runs more than once (once per statement
      of a review), so retrieval and generation also take the ordinal of the
      chain invocation: the same statement asked twice may fare differently. */
  datatype Services = Services(
    predict: (seq<Turn>, string) -> Result<string>,          // ConversationChain.predict on a memory's history
    retrieve: (nat, Retriever, string) -> Result<seq<Document>>,    // the retriever, invoked on a question
    generate: (nat, Rag.Prompt, string, string) -> Result<string>, // prompt | model | StrOutputParser on question and context
    breakdown: string -> Result<seq<string>>,                // breakdown prompt | model | ListOutputParser
    paraphrase: string -> Result<string>)                    // paraphrase prompt | model | StrOutputParser

  /** `Assistant.UserData(regime, vector_store, retriever, memory)`. */
  function NewUserData(regime: string, vectorStore: Option<VectorStore>, retriever: Option<Retriever>,
                       memory: MemoryRef): (r: Result<UserData>)
    ensures r.Ok? <==> regime in AvailableRegimes
    ensures r.Ok? ==> r.value.regime == regime && r.value.vectorStore == vectorStore &&
                      r.value.retriever == retriever && r.value.memory == memory
    ensures r.Err? ==> r.error == NotImplementedError("Режим " + regime + " пока недоступен")
  {
    if regime !in AvailableRegimes then Err(NotImplementedError("Режим " + regime + " пока недоступен"))
    else Ok(UserData(regime, vectorStore, retriever, memory))
  }

  /** `Assistant.UserData()`: every argument at its default. Python evaluates the
      default memory once, so every default session gets the same memory object. */
  function DefaultUserData(): (u: UserData)
    ensures NewUserData("chat", None, None, DefaultArgumentMemory) == Ok(u)
    ensures u.regime == "chat" && u.vectorStore == None && u.retriever == None
    ensures u.memory == DefaultArgumentMemory
  {
    NewUserData("chat", None, None, DefaultArgumentMemory).value
  }

  /** `users_data[chat_id]` on the defaultdict: the stored session, or a default one. */
  function SessionOf(users: map<int, UserData>, chatId: int): (u: UserData)
    ensures chatId !in users ==> u == DefaultUserData() && u.regime == "chat" && u.retriever == None
    ensures chatId in users ==> u == users[chatId]
  {
    if chatId in users then users[chatId] else DefaultUserData()
  }

  /** The sessions that the handlers can produce. */
  predicate Reachable(u: UserData) {
    && u.regime in SettableRegimes
    && u.memory == DefaultArgumentMemory
    && (u.vectorStore.Some? <==> u.retriever.Some?)
    && (u.retriever.Some? ==> u.retriever.value == AsRetriever(u.vectorStore.value, RetrieverK))
  }

  /** "review" can be reached through `/review` but is refused by the constructor;
      "rebuttal" is accepted by the constructor but no command sets it. */
  lemma RegimeSetsDisagree(vectorStore: Option<VectorStore>, retriever: Option<Retriever>, memory: MemoryRef)
    ensures NewUserData("review", vectorStore, retriever, memory).Err?
    ensures "review" in SettableRegimes && "review" !in AvailableRegimes
    ensures "rebuttal" in AvailableRegimes && "rebuttal" !in SettableRegimes
    ensures forall u :: Reachable(u) ==> u.regime != "rebuttal"
  {
  }

  /** What a command of the regime handler does: its reply and the regime it sets. */
  datatype Switch = Switch(reply: string, regime: string)

  /** The prefix tests of `changer`, in order. */
  function ChangerCommand(text: string): (r: Option<Switch>)
    ensures r.Some? ==> r.value.regime in SettableRegimes && StartsWith(text, "/" + r.value.regime)
    ensures r.None? <==> forall regime | regime in SettableRegimes :: !StartsWith(text, "/" + regime)
  {
    if StartsWith(text, "/chat") then Some(Switch("Мяу! ( ^..^)ﾉ", "chat"))
    else if StartsWith(text, "/question") then
      Some(Switch("Вас приветствует ИИ-протоколист.\nЗадавайте свои ответы.", "question"))
    else if StartsWith(text, "/review") then
      Some(Switch("Вас приветствует ИИ-ревьюер.\nНу, давай, нападай!", "review"))
    else if StartsWith(text, "/paraphrase") then Some(Switch("Вас приветствует ИИ-парафразер", "paraphrase"))
    else
      assert "/" + "chat" == "/chat" && "/" + "question" == "/question";
      assert "/" + "review" == "/review" && "/" + "paraphrase" == "/paraphrase";
      None
  }

  /** No command is a prefix of another, so at most one prefix test can succeed:
      the order of the tests does not matter and the chosen regime is the only match. */
  lemma ChangerCommandUnique(text: string, regime: string)
    requires regime in SettableRegimes && StartsWith(text, "/" + regime)
    ensures ChangerCommand(text).Some? && ChangerCommand(text).value.regime == regime
  {
    // The commands already differ in their first letter after the slash.
    var r := ChangerCommand(text).value.regime;
    assert text[1] == ("/" + r)[1] == r[0] by { assert text[..|"/" + r|] == "/" + r; }
    assert text[1] == ("/" + regime)[1] == regime[0] by { assert text[..|"/" + regime|] == "/" + regime; }
  }

  /** `get_user_file_path`: `downloads_path / str(chat_id)`. */
  function UserFilePath(downloads: Path, chatId: int): (p: Path)
    ensures |p.parts| == |downloads.parts| + 1 && p.parts[..|downloads.parts|] == downloads.parts
    ensures ParseInt(p.parts[|downloads.parts|]) == chatId
  {
    IntRoundTrip(chatId);
    downloads.Join(IntToStr(chatId))
  }

  /** Different chats never share a download file. */
  lemma UserFilePathInjective(downloads: Path, a: int, b: int)
    ensures UserFilePath(downloads, a) == UserFilePath(downloads, b) <==> a == b
  {
    if UserFilePath(downloads, a) == UserFilePath(downloads, b) {
      assert UserFilePath(downloads, a).parts[|downloads.parts|] == UserFilePath(downloads, b).parts[|downloads.parts|];
    }
  }

  /** The answer of the `call`-th invocation of the rebuttal chain, on one statement. */
  function RebuttalAnswer(retriever: Retriever, svc: Services, call: nat, statement: string): (r: Result<string>)
    ensures svc.retrieve(call, retriever, statement).Err? ==> r.Err?
    ensures r.Ok? ==> svc.retrieve(call, retriever, statement).Ok?
    ensures r.Ok? ==> r == svc.generate(call, Rag.Prompts["rebuttal"], statement,
                                        Rag.FormatSnippets(svc.retrieve(call, retriever, statement).value))
  {
    var out :- Rag.Call(Some(Rag.Prompts["rebuttal"]), retriever, statement, call, svc.retrieve, svc.generate);
    Ok(out.answer)
  }

  function Quote(statement: string, answer: string): string {
    "> " + statement + "\n" + answer
  }

  /** The replies of the review loop: one quote per statement, in order, until
      the first statement whose chain raises; that ends the loop with the
      generic failure reply of the surrounding handler. The statements are the
      chain invocations `first`, `first + 1`, ... of the message. */
  function Rebuttals(chatId: int, statements: seq<string>, retriever: Retriever, svc: Services, first: nat)
    : (r: seq<Outgoing>)
    ensures statements == [] <==> r == []
    ensures |r| <= |statements|
    ensures forall i :: 0 <= i < |r| ==> r[i].ReplyTo? && r[i].chatId == chatId
    decreases |statements|
  {
    if statements == [] then []
    else match RebuttalAnswer(retriever, svc, first, statements[0])
      case Err(_) => [ReplyTo(chatId, ServiceFailedReply)]
      case Ok(answer) =>
        [ReplyTo(chatId, Quote(statements[0], answer))] + Rebuttals(chatId, statements[1..], retriever, svc, first + 1)
  }

  /** An answered first statement is quoted, and the rest of the statements are the following calls. */
  lemma RebuttalsStep(chatId: int, statements: seq<string>, retriever: Retriever, svc: Services, first: nat)
    requires statements != [] && RebuttalAnswer(retriever, svc, first, statements[0]).Ok?
    ensures Rebuttals(chatId, statements, retriever, svc, first)
         == [ReplyTo(chatId, Quote(statements[0], RebuttalAnswer(retriever, svc, first, statements[0]).value))]
            + Rebuttals(chatId, statements[1..], retriever, svc, first + 1)
  {
  }

  /** The first n statements are answered. */
  predicate AnsweredUpTo(statements: seq<string>, retriever: Retriever, svc: Services, first: nat, n: nat) {
    n <= |statements| && forall i :: 0 <= i < n ==> RebuttalAnswer(retriever, svc, first + i, statements[i]).Ok?
  }

  /** The first n statements are answered, and the first n replies quote them with their answers. */
  predicate QuotesUpTo(replies: seq<Outgoing>, chatId: int, statements: seq<string>, retriever: Retriever,
                       svc: Services, first: nat, n: nat)
  {
    && AnsweredUpTo(statements, retriever, svc, first, n) && n <= |replies|
    && forall i :: 0 <= i < n ==>
         replies[i] == ReplyTo(chatId, Quote(statements[i], RebuttalAnswer(retriever, svc, first + i, statements[i]).value))
  }

  lemma AnsweredShift(statements: seq<string>, retriever: Retriever, svc: Services, first: nat, n: nat)
    requires 0 < n && AnsweredUpTo(statements, retriever, svc, first, n)
    ensures RebuttalAnswer(retriever, svc, first, statements[0]).Ok?
    ensures AnsweredUpTo(statements[1..], retriever, svc, first + 1, n - 1)
  {
    assert RebuttalAnswer(retriever, svc, first + 0, statements[0]).Ok?;
    forall i | 0 <= i < n - 1
      ensures RebuttalAnswer(retriever, svc, first + 1 + i, statements[1..][i]).Ok?
    {
      assert statements[1..][i] == statements[i + 1] && first + 1 + i == first + (i + 1);
    }
  }

  lemma QuotesShift(r: seq<Outgoing>, t: seq<Outgoing>, chatId: int, statements: seq<string>, retriever: Retriever,
                    svc: Services, first: nat, n: nat)
    requires 0 < n && AnsweredUpTo(statements, retriever, svc, first, n)
    requires r == [ReplyTo(chatId, Quote(statements[0], RebuttalAnswer(retriever, svc, first, statements[0]).value))] + t
    requires QuotesUpTo(t, chatId, statements[1..], retriever, svc, first + 1, n - 1)
    ensures QuotesUpTo(r, chatId, statements, retriever, svc, first, n)
  {
    forall i | 0 <= i < n
      ensures r[i] == ReplyTo(chatId, Quote(statements[i], RebuttalAnswer(retriever, svc, first + i, statements[i]).value))
    {
      if i > 0 {
        assert r[i] == t[i - 1] && statements[i] == statements[1..][i - 1] && first + i == first + 1 + (i - 1);
      }
    }
  }

  /** When every statement is answered there is exactly one reply per statement,
      quoting it and giving its answer, in statement order. */
  lemma {:induction false} RebuttalsAllAnswered(chatId: int, statements: seq<string>, retriever: Retriever,
                                                svc: Services, first: nat)
    requires forall i :: 0 <= i < |statements| ==> RebuttalAnswer(retriever, svc, first + i, statements[i]).Ok?
    ensures |Rebuttals(chatId, statements, retriever, svc, first)| == |statements|
    ensures forall i :: 0 <= i < |statements| ==>
      Rebuttals(chatId, statements, retriever, svc, first)[i]
        == ReplyTo(chatId, Quote(statements[i], RebuttalAnswer(retriever, svc, first + i, statements[i]).value))
  {
    AllAnswered(chatId, statements, retriever, svc, first);
  }

  lemma {:induction false} AllAnswered(chatId: int, statements: seq<string>, retriever: Retriever,
                                       svc: Services, first: nat)
    requires AnsweredUpTo(statements, retriever, svc, first, |statements|)
    ensures |Rebuttals(chatId, statements, retriever, svc, first)| == |statements|
    ensures QuotesUpTo(Rebuttals(chatId, statements, retriever, svc, first), chatId, statements, retriever, svc,
                       first, |statements|)
    decreases |statements|
  {
    if statements != [] {
      AnsweredShift(statements, retriever, svc, first, |statements|);
      AllAnswered(chatId, statements[1..], retriever, svc, first + 1);
      RebuttalsStep(chatId, statements, retriever, svc, first);
      QuotesShift(Rebuttals(chatId, statements, retriever, svc, first), Rebuttals(chatId, statements[1..], retriever, svc, first + 1),
                  chatId, statements, retriever, svc, first, |statements|);
    }
  }

  /** When statement k is the first whose chain raises, the first k quotes were
      sent and then the failure reply, and nothing after. */
  lemma {:induction false} RebuttalsStopAtFailure(chatId: int, statements: seq<string>, retriever: Retriever,
                                                  svc: Services, first: nat, k: nat)
    requires k < |statements| && RebuttalAnswer(retriever, svc, first + k, statements[k]).Err?
    requires forall i :: 0 <= i < k ==> RebuttalAnswer(retriever, svc, first + i, statements[i]).Ok?
    ensures |Rebuttals(chatId, statements, retriever, svc, first)| == k + 1
    ensures Rebuttals(chatId, statements, retriever, svc, first)[k] == ReplyTo(chatId, ServiceFailedReply)
    ensures forall i :: 0 <= i < k ==>
      Rebuttals(chatId, statements, retriever, svc, first)[i]
        == ReplyTo(chatId, Quote(statements[i], RebuttalAnswer(retriever, svc, first + i, statements[i]).value))
  {
    StopAtFailure(chatId, statements, retriever, svc, first, k);
  }

  lemma {:induction false} StopAtFailure(chatId: int, statements: seq<string>, retriever: Retriever,
                                         svc: Services, first: nat, k: nat)
    requires k < |statements| && RebuttalAnswer(retriever, svc, first + k, statements[k]).Err?
    requires AnsweredUpTo(statements, retriever, svc, first, k)
    ensures |Rebuttals(chatId, statements, retriever, svc, first)| == k + 1
    ensures Rebuttals(chatId, statements, retriever, svc, first)[k] == ReplyTo(chatId, ServiceFailedReply)
    ensures QuotesUpTo(Rebuttals(chatId, statements, retriever, svc, first), chatId, statements, retriever, svc, first, k)
    decreases k
  {
    if k == 0 {
      assert RebuttalAnswer(retriever, svc, first, statements[0]).Err?;
      assert Rebuttals(chatId, statements, retriever, svc, first) == [ReplyTo(chatId, ServiceFailedReply)];
    } else {
      var rest := statements[1..];
      AnsweredShift(statements, retriever, svc, first, k);
      assert rest[k - 1] == statements[k] && first + 1 + (k - 1) == first + k;
      StopAtFailure(chatId, rest, retriever, svc, first + 1, k - 1);
      RebuttalsStep(chatId, statements, retriever, svc, first);
      var r := Rebuttals(chatId, statements, retriever, svc, first);
      var t := Rebuttals(chatId, rest, retriever, svc, first + 1);
      assert |r| == k + 1 && r[k] == t[k - 1];
      QuotesShift(r, t, chatId, statements, retriever, svc, first, k);
    }
  }

  /** Each statement is its own call: a statement that appears twice in one
      review can be answered the first time and fail the second. */
  lemma RepeatedStatementCanFailLater(chatId: int, statement: string, retriever: Retriever)
    ensures exists svc: Services ::
      Rebuttals(chatId, [statement, statement], retriever, svc, 0)
        == [ReplyTo(chatId, Quote(statement, "yes")), ReplyTo(chatId, ServiceFailedReply)]
  {
    var svc := Services(
      (history, text) => Err(ServiceError),
      (call, r, question) => Ok([]),
      (call, p, question, context) => if call == 0 then Ok("yes") else Err(ServiceError),
      text => Err(ServiceError),
      text => Err(ServiceError));
    var statements := [statement, statement];
    assert RebuttalAnswer(retriever, svc, 0, statement) == Ok("yes");
    assert RebuttalAnswer(retriever, svc, 1, statement).Err?;
    assert statements[1..] == [statement] && statements[1..][1..] == [];
    assert Rebuttals(chatId, [statement], retriever, svc, 1) == [ReplyTo(chatId, ServiceFailedReply)];
    assert Rebuttals(chatId, statements, retriever, svc, 0)
      == [ReplyTo(chatId, Quote(statement, "yes")), ReplyTo(chatId, ServiceFailedReply)];
  }

  /** The guard of `echo_message`. */
  predicate MissingDocument(u: UserData) {
    u.regime in DocumentRegimes && u.retriever.None?
  }

  /** What the chat handler leaves in the memory: ConversationChain saves the
      exchange only when prediction succeeds. */
  function ChatMemory(history: seq<Turn>, text: string, svc: Services): (h: seq<Turn>)
    ensures svc.predict(history, text).Ok? ==>
      |h| == |history| + 2 && h[..|history|] == history &&
      h[|history|] == Human(text) && h[|history| + 1] == Ai(svc.predict(history, text).value)
    ensures svc.predict(history, text).Err? ==> h == history
  {
    match svc.predict(history, text)
    case Ok(answer) => history + [Human(text), Ai(answer)]
    case Err(_) => history
  }

  /** The replies `echo_message` sends for one message, given the session and
      the history of the session's memory. */
  function EchoReplies(u: UserData, chatId: int, text: string, history: seq<Turn>, svc: Services): (r: seq<Outgoing>)
    ensures r == [] <==> u.regime !in SettableRegimes
    ensures forall i :: 0 <= i < |r| ==> r[i].chatId == chatId
  {
    if MissingDocument(u) then [ReplyTo(chatId, NoDocumentReply)]
    else if u.regime == "chat" then
      match svc.predict(history, text)
      case Err(_) => [ReplyTo(chatId, ServiceFailedReply)]
      case Ok(_) =>
        var h := ChatMemory(history, text, svc);
        [SendMessage(chatId, h[|h| - 1].content)]
    else if u.regime == "question" then
      [ReplyTo(chatId, QuestionPreface)] +
      match Rag.Call(Some(Rag.Prompts["question"]), u.retriever.value, text, 0, svc.retrieve, svc.generate)
      case Err(_) => [ReplyTo(chatId, ServiceFailedReply)]
      case Ok(out) => [ReplyTo(chatId, out.answer)]
    else if u.regime == "review" then
      [ReplyTo(chatId, ReviewPreface)] +
      match svc.breakdown(text)
      case Err(_) => [ReplyTo(chatId, ServiceFailedReply)]
      case Ok(statements) => Rebuttals(chatId, statements, u.retriever.value, svc, 0)
    else if u.regime == "paraphrase" then
      [ReplyTo(chatId, ParaphrasePreface)] +
      match svc.paraphrase(text)
      case Err(_) => [ReplyTo(chatId, ServiceFailedReply)]
      case Ok(answer) => [ReplyTo(chatId, answer)]
    else []
  }

  /** A question or review without a document gets exactly the fixed reply, and
      no service is consulted: the replies are the same whatever the services
      and the memory would have produced. */
  lemma NoDocumentShortCircuit(u: UserData, chatId: int, text: string, history: seq<Turn>, svc: Services,
                               otherHistory: seq<Turn>, otherSvc: Services)
    requires u.regime in {"question", "review"} && u.retriever.None?
    ensures EchoReplies(u, chatId, text, history, svc) == [ReplyTo(chatId, NoDocumentReply)]
    ensures EchoReplies(u, chatId, text, history, svc) == EchoReplies(u, chatId, text, otherHistory, otherSvc)
  {
  }

  /** The chat regime answers with one message carrying the model's reply, the
      last message of the memory. */
  lemma ChatAnswer(u: UserData, chatId: int, text: string, history: seq<Turn>, svc: Services)
    requires u.regime == "chat" && svc.predict(history, text).Ok?
    ensures EchoReplies(u, chatId, text, history, svc) == [SendMessage(chatId, svc.predict(history, text).value)]
  {
  }

  /** A regime without a handler, such as "rebuttal", gets no reply at all. */
  lemma UnhandledRegimeIsSilent(u: UserData, chatId: int, text: string, history: seq<Turn>, svc: Services)
    requires u.regime !in SettableRegimes
    ensures EchoReplies(u, chatId, text, history, svc) == []
  {
  }

  /** A review whose statements are all answered: the preface, then one quote per statement, in order. */
  lemma ReviewAllAnswered(u: UserData, chatId: int, text: string, history: seq<Turn>, svc: Services)
    requires u.regime == "review" && u.retriever.Some? && svc.breakdown(text).Ok?
    requires forall i :: 0 <= i < |svc.breakdown(text).value| ==>
      RebuttalAnswer(u.retriever.value, svc, i, svc.breakdown(text).value[i]).Ok?
    ensures var statements := svc.breakdown(text).value;
      var r := EchoReplies(u, chatId, text, history, svc);
      && |r| == 1 + |statements|
      && r[0] == ReplyTo(chatId, ReviewPreface)
      && forall i :: 0 <= i < |statements| ==>
           r[i + 1] == ReplyTo(chatId, Quote(statements[i], RebuttalAnswer(u.retriever.value, svc, i, statements[i]).value))
  {
    RebuttalsAllAnswered(chatId, svc.breakdown(text).value, u.retriever.value, svc, 0);
  }

  /** A question is answered from the context the retrieved documents form. */
  lemma QuestionAnswered(u: UserData, chatId: int, text: string, history: seq<Turn>, svc: Services)
    requires u.regime == "question" && u.retriever.Some?
    requires svc.retrieve(0, u.retriever.value, text).Ok?
    ensures var documents := svc.retrieve(0, u.retriever.value, text).value;
      var context := Rag.FormatSnippets(documents);
      var answer := svc.generate(0, Rag.Prompts["question"], text, context);
      EchoReplies(u, chatId, text, history, svc)
        == [ReplyTo(chatId, QuestionPreface), ReplyTo(chatId, if answer.Ok? then answer.value else ServiceFailedReply)]
  {
    Rag.CallConditionsOnRetrieved(Rag.Prompts["question"], u.retriever.value, text, 0, svc.retrieve, svc.generate);
  }

  /** `Assistant`: the session store, the memories, and the log of sent replies. */
  class Assistant {
    /** `downloads_path`. */
    const downloadsPath: Path
    /** `users_data`: a key is present once the defaultdict has been indexed with it. */
    var usersData: map<int, UserData>
    /** `conversations`. */
    var conversations: map<int, ConversationRecord>
    /** The message history held by each memory object. */
    var memories: map<MemoryRef, seq<Turn>>
    /** `conversation.memory`: the memory the ConversationChain currently uses. */
    var chainMemory: MemoryRef
    /** Every reply sent, in order. */
    var replies: seq<Outgoing>

    ghost predicate Valid()
      reads this
    {
      && DefaultArgumentMemory in memories && ChainInitialMemory in memories
      && forall chatId | chatId in usersData :: Reachable(usersData[chatId])
    }

    /** The history the chat handler would use for this chat. */
    function History(chatId: int): seq<Turn>
      reads this
      requires Valid()
    {
      memories[SessionOf(usersData, chatId).memory]
    }

    constructor ()
      ensures Valid()
      ensures downloadsPath == Path(["downloaded_papers"])
      ensures usersData == map[] && conversations == map[] && replies == []
      ensures memories == map[DefaultArgumentMemory := [], ChainInitialMemory := []]
      ensures chainMemory == ChainInitialMemory
    {
      downloadsPath := Path(["downloaded_papers"]);
      usersData := map[];
      conversations := map[];
      memories := map[DefaultArgumentMemory := [], ChainInitialMemory := []];
      chainMemory := ChainInitialMemory;
      replies := [];
    }

    /** Every session shares the memory object of the default argument, so all
        chats see one conversation history. */
    lemma SessionsShareHistory(a: int, b: int)
      requires Valid()
      ensures History(a) == History(b) == memories[DefaultArgumentMemory]
    {
    }

    /** The `/start`, `/help` and `/clear` handler. `fileExists` is whether the
        chat's download file is on disk. */
    method Start(msg: Message, fileExists: bool)
      requires Valid()
      modifies this
      ensures Valid()
      ensures memories == old(memories) && chainMemory == old(chainMemory)
      ensures StartsWith(msg.text, "/help") ==>
        && usersData == old(usersData) && conversations == old(conversations)
        && replies == old(replies) + [ReplyTo(msg.chatId, HelpReply)]
      ensures !StartsWith(msg.text, "/help") && msg.text == "/clear" ==>
        && usersData == old(usersData)[msg.chatId := DefaultUserData()]
        && conversations == old(conversations)[msg.chatId := ConversationRecord([], [])]
        && replies == old(replies) + [ReplyTo(msg.chatId, if fileExists then ClearedReply else NothingToClearReply)]
      ensures !StartsWith(msg.text, "/help") && msg.text != "/clear" ==>
        usersData == old(usersData) && conversations == old(conversations) && replies == old(replies)
    {
      if StartsWith(msg.text, "/help") {
        replies := replies + [ReplyTo(msg.chatId, HelpReply)];
      } else if msg.text == "/clear" {
        conversations := conversations[msg.chatId := ConversationRecord([], [])];
        usersData := usersData[msg.chatId := DefaultUserData()];
        if fileExists {
          replies := replies + [ReplyTo(msg.chatId, ClearedReply)];
        } else {
          replies := replies + [ReplyTo(msg.chatId, NothingToClearReply)];
        }
      }
    }

    /** The document handler, from the reply before building on. The vector store
        is built from the chat's download file with a sniffed type. */
    method HandleDocument(msg: Message, lib: Utils.Library)
      requires Valid()
      modifies this
      ensures Valid()
      ensures memories == old(memories) && chainMemory == old(chainMemory) && conversations == old(conversations)
      ensures var built := Utils.FileToVectorStore(UserFilePath(downloadsPath, msg.chatId), None, lib,
                                                   Utils.DefaultChunkSize, Utils.DefaultChunkOverlap);
        && (built.Ok? ==>
              && usersData == old(usersData)[msg.chatId := old(SessionOf(usersData, msg.chatId)).(
                   vectorStore := Some(built.value), retriever := Some(AsRetriever(built.value, RetrieverK)))]
              && replies == old(replies) + [ReplyTo(msg.chatId, BuildingReply), ReplyTo(msg.chatId, ReadyReply)])
        && (built.Err? ==>
              && usersData == old(usersData)
              && replies == old(replies) + [ReplyTo(msg.chatId, BuildingReply), ReplyTo(msg.chatId, UploadFailedReply)])
    {
      var path := UserFilePath(downloadsPath, msg.chatId);
      replies := replies + [ReplyTo(msg.chatId, BuildingReply)];
      // Python evaluates the right-hand side before indexing `users_data`, so a
      // failed build leaves the dictionary untouched.
      var built := Utils.FileToVectorStore(path, None, lib, Utils.DefaultChunkSize, Utils.DefaultChunkOverlap);
      match built {
        case Ok(store) =>
          var u := SessionOf(usersData, msg.chatId);
          usersData := usersData[msg.chatId := u.(vectorStore := Some(store))];
          var v := usersData[msg.chatId];
          usersData := usersData[msg.chatId := v.(retriever := Some(AsRetriever(v.vectorStore.value, RetrieverK)))];
          replies := replies + [ReplyTo(msg.chatId, ReadyReply)];
        case Err(_) =>
          replies := replies + [ReplyTo(msg.chatId, UploadFailedReply)];
      }
    }

    /** The `/chat`, `/question`, `/review` and `/paraphrase` handler. */
    method Changer(msg: Message)
      requires Valid()
      modifies this
      ensures Valid()
      ensures memories == old(memories) && chainMemory == old(chainMemory) && conversations == old(conversations)
      ensures ChangerCommand(msg.text).None? ==> usersData == old(usersData) && replies == old(replies)
      ensures ChangerCommand(msg.text).Some? ==>
        && usersData == old(usersData)[msg.chatId :=
             old(SessionOf(usersData, msg.chatId)).(regime := ChangerCommand(msg.text).value.regime)]
        && replies == old(replies) + [ReplyTo(msg.chatId, ChangerCommand(msg.text).value.reply)]
    {
      var command := ChangerCommand(msg.text);
      if command.Some? {
        replies := replies + [ReplyTo(msg.chatId, command.value.reply)];
        var u := SessionOf(usersData, msg.chatId);
        usersData := usersData[msg.chatId := u.(regime := command.value.regime)];
      }
    }

    /** The handler of every other message: the guard, then the one branch the regime selects. */
    method EchoMessage(msg: Message, svc: Services)
      requires Valid()
      modifies this
      ensures Valid()
      ensures conversations == old(conversations)
      ensures usersData == old(usersData)[msg.chatId := old(SessionOf(usersData, msg.chatId))]
      ensures var u := old(SessionOf(usersData, msg.chatId));
        var history := old(memories[u.memory]);
        && replies == old(replies) + EchoReplies(u, msg.chatId, msg.text, history, svc)
        && (!MissingDocument(u) && u.regime == "chat" ==>
              && chainMemory == u.memory
              && memories == old(memories)[u.memory := ChatMemory(history, msg.text, svc)])
        && (MissingDocument(u) || u.regime != "chat" ==>
              chainMemory == old(chainMemory) && memories == old(memories))
    {
      var chatId := msg.chatId;
      var u := SessionOf(usersData, chatId);
      usersData := usersData[chatId := u];
      if u.regime in DocumentRegimes && u.retriever.None? {
        replies := replies + [ReplyTo(chatId, NoDocumentReply)];
        return;
      }
      if u.regime == "chat" {
        Chat(u, chatId, msg.text, svc);
      } else if u.regime == "question" {
        Question(u, chatId, msg.text, svc);
      } else if u.regime == "review" {
        replies := replies + [ReplyTo(chatId, ReviewPreface)];
        match svc.breakdown(msg.text) {
          case Err(_) =>
            replies := replies + [ReplyTo(chatId, ServiceFailedReply)];
          case Ok(statements) =>
            Review(chatId, statements, u.retriever.value, svc);
        }
      } else if u.regime == "paraphrase" {
        Paraphrase(u, chatId, msg.text, svc);
      }
    }

    /** The chat branch: point the chain at the session's memory and predict. */
    method Chat(u: UserData, chatId: int, text: string, svc: Services)
      requires u.regime == "chat" && u.memory in memories
      modifies this`chainMemory, this`memories, this`replies
      ensures chainMemory == u.memory
      ensures memories == old(memories)[u.memory := ChatMemory(old(memories[u.memory]), text, svc)]
      ensures replies == old(replies) + EchoReplies(u, chatId, text, old(memories[u.memory]), svc)
    {
      chainMemory := u.memory;
      var history := memories[chainMemory];
      match svc.predict(history, text) {
        case Ok(answer) =>
          memories := memories[chainMemory := history + [Human(text), Ai(answer)]];
          var saved := memories[chainMemory];
          replies := replies + [SendMessage(chatId, saved[|saved| - 1].content)];
        case Err(_) =>
          replies := replies + [ReplyTo(chatId, ServiceFailedReply)];
      }
    }

    /** The question branch: the preface, then the answer of the question chain. */
    method Question(u: UserData, chatId: int, text: string, svc: Services)
      requires u.regime == "question" && u.retriever.Some?
      modifies this`replies
      ensures forall history :: replies == old(replies) + EchoReplies(u, chatId, text, history, svc)
    {
      replies := replies + [ReplyTo(chatId, QuestionPreface)];
      var results := Rag.Call(Some(Rag.Prompts["question"]), u.retriever.value, text, 0, svc.retrieve, svc.generate);
      match results {
        case Ok(out) => replies := replies + [ReplyTo(chatId, out.answer)];
        case Err(_) => replies := replies + [ReplyTo(chatId, ServiceFailedReply)];
      }
    }

    /** The paraphrase branch: the preface, then the paraphrased text. */
    method Paraphrase(u: UserData, chatId: int, text: string, svc: Services)
      requires u.regime == "paraphrase"
      modifies this`replies
      ensures forall history :: replies == old(replies) + EchoReplies(u, chatId, text, history, svc)
    {
      replies := replies + [ReplyTo(chatId, ParaphrasePreface)];
      match svc.paraphrase(text) {
        case Ok(answer) => replies := replies + [ReplyTo(chatId, answer)];
        case Err(_) => replies := replies + [ReplyTo(chatId, ServiceFailedReply)];
      }
    }

    /** The loop of the review branch: one reply per statement, stopping with the
        failure reply at the first statement whose chain raises. Statement i
        is the i-th invocation of the chain. */
    method Review(chatId: int, statements: seq<string>, retriever: Retriever, svc: Services)
      modifies this`replies
      ensures replies == old(replies) + Rebuttals(chatId, statements, retriever, svc, 0)
    {
      ghost var target := replies + Rebuttals(chatId, statements, retriever, svc, 0);
      var i := 0;
      var failed := false;
      while i < |statements| && !failed
        invariant 0 <= i <= |statements|
        invariant failed ==> replies == target
        invariant !failed ==> replies + Rebuttals(chatId, statements[i..], retriever, svc, i) == target
        decreases |statements| - i, if failed then 0 else 1
      {
        var statement := statements[i];
        assert statements[i..][0] == statement && statements[i..][1..] == statements[i + 1..];
        match RebuttalAnswer(retriever, svc, i, statement) {
          case Ok(answer) =>
            replies := replies + [ReplyTo(chatId, Quote(statement, answer))];
            i := i + 1;
          case Err(_) =>
            replies := replies + [ReplyTo(chatId, ServiceFailedReply)];
            failed := true;
        }
      }
      if !failed {
        assert statements[i..] == [];
      }
    }
  }
}
