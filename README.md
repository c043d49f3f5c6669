# Scientist's assistant Telegram bot — session store, snippet formatter, document gate

A Dafny model of the three parts of the bot that follow stated rules:

- **The assistant's session store and message handlers** (`telegram_bot/bot.py`). `users_data` maps a chat id to a
  `UserData` record: a regime, an optional vector store, an optional retriever and a conversation memory. It is a
  `defaultdict`, so the first lookup of a chat id creates a default session. The four handlers read and change these
  records:
  - `start` handles `/help` and `/clear`.
  - `handle_document` builds a retriever from an uploaded file.
  - `changer` switches the regime.
  - `echo_message` answers in the current regime.

  The model is the class `Bot.Assistant`, with `usersData`, `conversations`, the memory objects and a log of every
  reply sent. Each handler is a method. Its `ensures` give the whole new state in terms of the old one. The replies
  of `echo_message` are given by the function `Bot.EchoReplies`, and lemmas about that function state what the
  handler promises. `Bot.Reachable` is an invariant the handlers preserve: it names the sessions that can exist.
- **The context block of the answer chain** (`article/rag.py`, `format_snippets`). This is a pure function on the
  retrieved fragments. The lemmas fix its exact shape, length and order. `Rag.Call` models how the chain passes data
  along: question → retriever → formatted context → language model → answer.
- **The document-type gate** (`article/utils.py`, start of `file_to_vector_store`). The file type is the one the
  caller gave, or the sniffed one when none was given. Only `application/pdf` goes on to the loader.

Foreign code is modelled as function parameters:
- `Bot.Services`: the GigaChat conversation, retrieval, generation, breakdown and paraphrase pipelines.
- `Utils.Library`: MIME sniffing, the PDF loader, the text splitter and the Chroma store.

Each foreign call made inside a `try`, except `as_retriever`, returns a `Result`, so every exception the code catches
is an explicit error path. "No service is called" is stated as independence: the result is the same whatever the
services would have returned.

A handler receives the services for the one message it handles, so separate messages can fare differently. Within one
message only the answer chain runs more than once: once per statement of a review. Retrieval and generation therefore
also take the ordinal of the chain invocation within the message. A statement that occurs twice in one review is two
calls, and their outcomes need not agree (`Bot.RepeatedStatementCanFailLater`).

Quirks of the code that the model keeps:
- The review regime is written `"review"` (bot.py:162). `available_regimes` lists `"rebuttal"`, which no command
  sets. The constructor refuses `"review"`, but `changer` assigns the field directly, so the check is bypassed
  (`Bot.RegimeSetsDisagree`).
- Every default session shares one `ConversationBufferMemory` object, the default argument evaluated once
  (bot.py:50). Histories are therefore shared between chats, not kept per session (`Bot.Assistant.SessionsShareHistory`).
  In Python that object exists once per process; the model gives each `Bot.Assistant` its own. With the single
  assistant the program creates (bot.py:246) the two agree.
- The unsupported-type message is a plain literal, not an f-string. It does not substitute the list of accepted
  types: the placeholder `{str(implemented_file_types)}` stays in it verbatim (`Utils.MessageIsNotFormatted`). Being a
  constant, it does not name the offending type either.
- Every failure of a language-model call gets the same generic reply. Timeouts, authentication failures and
  malformed output are not told apart.
- A failed upload does not touch `users_data`. Python evaluates the right-hand side of
  `users_data[id].vector_store = ...` before indexing the defaultdict, so no default session is inserted either.

## Model

| member | source | states |
|---|---|---|
| `Common.IntToStr` | telegram_bot/bot.py:237 | Python's `str` of a chat id is non-empty and starts with a minus sign iff the id is negative |
| `Common.IntRoundTrip` | telegram_bot/bot.py:237 | `str(chat_id)` can be read back: parsing the rendering of any int, negative chat ids included, gives the int |
| `Common.IntToStrInjective` | telegram_bot/bot.py:237 | two ints have the same `str` iff they are equal |
| `Common.NatRoundTrip` | telegram_bot/bot.py:237 | the decimal digits of a natural number parse back to it |
| `Common.NatToStrStartsWithDigit` | telegram_bot/bot.py:237 | the rendering of a natural number is non-empty and starts with a digit, so it never reads as negative |
| `Utils.EffectiveFileType` | article/utils.py:46-47 | a supplied type is used as given; the sniffer's answer, or its failure, is used only when the type is `None` |
| `Utils.FileToVectorStore` | article/utils.py:45-70 | a sniffer failure is the result; a type other than `application/pdf` raises NotImplementedError with the fixed message; a built store comes from a PDF whose pages were loaded, split with the given parameters and indexed, each step succeeding |
| `Utils.RejectedTypeLoadsNothing` | article/utils.py:49-64 | for a rejected type the result does not depend on the loader, splitter or store (none of them runs) and is the NotImplementedError |
| `Utils.SniffFailureLoadsNothing` | article/utils.py:46-50 | when the sniffer raises, that exception is the result and does not depend on the loader, splitter or store |
| `Utils.SuppliedTypeSkipsDetection` | article/utils.py:46-47 | with a supplied type the result does not depend on the MIME sniffer |
| `Utils.AcceptedTypeRunsPipeline` | article/utils.py:55-70 | for a PDF, the first failure of the loader or the splitter is the result; otherwise the result is what the store makes of the split pages |
| `Utils.MessageIsNotFormatted` | article/utils.py:51-53 | the error message ends in the literal text `{str(implemented_file_types)}` |
| `Rag.Fragments` | article/rag.py:60-63 | one fragment per document, in document order, each exactly `"Фрагмент статьи: "` + page content |
| `Rag.JoinWith` | article/rag.py:65 | `sep.join`: no parts give `""`, one part gives that part, and more start with the first part followed by the separator |
| `Rag.FormatSnippets` | article/rag.py:60-67 | the output starts with `"\n\n"`; an empty document list gives exactly `"\n\n"` |
| `Rag.FormatSnippetsUnfold` | article/rag.py:60-65 | one document gives `"\n\n"` + its fragment; more give `"\n\n"` + first fragment + the output for the rest |
| `Rag.FormatSnippetsLength` | article/rag.py:60-65 | for n ≥ 1 documents the length is 2 + Σ(len(prefix) + len(contentᵢ)) + 2·(n−1) |
| `Rag.FragmentAt` | article/rag.py:60-65 | fragment i stands at offset 2(i+1) + the lengths of the earlier fragments, right after a `"\n\n"`: order preserved, one fragment per document |
| `Rag.LastFragmentEndsOutput` | article/rag.py:60-65 | the last fragment ends the output: nothing follows it |
| `Rag.Lookup` | article/rag.py:82 | a dictionary subscript succeeds iff the key is present, and raises KeyError naming the key otherwise |
| `Rag.PromptFor` | article/rag.py:81-82 | as written, the prompt is resolved iff one is given, and then it is the given one |
| `Rag.IntendedPromptFor` | article/rag.py:80-82 | corrected: a prompt is always resolved, the given one or else the question template |
| `Rag.DefaultPromptFails` | article/rag.py:24-28 | `"question_answer"` is not a template name, so `__call__()` without a prompt raises KeyError (as written) |
| `Rag.IntendedDefaultIsQuestion` | article/rag.py:80-82 | the corrected default is the question template, and it agrees with the as-written lookup whenever a prompt is given |
| `Rag.Call` | article/rag.py:69-95 | a retrieval failure is the chain's failure; a success returns the retrieved documents and the answer generated from the question and their formatted context; a missing prompt uses the corrected default (see "## Left out") |
| `Rag.CallConditionsOnRetrieved` | article/rag.py:84-95 | the chain succeeds iff retrieval and generation, in the same invocation, do; the answer is generated from the question and the formatted retrieved documents, which are returned alongside |
| `Bot.NewUserData` | telegram_bot/bot.py:45-58 | construction succeeds iff the regime is a key of `available_regimes`, storing the arguments; otherwise NotImplementedError naming the regime |
| `Bot.DefaultUserData` | telegram_bot/bot.py:45-58 | the default session is regime `"chat"`, no vector store, no retriever, and the one shared default memory |
| `Bot.SessionOf` | telegram_bot/bot.py:100 | an unknown chat id yields the default session; a known one its stored session |
| `Bot.RegimeSetsDisagree` | telegram_bot/bot.py:33-38 | `"review"` can be set but the constructor refuses it; `"rebuttal"` is accepted but no reachable session has it |
| `Bot.ChangerCommand` | telegram_bot/bot.py:148-166 | a match sets a regime whose `/`-command prefixes the text; there is no match iff no such command does |
| `Bot.ChangerCommandUnique` | telegram_bot/bot.py:152-166 | a text starting with a command always selects that command's regime: the prefix tests cannot shadow each other |
| `Bot.UserFilePath` | telegram_bot/bot.py:231-239 | the path is the downloads directory plus one component, from which the chat id reads back |
| `Bot.UserFilePathInjective` | telegram_bot/bot.py:231-239 | distinct chat ids map to distinct paths |
| `Bot.RebuttalAnswer` | telegram_bot/bot.py:211-213 | a statement whose retrieval fails gets no answer; an answer is what the rebuttal template generates from the statement and its own retrieved context |
| `Bot.Rebuttals` | telegram_bot/bot.py:211-228 | the review loop's replies: none iff there are no statements, at most one per statement, every one a reply to the chat |
| `Bot.RebuttalsAllAnswered` | telegram_bot/bot.py:211-214 | when every statement is answered: exactly one reply per statement, `"> {statement}\n{answer}"` with the answer of that statement's own chain invocation, in statement order |
| `Bot.RebuttalsStopAtFailure` | telegram_bot/bot.py:211-228 | when statement k is the first to fail: the k earlier quotes, then the generic failure reply, and nothing more |
| `Bot.RepeatedStatementCanFailLater` | telegram_bot/bot.py:211-214 | the same statement twice in one review is two chain invocations: the first can be answered and the second fail |
| `Bot.ChatMemory` | telegram_bot/bot.py:183-188 | a successful prediction appends the human text and the model's answer to the memory; a failed one leaves it unchanged |
| `Bot.EchoReplies` | telegram_bot/bot.py:168-228 | the replies to one message: none iff the regime has no branch (none of chat, question, review, paraphrase), every one addressed to the message's chat |
| `Bot.NoDocumentShortCircuit` | telegram_bot/bot.py:173-175 | question or review without a retriever: exactly `"Где текст статьи, Билли?"`, whatever the services and the memory |
| `Bot.ChatAnswer` | telegram_bot/bot.py:183-188 | in chat a successful prediction gives one sent message carrying the model's answer |
| `Bot.UnhandledRegimeIsSilent` | telegram_bot/bot.py:180-224 | a regime with no branch (for example `"rebuttal"`) gets no reply |
| `Bot.ReviewAllAnswered` | telegram_bot/bot.py:198-214 | review with all statements answered: the preface, then one quote per parsed statement, in order |
| `Bot.QuestionAnswered` | telegram_bot/bot.py:190-196 | question: the preface, then the answer generated from the retrieved documents' context, or the failure reply |
| `Bot.Assistant.constructor` | telegram_bot/bot.py:61-100 | no sessions, no conversations, no replies; downloads under `downloaded_papers` |
| `Bot.Assistant.SessionsShareHistory` | telegram_bot/bot.py:50 | every chat sees the same history, that of the default-argument memory |
| `Bot.Assistant.Start` | telegram_bot/bot.py:102-120 | `/help…` (prefix) replies with help and changes nothing; exactly `/clear` resets that chat's conversations entry and session; other text does nothing |
| `Bot.Assistant.HandleDocument` | telegram_bot/bot.py:122-146 | success installs the store and a k=5 retriever on it for that chat only; failure leaves every session as it was and sends the failure reply |
| `Bot.Assistant.Changer` | telegram_bot/bot.py:148-166 | a command sets only that chat's regime and replies; store, retriever, other chats unchanged |
| `Bot.Assistant.EchoMessage` | telegram_bot/bot.py:168-228 | the session is created if missing and kept otherwise; replies are `EchoReplies`; only chat changes a memory and the chain's memory |
| `Bot.Assistant.Chat` | telegram_bot/bot.py:183-188 | the chain is pointed at the session's memory, which receives the exchange; the reply is its last message |
| `Bot.Assistant.Question` | telegram_bot/bot.py:190-196 | appends the question branch's replies |
| `Bot.Assistant.Paraphrase` | telegram_bot/bot.py:216-224 | appends the preface and the paraphrase, or the failure reply |
| `Bot.Assistant.Review` | telegram_bot/bot.py:211-214 | the loop appends exactly the replies `Rebuttals` gives for the statements |

## Left out

- Concurrency: each handler is modelled as running whole, one after another. `telebot.TeleBot(token)` (bot.py:73)
  keeps the library's default worker pool of two threads, so handlers for two chats can interleave. Since every
  session shares one memory, one chat's exchange can then land between another chat's `predict` and its read of the
  last message, and that chat is sent the other's answer. The model does not capture such interleavings.
- Telegram transport: handler registration, routing a command to a handler, `get_file`/`download_file`, delivering
  replies, polling. Each handler is modelled as called on the message routed to it, and a reply is an entry appended
  to `replies`.
- File-system effects: the download write, `unlink`, `mkdir`. Whether the chat's file exists at `/clear` is the
  parameter `fileExists` of `Bot.Assistant.Start`.
- GigaChat, the embeddings and the LangChain pipelines (`ConversationChain.predict`, the runnable composition, the
  output parsers) are the function fields of `Bot.Services`. What the list parser (`ast.literal_eval`) accepts is not
  modelled: the breakdown either fails or gives a list of statements.
- PDF loading, text splitting, Chroma indexing and `magic` sniffing are the function fields of `Utils.Library`.
  `as_retriever` is assumed not to raise.
- The prompt templates loaded from YAML are opaque: a `Rag.Prompt` is the file it came from. The ConversationChain's
  prompt text (bot.py:95) is configuration and is not modelled.
- The `regime is None` branch of `echo_message` is unreachable (the regime is always a string) and refers to an
  undefined name.
- An exception raised by a reply call itself inside a `try` block is not modelled. Such an exception would trigger
  the failure reply.
- Debug `print` calls.
- Rag.Call: a missing prompt resolves to the question template, the corrected default. The code raises KeyError
  there (rag.py:82, `Rag.DefaultPromptFails`). Every call the bot makes passes a prompt, and on a given prompt the
  two agree (`Rag.IntendedDefaultIsQuestion`).
- Chunking, embedding and nearest-neighbour search happen inside the splitter, the embedding service and Chroma, and
  are not modelled.

## Findings

| source | as written | input that shows it | evidently intended | confidence | as-written member | corrected member |
|---|---|---|---|---|---|---|
| article/rag.py:81-82 | the default prompt is `prompts["question_answer"]`, a key the dictionary does not have | calling the generator with `prompt=None` raises KeyError | the question-answering template `prompts["question"]`, as the comment on line 80 says | high, not executed | `Rag.DefaultPromptFails` | `Rag.IntendedDefaultIsQuestion` |

`Rag.PromptFor` is the lookup as written. `Rag.Call` resolves the prompt with the corrected `Rag.IntendedPromptFor`.
The bot always passes an explicit prompt, and on an explicit prompt both versions agree.
