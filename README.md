# Oráculo session layer, modelled in Dafny

This project models the session and orchestration logic of the Streamlit chat assistant
"Oráculo" (`principal/main.py`). The assistant loads a document (a web site, a YouTube
transcript, or a PDF, CSV or TXT upload) and binds it to a chat model from one of three
providers. It then answers chat inputs grounded in that document and keeps the conversation
in a memory buffer.

The session is the part of `st.session_state` the handlers write: `chain`, `provider`, `model`,
`api_key`, `deepseek_api_key`, `deepseek_model` and `memoria`. It is modelled twice:

- as a record (`Orchestrator.SessionState`) with pure step functions `Initialize`, `Turn` and
  `Clear`; `Lifecycle.Run` applies any sequence of user actions;
- as a class (`StreamlitSession.Session`) whose methods write the fields one by one, as the
  handlers do. Each method is proved to reach exactly the state the matching step function
  computes, and to keep the session coherent.

Modules:

- `Wrappers`: `Option` (Python's `None`, a missing `st.session_state` key) and `Result`.
- `PyJson`: decoded JSON values and Python's subscript operator on them. This gives the
  extraction `response['choices'][0]['message']['content']` its exact exception behaviour.
- `Registry`: `CONFIG_MODELOS` and the provider-then-model validation.
- `Documents`: `TIPOS_ARQUIVOS_VALIDOS`, the `carrega_arquivo` dispatch, and the grounding
  system message.
- `Memory`: the message log of the conversation buffer, and the pairing of human and ai
  messages.
- `Orchestrator`: the session record, binding, the DeepSeek request, one chat turn, and clear.
- `Lifecycle`: runs of actions, and the invariants they keep.
- `StreamlitSession`: the `Session` class.

Foreign code is passed in as function values:

- the five loaders of the `loaders` module (`Documents.Loaders`);
- the LangChain chat constructor `ChatGroq(...)` or `ChatOpenAI(...)`, which either accepts
  its model and key or raises (`Orchestrator.ChatConstructor`);
- the provider's chat model streaming fragments for a rendered prompt (`Orchestrator.ChatStream`);
- the DeepSeek HTTP call, which returns a decoded body or `None` (`Orchestrator.DeepSeekApi`).

An exception raised by any of these is a `None`/`Failed`/`false` result. The model then follows what
the Python code does when the exception propagates.

Points where the code does something easy to misread:

- A DeepSeek turn sends only the user's message. The grounding system message is built and
  thrown away, so the document never reaches DeepSeek, not just the history.
- Only a `KeyError` during extraction becomes the apology. An empty `choices` list, or a
  body that is a list, a string, a number or a boolean, raises and stores nothing
  (`ExtractionRaised`).
- A 2xx body that decodes to `null` makes `call_deepseek` return `None`, so the turn takes
  the failed-request return (`Orchestrator.CallDeepSeek`).
- Whether a provider streams is decided by comparing its name with `'DeepSeek'`, not by a
  registry field.
- Clearing only replaces `memoria`. It never unbinds.
- Binding again keeps the memory.
- The temporary upload files are created with `delete=False` and are never removed.
- The loader runs before the provider and model are validated (line 83 before line 105).

Clearing stores the `MEMORIA` object created by the current script run. Streamlit reruns the
script for every interaction, so that object is a fresh, empty buffer. The model writes
this as `memoria := Some([])`. Before anything has been stored, `memoria` is `None`, and a
turn reads the empty `MEMORIA` in its place (`History`).

What the proofs show:

- every reachable session is coherent: nothing bound, or a supported provider and model
  with DeepSeek credentials and no chain, or a chain built for the stored model and key;
- without a clear, N answered turns append exactly the N (human, ai) exchanges in order;
  from an empty memory that is 2N messages, and the log stays paired;
- the document is embedded verbatim in the system message, and can be read back from it.

There is one way the pairing breaks. If DeepSeek answers with a `content` that is not a
string (`null`, say), `add_user_message` has already appended the human message when
`add_ai_message` rejects the value. `Lifecycle.NullContentBreaksPairing` exhibits this.

## Model

| member | source | states |
|---|---|---|
| `Registry.Resolve` | principal/main.py:105-110 | an unknown provider fails with InvalidProvider whatever the model; a known provider with a model outside its list fails with InvalidModel; it succeeds exactly on the six supported pairs, returning that provider's entry |
| `PyJson.Subscript` | principal/main.py:154 | Python subscripting of decoded JSON: KeyError exactly for a dictionary lacking the key, TypeError for scalars and for string keys on lists or strings |
| `Documents.CarregaArquivo` | principal/main.py:54-76 | each of the five kinds yields its own loader's result (binary kinds on a temporary file with the kind's suffix holding the upload's bytes, a typed string raising); any other kind yields the empty document |
| `Documents.CarregaArquivoUsesOneLoader` | principal/main.py:54-76 | loaders that agree on the kind's own loader give the same result: no other loader is consulted |
| `Documents.Fill` | principal/main.py:85-98 | filling the template gives the fixed head, the kind label, the fixed middle, the whole document text and the fixed tail, in that order and with those lengths: nothing is truncated or escaped |
| `Documents.DocumentOfFill` | principal/main.py:85-98 | the document can be read back unchanged from the message filled with it |
| `Documents.SystemMessageInjective` | principal/main.py:85-98 | two different documents of the same kind never give the same system message |
| `Memory.AddTurn` | principal/main.py:165-166 | a turn appends the human message with the input and then the ai message with the reply, keeps the earlier log, and keeps a paired log paired |
| `Memory.FlattenPaired` | principal/main.py:165-166 | N exchanges make a paired log of exactly 2N messages |
| `Memory.ExchangesFlatten` | principal/main.py:165-166 | every paired log is exactly the log of its exchanges |
| `Memory.AddTurnExchanges` | principal/main.py:165-166 | appending a turn appends one exchange with that input and reply |
| `Orchestrator.History` | principal/main.py:131 | the stored memory, or the empty buffer when no memory is stored yet |
| `Orchestrator.Initialize` | principal/main.py:78-123 | a missing document, a failing loader and either validation error leave every field as it was; a chat constructor that raises for a Groq or OpenAI model also changes nothing (`ChatFailed`); success happens exactly on a loaded document with a supported pair whose chat constructor (if it has one) accepts the model and key, and stores provider, model and key; DeepSeek gets no chain and its own key and model, the other providers a chain of the grounding template and their chat model; the memory is never touched |
| `Orchestrator.DeepSeekRequest` | principal/main.py:22-31 | the POST goes to the DeepSeek endpoint with a bearer header rendered from the key and a body of exactly the model and the messages |
| `Orchestrator.CallDeepSeek` | principal/main.py:32-38 | the caller sees `None` exactly when the request failed or the body decoded to `null`, and otherwise the decoded body |
| `Orchestrator.DeepSeekTurnRequest` | principal/main.py:144-148 | the request of a DeepSeek turn carries exactly one message, the user's input |
| `Orchestrator.ExtractReply` | principal/main.py:153-158 | a reply is found exactly when the choices[0].message.content path exists; a missing key is told apart from the other exceptions (non-object body, empty choices) |
| `Orchestrator.PromptMessages` | principal/main.py:99-103 | a chain's prompt is its system message, then the whole history in order, then the input as a human message |
| `Orchestrator.DeepSeekTurn` | principal/main.py:144-158 | the stored DeepSeek key and model and one user message are sent; no response, or a `null` body, stores nothing; string content is the reply; a KeyError stores the apology; non-string content stores the human message alone; any other exception stores nothing; bindings never change |
| `Orchestrator.ChainTurn` | principal/main.py:159-167 | with no chain bound nothing is sent and nothing changes; otherwise the chain gets the prompt of its template, the whole history and the input; a raising stream stores nothing, and otherwise the concatenated fragments are the reply appended after the human message |
| `Orchestrator.Turn` | principal/main.py:140-167 | an empty input sends nothing and changes nothing; otherwise the DeepSeek provider takes the DeepSeek path and every other provider the streaming path; only the memory can change, by one human and one ai message on a reply |
| `Orchestrator.Clear` | principal/main.py:199-200 | the memory becomes empty; chain, provider, model and all keys stay |
| `Lifecycle.FreshCoherent` | principal/main.py:129-131 | a session with nothing stored is coherent and has an empty history |
| `Lifecycle.StepKeepsCoherent` | principal/main.py:105-123 | every action keeps a session coherent: a bound model is always in its provider's list, with the handle that provider needs |
| `Lifecycle.RunKeepsCoherent` | principal/main.py:105-123 | any sequence of actions keeps a session coherent |
| `Lifecycle.BoundSessionCanChat` | principal/main.py:144-163 | in a coherent bound session a chat input always reaches a provider |
| `Lifecycle.BoundChainIsGrounded` | principal/main.py:83-118 | after binding Groq or OpenAI, every turn's prompt starts with the system message from which the loaded document reads back unchanged |
| `Lifecycle.DeepSeekSendsNoHistory` | principal/main.py:144-148 | a DeepSeek request depends only on the stored DeepSeek key, model and the input, not on history, chain or document |
| `Lifecycle.InitializeIdempotent` | principal/main.py:112-123 | binding twice with the same arguments, with loaders and a chat constructor that give the same results both times, gives the same outcome and state as binding once |
| `Lifecycle.StepAppends` | principal/main.py:165-167 | an action other than a clear appends exactly the exchange it reports |
| `Lifecycle.StepKeepsPaired` | principal/main.py:165-167 | one action keeps the memory paired unless it is a turn whose ai message was rejected |
| `Lifecycle.RunAppendsExchanges` | principal/main.py:149-167 | without a clear, the memory is the old memory followed by the answered turns' exchanges in order |
| `Lifecycle.RunKeepsPaired` | principal/main.py:140-167 | every action keeps the memory paired, unless a turn's ai message was rejected |
| `Lifecycle.ConversationOfNTurns` | principal/main.py:165-167 | from an empty memory, N answered turns leave exactly 2N messages, paired |
| `Lifecycle.NullContentBreaksPairing` | principal/main.py:165-166 | a DeepSeek reply whose content is null stores the human message alone |
| `Lifecycle.NullBodyFailsRequest` | principal/main.py:144-151 | a DeepSeek body `null` reports a failed request and leaves the session unchanged |
| `Lifecycle.UnexpectedBodyApologizes` | principal/main.py:153-158 | a body without `choices` stores the input and the apology |
| `StreamlitSession.Session.constructor` | principal/main.py:129-131 | a new session has nothing stored |
| `StreamlitSession.Session.Initialize` | principal/main.py:78-123 | writing the fields step by step reaches exactly the state and outcome of `Orchestrator.Initialize`, and keeps the session coherent |
| `StreamlitSession.Session.Submit` | principal/main.py:140-167 | the turn handler reaches exactly the outcome, the request and the state of `Orchestrator.Turn`, keeps the session coherent, and in a bound session always reaches a provider |
| `StreamlitSession.Session.AskDeepSeek` | principal/main.py:144-158 | the DeepSeek branch reaches exactly the outcome, the request and the state of `Orchestrator.DeepSeekTurn`, including the in-place human append when the content is rejected |
| `StreamlitSession.Session.StreamReply` | principal/main.py:159-163 | the streaming branch reaches exactly the outcome, the prompt and the state of `Orchestrator.ChainTurn` |
| `StreamlitSession.Session.AddMessages` | principal/main.py:165-167 | the human and the ai message are appended to the stored history and nothing else changes |
| `StreamlitSession.Session.ClearHistory` | principal/main.py:199-200 | the clear button reaches `Orchestrator.Clear` of the old state |

## Left out

- The Streamlit interface: the header, the chat transcript loop, `st.chat_message`,
  `markdown`, `st.error` and `st.success`, the sidebar widgets, and `main`
  (lines 126-136, 169-205). The error and success texts shown to the user, and the texts of
  the two `ValueError`s, are not modelled; the outcome names which error it was.
- The `api_key_<provider>` key that the sidebar writes (line 195). It is read nowhere.
- The temporary files (lines 60-73). Only their suffix and content are modelled; the name is
  random and they are never removed.
- The HTTP call itself (`requests.post`, `raise_for_status`, `response.json()`,
  lines 32-38). It is the `DeepSeekApi` parameter; `None` covers every request error.
- LangChain: `ChatGroq`, `ChatOpenAI`, `ChatPromptTemplate`, `ConversationBufferMemory` and
  `chain.stream` are foreign code. A chain is a record of its template and chat handle, the
  constructor is the `ChatConstructor` parameter (an accepted call yields the handle of its
  arguments), and streaming is the `ChatStream` parameter. `ChatPromptTemplate` reads braces in the system
  message as template variables. The model passes the system message through literally, so
  a document containing `{` or `}` behaves differently in the model.
- Orchestrator.Turn: a DeepSeek `content` that is a JSON list is treated like every other
  non-string content (rejected after the human message is stored). LangChain would accept
  a list of parts as message content; message content here is text only.
- The `loaders` module (`carrega_site`, `carrega_youtube`, `carrega_pdf`, `carrega_csv`,
  `carrega_txt`). It is not part of this model, so its functions are parameters.
- carrega_modelo's `chain` argument: its only caller (line 198) never passes it, so the model
  fixes it at its default `None`.
- The `print` diagnostics (lines 37, 157).
- Concurrency. Each action is one script rerun and runs to completion before the next.
