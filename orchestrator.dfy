/** The session layer of `principal/main.py` as a state machine over the values it keeps in
    `st.session_state`: binding a provider and model to a document (`carrega_modelo`), handling
    one chat turn (`pagina_chat`) and clearing the history (the sidebar's clear button). */
module Orchestrator {
  import opened Wrappers
  import opened PyJson
  import opened Registry
  import opened Documents
  import opened Memory

  /** The chat model object `ChatGroq(model=..., api_key=...)` or `ChatOpenAI(...)`. */
  datatype ChatHandle = ChatHandle(kind: ChatKind, model: string, apiKey: string)

  /** The `ChatPromptTemplate`: a system message, then the `chat_history` placeholder, then the
      user's `input`. */
  datatype PromptTemplate = PromptTemplate(system: string)

  /** The LangChain chat constructor `ChatGroq(model=..., api_key=...)` or `ChatOpenAI(...)`:
      whether it accepts the kind, model and key it is given (`false`: it raises). An accepted
      call yields the `ChatHandle` of those arguments. */
  type ChatConstructor = (ChatKind, string, string) -> bool

  /** `template | chat`. */
  datatype Chain = Chain(template: PromptTemplate, chat: ChatHandle)

  /** One message of a rendered prompt. */
  datatype PromptMessage = System(text: string) | Said(message: Message)

  /** The session fields of `st.session_state`; `None` stands for a key not yet written. */
  datatype SessionState = SessionState(
    chain: Option<Chain>,
    provider: Option<string>,
    model: Option<string>,
    apiKey: Option<string>,
    deepseekApiKey: Option<string>,
    deepseekModel: Option<string>,
    memoria: Option<seq<Message>>)

  /** A new browser session: no key written yet. */
  const Fresh: SessionState := SessionState(None, None, None, None, None, None, None)

  /** `st.session_state.get('memoria', MEMORIA)`: without a stored memory, the module-level
      `MEMORIA`, created empty when the script runs. */
  function History(s: SessionState): (h: seq<Message>)
    ensures s.memoria.None? ==> h == []
    ensures s.memoria.Some? ==> h == s.memoria.value
  {
    s.memoria.GetOr([])
  }

  // ---------------------------------------------------------------------------------------
  // Binding (carrega_modelo)

  datatype BindOutcome =
    | Bound
    | MissingDocument        // `arquivo is None`: an error is shown and the function returns
    | LoadFailed             // a loader, or `read()` on the upload, raised
    | Invalid(error: ValidationError)
    | ChatFailed             // the chat constructor of a Groq or OpenAI model raised

  datatype BindStep = BindStep(outcome: BindOutcome, next: SessionState)

  /** `carrega_modelo(provedor, modelo, api_key, tipo_arquivo, arquivo)` as called from the
      sidebar (its `chain` argument left at `None`). Every failure happens before the first
      write, so it leaves the session as it was; a success writes the binding and leaves the
      memory alone. */
  function Initialize(s: SessionState, loaders: Loaders, accepts: ChatConstructor, provider: string,
                      model: string, apiKey: string, kind: string, arquivo: Option<Source>): (r: BindStep)
    ensures r.outcome == MissingDocument <==> arquivo.None?
    ensures r.outcome == LoadFailed <==> arquivo.Some? && CarregaArquivo(loaders, kind, arquivo.value).Failed?
    ensures r.outcome == Bound <==>
              arquivo.Some? && CarregaArquivo(loaders, kind, arquivo.value).Doc? && (provider, model) in SupportedPairs &&
              (provider == DeepSeek || (provider in ConfigModelos && accepts(ConfigModelos[provider].chat, model, apiKey)))
    ensures r.outcome == ChatFailed <==>
              arquivo.Some? && CarregaArquivo(loaders, kind, arquivo.value).Doc? && (provider, model) in SupportedPairs &&
              provider != DeepSeek && provider in ConfigModelos && !accepts(ConfigModelos[provider].chat, model, apiKey)
    ensures r.outcome.Invalid? ==>
              arquivo.Some? && CarregaArquivo(loaders, kind, arquivo.value).Doc? &&
              Resolve(provider, model) == Err(r.outcome.error)
    ensures r.outcome != Bound ==> r.next == s
    ensures r.outcome == Bound ==>
              r.next.provider == Some(provider) && r.next.model == Some(model) && r.next.apiKey == Some(apiKey) &&
              provider in ConfigModelos && model in ConfigModelos[provider].modelos &&
              r.next.memoria == s.memoria
    ensures r.outcome == Bound && provider == DeepSeek ==>
              r.next.chain == None && r.next.deepseekApiKey == Some(apiKey) && r.next.deepseekModel == Some(model)
    ensures r.outcome == Bound && provider != DeepSeek ==>
              r.next.chain.Some? &&
              r.next.chain.value.chat == ChatHandle(ConfigModelos[provider].chat, model, apiKey) &&
              r.next.chain.value.template ==
                PromptTemplate(SystemMessage(kind, CarregaArquivo(loaders, kind, arquivo.value).text)) &&
              r.next.deepseekApiKey == s.deepseekApiKey && r.next.deepseekModel == s.deepseekModel
  {
    if arquivo.None? then BindStep(MissingDocument, s)
    else
      var documento := CarregaArquivo(loaders, kind, arquivo.value);
      if documento.Failed? then BindStep(LoadFailed, s)
      else
        var template := PromptTemplate(SystemMessage(kind, documento.text));
        match Resolve(provider, model)
        case Err(e) => BindStep(Invalid(e), s)
        case Ok(config) =>
          if provider != DeepSeek && !accepts(config.chat, model, apiKey) then BindStep(ChatFailed, s)
          else
            var withCredentials :=
              if provider == DeepSeek
              then s.(deepseekApiKey := Some(apiKey), deepseekModel := Some(model), chain := None)
              else s;
            var chain := if provider == DeepSeek then None else Some(Chain(template, ChatHandle(config.chat, model, apiKey)));
            BindStep(Bound, withCredentials.(chain := chain, model := Some(model), provider := Some(provider),
                                             apiKey := Some(apiKey)))
  }

  // ---------------------------------------------------------------------------------------
  // The DeepSeek request (call_deepseek)

  const DeepSeekUrl: string := "https://api.deepseek.com/v1/chat/completions"

  /** The HTTP POST `call_deepseek` sends: URL, headers and JSON body. */
  datatype HttpRequest = HttpRequest(url: string, headers: map<string, string>, body: Json)

  /** Python's `str()` of an optional string, as an f-string renders it. */
  function PyStr(v: Option<string>): (t: string)
    ensures v.Some? ==> t == v.value
  {
    if v.Some? then v.value else "None"
  }

  /** A JSON string, or `null` for Python's `None`. */
  function JsonOf(v: Option<string>): (j: Json)
    ensures v.Some? <==> j.JStr?
    ensures v.Some? ==> j.s == v.value
  {
    if v.Some? then JStr(v.value) else JNull
  }

  /** The request `call_deepseek(api_key, model, messages)` posts. */
  function DeepSeekRequest(apiKey: Option<string>, model: Option<string>, messages: seq<Json>): (r: HttpRequest)
    ensures r.url == DeepSeekUrl
    ensures r.headers.Keys == {"Authorization", "Content-Type"}
    ensures r.headers["Authorization"] == "Bearer " + PyStr(apiKey)
    ensures r.headers["Content-Type"] == "application/json"
    ensures r.body.JObj? && r.body.fields.Keys == {"model", "messages"}
    ensures r.body.fields["model"] == JsonOf(model) && r.body.fields["messages"] == JArr(messages)
  {
    HttpRequest(
      DeepSeekUrl,
      map["Authorization" := "Bearer " + PyStr(apiKey), "Content-Type" := "application/json"],
      JObj(map["model" := JsonOf(model), "messages" := JArr(messages)]))
  }

  /** `{"role": "user", "content": text}`. */
  function UserMessage(text: string): Json
  {
    JObj(map["role" := JStr("user"), "content" := JStr(text)])
  }

  /** What `response['choices'][0]['message']['content']` gives. */
  datatype Extracted = Text(reply: string) | NonText(content: Json) | MissingKey | Raised

  /** The response has the `choices[0].message.content` path the extraction walks. */
  ghost predicate HasReplyPath(resp: Json)
  {
    resp.JObj? && "choices" in resp.fields &&
    var choices := resp.fields["choices"];
    choices.JArr? && |choices.items| > 0 &&
    var first := choices.items[0];
    first.JObj? && "message" in first.fields &&
    var message := first.fields["message"];
    message.JObj? && "content" in message.fields
  }

  /** The value at the end of that path. */
  ghost function ReplyAt(resp: Json): Json
    requires HasReplyPath(resp)
  {
    resp.fields["choices"].items[0].fields["message"].fields["content"]
  }

  /** Line 154. Only `KeyError` is caught by the caller, so the other exceptions are told
      apart: a body that is not an object, an empty `choices` list or a string or list where an
      object was expected raises something else. */
  function ExtractReply(resp: Json): (r: Extracted)
    ensures HasReplyPath(resp) <==> r.Text? || r.NonText?
    ensures HasReplyPath(resp) ==>
              r == (if ReplyAt(resp).JStr? then Text(ReplyAt(resp).s) else NonText(ReplyAt(resp)))
    ensures !resp.JObj? ==> r == Raised
    ensures resp.JObj? && "choices" !in resp.fields ==> r == MissingKey
    ensures resp.JObj? && "choices" in resp.fields && resp.fields["choices"].JObj? ==> r == MissingKey
    ensures resp.JObj? && "choices" in resp.fields && resp.fields["choices"] == JArr([]) ==> r == Raised
  {
    var content := Then(Then(Then(Subscript(resp, Name("choices")), Index(0)), Name("message")), Name("content"));
    match content
    case Value(JStr(text)) => Text(text)
    case Value(v) => NonText(v)
    case KeyError => MissingKey
    case OtherError => Raised
  }

  /** The reply stored when the key path is missing. */
  const Apology: string := "Desculpe, ocorreu um erro ao processar sua solicitação."

  // ---------------------------------------------------------------------------------------
  // A chat turn (pagina_chat, lines 140-167)

  /** The provider's chat model streaming a reply to a rendered prompt: the fragments, or
      `None` when the call raised. */
  type ChatStream = (ChatHandle, seq<PromptMessage>) -> Option<seq<string>>

  /** `requests.post` plus `response.json()`: the decoded 2xx body, or `None` when
      `call_deepseek` caught a request error (transport failure, non-2xx status, undecodable
      body). */
  type DeepSeekApi = HttpRequest -> Option<Json>

  /** What `call_deepseek` hands back to its caller: Python's `None` both for a caught request
      error and for a body that decodes to `null`, otherwise the decoded body. */
  function CallDeepSeek(deepseek: DeepSeekApi, request: HttpRequest): (r: Option<Json>)
    ensures r.None? <==> deepseek(request).None? || deepseek(request) == Some(JNull)
    ensures r.Some? ==> r == deepseek(request) && !r.value.JNull?
  {
    match deepseek(request)
    case Some(JNull) => None
    case other => other
  }

  /** The text `write_stream` returns: the fragments joined in order. */
  function Concat(fragments: seq<string>): string
  {
    if fragments == [] then "" else Concat(fragments[..|fragments| - 1]) + fragments[|fragments| - 1]
  }

  /** The prompt a chain renders: its system message, the whole history, then the input. */
  function PromptMessages(template: PromptTemplate, input: string, history: seq<Message>): (p: seq<PromptMessage>)
    ensures |p| == |history| + 2
    ensures p[0] == System(template.system) && p[|p| - 1] == Said(Message(Human, input))
    ensures forall i :: 0 <= i < |history| ==> p[i + 1] == Said(history[i])
  {
    [System(template.system)] + seq(|history|, i requires 0 <= i < |history| => Said(history[i]))
      + [Said(Message(Human, input))]
  }

  datatype TurnOutcome =
    | Ignored              // empty input: nothing happens
    | Replied(reply: string)
    | Apologized           // `KeyError` while extracting: the apology is stored as the reply
    | RequestFailed        // `call_deepseek` returned `None`
    | ExtractionRaised     // an exception other than `KeyError` while extracting
    | ContentRejected      // `content` is not a string: `add_ai_message` rejects it
    | ChainMissing         // no chain bound and not DeepSeek: `None.stream` raises
    | StreamRaised         // the chain raised while streaming

  /** The call a turn made. */
  datatype Sent = NothingSent | ToDeepSeek(request: HttpRequest) | ToChain(chat: ChatHandle, prompt: seq<PromptMessage>)

  datatype TurnStep = TurnStep(outcome: TurnOutcome, sent: Sent, next: SessionState)

  /** Both messages of the turn appended and the memory stored back (lines 165-167). */
  function Remember(s: SessionState, input: string, reply: string): (t: SessionState)
  {
    s.(memoria := Some(AddTurn(History(s), input, reply)))
  }

  /** The request of a DeepSeek turn: the stored key and model and one user message. */
  function DeepSeekTurnRequest(s: SessionState, input: string): (r: HttpRequest)
    ensures r.body.JObj? && "messages" in r.body.fields
    ensures r.body.fields["messages"] == JArr([UserMessage(input)])
  {
    DeepSeekRequest(s.deepseekApiKey, s.deepseekModel, [UserMessage(input)])
  }

  /** What a turn does to the session: only the memory can change. It grows by the human and
      the ai message of the turn when a reply is obtained, by the human message alone (and
      only if a memory is stored) when the ai message is rejected, and not at all otherwise. */
  ghost predicate TurnEffect(s: SessionState, input: string, r: TurnStep)
  {
    r.next.(memoria := s.memoria) == s &&
    (r.outcome.Replied? ==>
       History(r.next) == History(s) + [Message(Human, input), Message(Ai, r.outcome.reply)]) &&
    (r.outcome == Apologized ==>
       History(r.next) == History(s) + [Message(Human, input), Message(Ai, Apology)]) &&
    (r.outcome == ContentRejected ==>
       r.next.memoria == (if s.memoria.Some? then Some(History(s) + [Message(Human, input)]) else None)) &&
    (!(r.outcome.Replied? || r.outcome == Apologized || r.outcome == ContentRejected) ==> r.next == s)
  }

  /** The DeepSeek path (lines 144-158): one user message and no history is sent; `None`
      (a request error or a `null` body) stores nothing; a `KeyError` stores the apology; the
      other exceptions store nothing. */
  function DeepSeekTurn(s: SessionState, input: string, deepseek: DeepSeekApi): (r: TurnStep)
    ensures TurnEffect(s, input, r)
    ensures r.sent == ToDeepSeek(DeepSeekTurnRequest(s, input))
    ensures r.outcome == RequestFailed <==>
              deepseek(DeepSeekTurnRequest(s, input)).None? || deepseek(DeepSeekTurnRequest(s, input)) == Some(JNull)
    ensures deepseek(DeepSeekTurnRequest(s, input)).Some? && deepseek(DeepSeekTurnRequest(s, input)) != Some(JNull) ==>
              var extracted := ExtractReply(deepseek(DeepSeekTurnRequest(s, input)).value);
              (r.outcome == Apologized <==> extracted == MissingKey) &&
              (r.outcome == ExtractionRaised <==> extracted == Raised) &&
              (r.outcome == ContentRejected <==> extracted.NonText?) &&
              (extracted.Text? ==> r.outcome == Replied(extracted.reply))
  {
    var request := DeepSeekTurnRequest(s, input);
    match CallDeepSeek(deepseek, request)
    case None => TurnStep(RequestFailed, ToDeepSeek(request), s)
    case Some(response) =>
      match ExtractReply(response)
      case Text(reply) => TurnStep(Replied(reply), ToDeepSeek(request), Remember(s, input, reply))
      case MissingKey => TurnStep(Apologized, ToDeepSeek(request), Remember(s, input, Apology))
      case NonText(_) =>
        var kept := if s.memoria.Some? then Some(History(s) + [Message(Human, input)]) else None;
        TurnStep(ContentRejected, ToDeepSeek(request), s.(memoria := kept))
      case Raised => TurnStep(ExtractionRaised, ToDeepSeek(request), s)
  }

  /** The streaming path (lines 160-163): the chain gets the input and the whole history, and
      the reply is the concatenated stream; with no chain bound, `None.stream` raises. */
  function ChainTurn(s: SessionState, input: string, stream: ChatStream): (r: TurnStep)
    ensures TurnEffect(s, input, r)
    ensures r.outcome == ChainMissing <==> s.chain.None?
    ensures s.chain.None? ==> r.sent == NothingSent
    ensures s.chain.Some? ==>
              var prompt := PromptMessages(s.chain.value.template, input, History(s));
              var fragments := stream(s.chain.value.chat, prompt);
              r.sent == ToChain(s.chain.value.chat, prompt) &&
              (r.outcome == StreamRaised <==> fragments.None?) &&
              (fragments.Some? ==> r.outcome == Replied(Concat(fragments.value)))
  {
    match s.chain
    case None => TurnStep(ChainMissing, NothingSent, s)
    case Some(chain) =>
      var prompt := PromptMessages(chain.template, input, History(s));
      match stream(chain.chat, prompt)
      case None => TurnStep(StreamRaised, ToChain(chain.chat, prompt), s)
      case Some(fragments) =>
        var reply := Concat(fragments);
        TurnStep(Replied(reply), ToChain(chain.chat, prompt), Remember(s, input, reply))
  }

  /** One submitted chat input (lines 140-167): an empty input does nothing; otherwise the
      stored provider picks the DeepSeek path or the streaming path. */
  function Turn(s: SessionState, input: string, stream: ChatStream, deepseek: DeepSeekApi): (r: TurnStep)
    ensures TurnEffect(s, input, r)
    ensures input == "" ==> r == TurnStep(Ignored, NothingSent, s)
    ensures input != "" && s.provider == Some(DeepSeek) ==> r == DeepSeekTurn(s, input, deepseek)
    ensures input != "" && s.provider != Some(DeepSeek) ==> r == ChainTurn(s, input, stream)
  {
    if input == "" then TurnStep(Ignored, NothingSent, s)
    else if s.provider == Some(DeepSeek) then DeepSeekTurn(s, input, deepseek)
    else ChainTurn(s, input, stream)
  }

  /** The clear button (line 200): a fresh empty memory; the binding is untouched. */
  function Clear(s: SessionState): (t: SessionState)
    ensures t.memoria == Some([]) && History(t) == []
    ensures t.chain == s.chain && t.provider == s.provider && t.model == s.model && t.apiKey == s.apiKey
    ensures t.deepseekApiKey == s.deepseekApiKey && t.deepseekModel == s.deepseekModel
  {
    s.(memoria := Some([]))
  }
}
