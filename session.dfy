/** `st.session_state` as an object whose fields the handlers of `principal/main.py` write one
    by one. Each handler is proved to leave the object in the state the corresponding function
    of `Orchestrator` computes, and to keep the session coherent. */
module StreamlitSession {
  import opened Wrappers
  import opened Registry
  import opened Documents
  import opened Memory
  import opened Orchestrator
  import opened Lifecycle

  class Session {
    var chain: Option<Chain>
    var provider: Option<string>
    var model: Option<string>
    var apiKey: Option<string>
    var deepseekApiKey: Option<string>
    var deepseekModel: Option<string>
    var memoria: Option<seq<Message>>

    /** The stored values, as one record. */
    function State(): SessionState
      reads this
    {
      SessionState(chain, provider, model, apiKey, deepseekApiKey, deepseekModel, memoria)
    }

    ghost predicate Valid()
      reads this
    {
      Coherent(State())
    }

    /** A session before any key is written. */
    constructor ()
      ensures Valid() && State() == Fresh
    {
      chain, provider, model, apiKey := None, None, None, None;
      deepseekApiKey, deepseekModel, memoria := None, None, None;
    }

    /** The "Inicializar o Oráculo" button: `carrega_modelo`. */
    method Initialize(loaders: Loaders, accepts: ChatConstructor, provedor: string, modelo: string,
                      key: string, tipoArquivo: string, arquivo: Option<Source>) returns (outcome: BindOutcome)
      requires Valid()
      modifies this
      ensures Valid()
      ensures var r := Orchestrator.Initialize(old(State()), loaders, accepts, provedor, modelo, key, tipoArquivo, arquivo);
              outcome == r.outcome && State() == r.next
    {
      if arquivo.None? {
        return MissingDocument;
      }
      var documento := CarregaArquivo(loaders, tipoArquivo, arquivo.value);
      if documento.Failed? {
        return LoadFailed;
      }
      var template := PromptTemplate(SystemMessage(tipoArquivo, documento.text));
      if provedor !in ConfigModelos {
        return Invalid(InvalidProvider);
      }
      var config := ConfigModelos[provedor];
      if modelo !in config.modelos {
        return Invalid(InvalidModel);
      }
      assert Resolve(provedor, modelo) == Ok(config);
      var built: Option<Chain> := None;   // the `chain=None` parameter
      if provedor == DeepSeek {
        deepseekApiKey := Some(key);
        deepseekModel := Some(modelo);
        chain := None;
      } else {
        if !accepts(config.chat, modelo, key) {
          return ChatFailed;
        }
        built := Some(Chain(template, ChatHandle(config.chat, modelo, key)));
      }
      chain := built;
      model := Some(modelo);
      provider := Some(provedor);
      apiKey := Some(key);
      outcome := Bound;
    }

    /** A chat input submitted on the chat page (lines 140-167). */
    method Submit(input: string, stream: ChatStream, deepseek: DeepSeekApi)
      returns (outcome: TurnOutcome, sent: Sent)
      requires Valid()
      modifies this
      ensures Valid()
      ensures var r := Turn(old(State()), input, stream, deepseek);
              outcome == r.outcome && sent == r.sent && State() == r.next
      ensures old(provider).Some? && input != "" ==> outcome != ChainMissing && sent != NothingSent
    {
      if provider.Some? && input != "" {
        BoundSessionCanChat(State(), input, stream, deepseek);
      }
      if input == "" {
        return Ignored, NothingSent;
      }
      if provider == Some(DeepSeek) {
        outcome, sent := AskDeepSeek(input, deepseek);
      } else {
        outcome, sent := StreamReply(input, stream);
      }
    }

    /** The DeepSeek branch of the turn handler (lines 144-158, then 165-167). */
    method AskDeepSeek(input: string, deepseek: DeepSeekApi) returns (outcome: TurnOutcome, sent: Sent)
      modifies this
      ensures var r := DeepSeekTurn(old(State()), input, deepseek);
              outcome == r.outcome && sent == r.sent && State() == r.next
    {
      var request := DeepSeekRequest(deepseekApiKey, deepseekModel, [UserMessage(input)]);
      sent := ToDeepSeek(request);
      var response := CallDeepSeek(deepseek, request);
      if response.None? {
        return RequestFailed, sent;
      }
      match ExtractReply(response.value)
      case Text(text) =>
        AddMessages(input, text);
        outcome := Replied(text);
      case MissingKey =>
        AddMessages(input, Apology);
        outcome := Apologized;
      case NonText(_) =>
        // `add_user_message` has already changed the stored buffer in place
        if memoria.Some? {
          memoria := Some(memoria.value + [Message(Human, input)]);
        }
        outcome := ContentRejected;
      case Raised =>
        outcome := ExtractionRaised;
    }

    /** The streaming branch of the turn handler (lines 159-163, then 165-167). */
    method StreamReply(input: string, stream: ChatStream) returns (outcome: TurnOutcome, sent: Sent)
      modifies this
      ensures var r := ChainTurn(old(State()), input, stream);
              outcome == r.outcome && sent == r.sent && State() == r.next
    {
      if chain.None? {
        return ChainMissing, NothingSent;
      }
      var prompt := PromptMessages(chain.value.template, input, History(State()));
      sent := ToChain(chain.value.chat, prompt);
      var fragments := stream(chain.value.chat, prompt);
      if fragments.None? {
        return StreamRaised, sent;
      }
      var reply := Concat(fragments.value);
      AddMessages(input, reply);
      outcome := Replied(reply);
    }

    /** `add_user_message`, `add_ai_message` and storing the buffer (lines 165-167). */
    method AddMessages(input: string, reply: string)
      modifies this
      ensures State() == Remember(old(State()), input, reply)
    {
      var history := History(State());
      history := history + [Message(Human, input)];
      history := history + [Message(Ai, reply)];
      assert history == AddTurn(History(old(State())), input, reply);
      memoria := Some(history);
    }

    /** The "Apagar Histórico de Conversa" button (line 200). */
    method ClearHistory()
      requires Valid()
      modifies this
      ensures Valid()
      ensures State() == Clear(old(State()))
    {
      memoria := Some([]);
    }
  }
}
