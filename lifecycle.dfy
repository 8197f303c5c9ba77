/** What holds across any sequence of user actions: initialising, submitting a chat input and
    clearing the history, in any order. */
module Lifecycle {
  import opened Wrappers
  import opened PyJson
  import opened Registry
  import opened Documents
  import opened Memory
  import opened Orchestrator

  /** One user action, each running to completion before the next (one script rerun each). */
  datatype Action =
    | InitializeAction(loaders: Loaders, accepts: ChatConstructor, provider: string, model: string,
                       apiKey: string, kind: string, arquivo: Option<Source>)
    | SubmitAction(input: string, stream: ChatStream, deepseek: DeepSeekApi)
    | ClearAction

  datatype ActionOutcome = BindDone(bind: BindOutcome) | TurnDone(turn: TurnOutcome) | Cleared

  datatype Trace = Trace(final: SessionState, outcomes: seq<ActionOutcome>)

  /** One action on the session. */
  function Step(s: SessionState, a: Action): (SessionState, ActionOutcome)
  {
    match a
    case InitializeAction(loaders, accepts, provider, model, apiKey, kind, arquivo) =>
      var b := Initialize(s, loaders, accepts, provider, model, apiKey, kind, arquivo);
      (b.next, BindDone(b.outcome))
    case SubmitAction(input, stream, deepseek) =>
      var t := Turn(s, input, stream, deepseek);
      (t.next, TurnDone(t.outcome))
    case ClearAction => (Clear(s), Cleared)
  }

  type StepFunction = (SessionState, Action) -> (SessionState, ActionOutcome)

  /** The actions applied one after the other by `step`, with the outcome of each. */
  function RunWith(step: StepFunction, s: SessionState, actions: seq<Action>): (r: Trace)
    ensures |r.outcomes| == |actions|
  {
    if actions == [] then Trace(s, [])
    else
      var prev := RunWith(step, s, actions[..|actions| - 1]);
      var (next, outcome) := step(prev.final, actions[|actions| - 1]);
      Trace(next, prev.outcomes + [outcome])
  }

  /** The session after a sequence of actions, and what each one reported. */
  function Run(s: SessionState, actions: seq<Action>): Trace
  {
    RunWith(Step, s, actions)
  }

  // ---------------------------------------------------------------------------------------
  // Coherence of the binding

  /** The consistency every reachable session has: nothing bound, or a supported provider and
      model with the handle that provider needs; DeepSeek has its credentials and no chain,
      the other providers a chain built for the stored model and key. */
  ghost predicate Coherent(s: SessionState)
  {
    (s.provider.None? ==> s.chain.None? && s.model.None? && s.apiKey.None?) &&
    (s.provider.Some? ==>
       s.model.Some? && s.apiKey.Some? && (s.provider.value, s.model.value) in SupportedPairs &&
       if s.provider.value == DeepSeek then
         s.chain.None? && s.deepseekApiKey == s.apiKey && s.deepseekModel == s.model
       else
         s.chain.Some? &&
         s.chain.value.chat == ChatHandle(ConfigModelos[s.provider.value].chat, s.model.value, s.apiKey.value))
  }

  lemma FreshCoherent()
    ensures Coherent(Fresh) && History(Fresh) == []
  {
  }

  /** Every action keeps a session coherent. */
  lemma StepKeepsCoherent(s: SessionState, a: Action)
    requires Coherent(s)
    ensures Coherent(Step(s, a).0)
  {
  }

  lemma {:induction false} RunWithKeepsCoherent(step: StepFunction, s: SessionState, actions: seq<Action>)
    requires forall t, a :: Coherent(t) ==> Coherent(step(t, a).0)
    requires Coherent(s)
    ensures Coherent(RunWith(step, s, actions).final)
  {
    if actions != [] {
      RunWithKeepsCoherent(step, s, actions[..|actions| - 1]);
    }
  }

  /** Any sequence of actions keeps a session coherent. */
  lemma RunKeepsCoherent(s: SessionState, actions: seq<Action>)
    requires Coherent(s)
    ensures Coherent(Run(s, actions).final)
  {
    forall t, a | Coherent(t) ensures Coherent(Step(t, a).0) {
      StepKeepsCoherent(t, a);
    }
    RunWithKeepsCoherent(Step, s, actions);
  }

  /** In a coherent session with a provider bound, a chat input always reaches a provider:
      the `None.stream` crash cannot happen. */
  lemma BoundSessionCanChat(s: SessionState, input: string, stream: ChatStream, deepseek: DeepSeekApi)
    requires Coherent(s) && s.provider.Some? && input != ""
    ensures Turn(s, input, stream, deepseek).outcome != ChainMissing
    ensures Turn(s, input, stream, deepseek).sent != NothingSent
  {
  }

  /** After a successful bind to Groq or OpenAI, every chat turn sends the grounding system
      message first, and the document can be read back from it unchanged. */
  lemma BoundChainIsGrounded(s: SessionState, loaders: Loaders, accepts: ChatConstructor,
                             provider: string, model: string,
                             apiKey: string, kind: string, arquivo: Option<Source>,
                             input: string, stream: ChatStream, deepseek: DeepSeekApi)
    requires Initialize(s, loaders, accepts, provider, model, apiKey, kind, arquivo).outcome == Bound
    requires provider != DeepSeek && input != ""
    ensures var bound := Initialize(s, loaders, accepts, provider, model, apiKey, kind, arquivo).next;
            var sent := Turn(bound, input, stream, deepseek).sent;
            sent.ToChain? && sent.prompt[0].System? &&
            DocumentOf(Oraculo, sent.prompt[0].text, kind) == Some(CarregaArquivo(loaders, kind, arquivo.value).text)
  {
    DocumentOfFill(Oraculo, kind, CarregaArquivo(loaders, kind, arquivo.value).text);
  }

  /** A DeepSeek request depends on the stored DeepSeek key and model and the input only: not
      on the history, the chain or the document the session was bound to. */
  lemma DeepSeekSendsNoHistory(s1: SessionState, s2: SessionState, input: string,
                               stream: ChatStream, deepseek: DeepSeekApi)
    requires s1.provider == s2.provider == Some(DeepSeek) && input != ""
    requires s1.deepseekApiKey == s2.deepseekApiKey && s1.deepseekModel == s2.deepseekModel
    ensures Turn(s1, input, stream, deepseek).sent == Turn(s2, input, stream, deepseek).sent
  {
  }

  /** Binding twice with the same arguments, and with loaders and a chat constructor that give
      the same results both times, is the same as binding once. (A site loader that fetches a
      different page the second time is a different `loaders` value.) */
  lemma InitializeIdempotent(s: SessionState, loaders: Loaders, accepts: ChatConstructor,
                             provider: string, model: string, apiKey: string, kind: string, arquivo: Option<Source>)
    ensures var once := Initialize(s, loaders, accepts, provider, model, apiKey, kind, arquivo);
            Initialize(once.next, loaders, accepts, provider, model, apiKey, kind, arquivo) == once
  {
  }

  // ---------------------------------------------------------------------------------------
  // The memory over a run

  /** The exchange an action appended to the memory, if any. */
  function StepExchange(a: Action, outcome: ActionOutcome): (e: seq<Exchange>)
    ensures |e| <= 1
  {
    if !a.SubmitAction? then []
    else match outcome
      case TurnDone(Replied(reply)) => [Exchange(a.input, reply)]
      case TurnDone(Apologized) => [Exchange(a.input, Apology)]
      case _ => []
  }

  /** The exchanges that a run appended to the memory, in order. */
  function NewExchanges(actions: seq<Action>, outcomes: seq<ActionOutcome>): (e: seq<Exchange>)
    requires |actions| == |outcomes|
  {
    if actions == [] then []
    else
      var n := |actions| - 1;
      NewExchanges(actions[..n], outcomes[..n]) + StepExchange(actions[n], outcomes[n])
  }

  /** No turn of the run had its ai message rejected. */
  ghost predicate NoRejectedContent(outcomes: seq<ActionOutcome>)
  {
    forall i :: 0 <= i < |outcomes| ==> outcomes[i] != TurnDone(ContentRejected)
  }

  ghost predicate NoClear(actions: seq<Action>)
  {
    forall i :: 0 <= i < |actions| ==> !actions[i].ClearAction?
  }

  /** One action other than a clear appends exactly the exchange it reports. */
  lemma StepAppends(s: SessionState, a: Action)
    requires !a.ClearAction? && Step(s, a).1 != TurnDone(ContentRejected)
    ensures History(Step(s, a).0) == History(s) + Flatten(StepExchange(a, Step(s, a).1))
  {
    var e := StepExchange(a, Step(s, a).1);
    if e != [] {
      assert e[..0] == [];
      assert Flatten(e) == [Message(Human, e[0].input), Message(Ai, e[0].reply)];
    }
  }

  /** Every action keeps the memory paired, except a turn whose ai message is rejected. */
  lemma StepKeepsPaired(s: SessionState, a: Action)
    requires Paired(History(s)) && Step(s, a).1 != TurnDone(ContentRejected)
    ensures Paired(History(Step(s, a).0))
  {
  }

  lemma FlattenAppend(prev: seq<Exchange>, e: seq<Exchange>)
    requires |e| <= 1
    ensures Flatten(prev + e) == Flatten(prev) + Flatten(e)
  {
    if e == [] {
      assert prev + e == prev;
    } else {
      assert (prev + e)[..|prev|] == prev;
      assert e[..0] == [];
    }
  }

  /** The conditions on a run hold of its prefix without the last action. */
  lemma RunWithPrefix(step: StepFunction, s: SessionState, actions: seq<Action>)
    requires actions != []
    ensures var n := |actions| - 1;
            var prev := RunWith(step, s, actions[..n]);
            RunWith(step, s, actions).outcomes[..n] == prev.outcomes &&
            (NoRejectedContent(RunWith(step, s, actions).outcomes) ==> NoRejectedContent(prev.outcomes)) &&
            (NoClear(actions) ==> NoClear(actions[..n]))
  {
    var n := |actions| - 1;
    var prev := RunWith(step, s, actions[..n]);
    var full := RunWith(step, s, actions);
    assert full.outcomes[..n] == prev.outcomes;
    if NoRejectedContent(full.outcomes) {
      forall i | 0 <= i < n ensures prev.outcomes[i] != TurnDone(ContentRejected) {
        assert prev.outcomes[i] == full.outcomes[i];
      }
    }
    if NoClear(actions) {
      forall i | 0 <= i < n ensures !actions[..n][i].ClearAction? {
        assert actions[..n][i] == actions[i];
      }
    }
  }

  lemma {:induction false} RunWithAppends(step: StepFunction, s: SessionState, actions: seq<Action>)
    requires forall t, a: Action :: !a.ClearAction? && step(t, a).1 != TurnDone(ContentRejected) ==>
               History(step(t, a).0) == History(t) + Flatten(StepExchange(a, step(t, a).1))
    requires NoClear(actions) && NoRejectedContent(RunWith(step, s, actions).outcomes)
    ensures History(RunWith(step, s, actions).final) ==
            History(s) + Flatten(NewExchanges(actions, RunWith(step, s, actions).outcomes))
  {
    if actions != [] {
      var n := |actions| - 1;
      var init, last := actions[..n], actions[n];
      RunWithPrefix(step, s, actions);
      var prev := RunWith(step, s, init);
      var full := RunWith(step, s, actions);
      var earlier := NewExchanges(init, prev.outcomes);
      var added := StepExchange(last, full.outcomes[n]);
      assert full.final == step(prev.final, last).0 && full.outcomes[n] == step(prev.final, last).1;
      assert !last.ClearAction? && full.outcomes[n] != TurnDone(ContentRejected);
      RunWithAppends(step, s, init);
      assert NewExchanges(actions, full.outcomes) == earlier + added;
      FlattenAppend(earlier, added);
      AppendTwice(History(s), History(prev.final), History(full.final), Flatten(earlier), Flatten(added));
    }
  }

  lemma AppendTwice(h0: seq<Message>, h1: seq<Message>, h2: seq<Message>, f1: seq<Message>, f2: seq<Message>)
    requires h1 == h0 + f1 && h2 == h1 + f2
    ensures h2 == h0 + (f1 + f2)
  {
  }

  /** Without a clear, the memory only grows, by one (human, ai) pair per answered turn and in
      the order of the turns; earlier messages are never changed. */
  lemma RunAppendsExchanges(s: SessionState, actions: seq<Action>)
    requires NoClear(actions) && NoRejectedContent(Run(s, actions).outcomes)
    ensures History(Run(s, actions).final) ==
            History(s) + Flatten(NewExchanges(actions, Run(s, actions).outcomes))
  {
    forall t, a: Action | !a.ClearAction? && Step(t, a).1 != TurnDone(ContentRejected)
      ensures History(Step(t, a).0) == History(t) + Flatten(StepExchange(a, Step(t, a).1))
    {
      StepAppends(t, a);
    }
    RunWithAppends(Step, s, actions);
  }

  lemma {:induction false} RunWithKeepsPaired(step: StepFunction, s: SessionState, actions: seq<Action>)
    requires forall t, a :: Paired(History(t)) && step(t, a).1 != TurnDone(ContentRejected) ==>
               Paired(History(step(t, a).0))
    requires Paired(History(s)) && NoRejectedContent(RunWith(step, s, actions).outcomes)
    ensures Paired(History(RunWith(step, s, actions).final))
  {
    if actions != [] {
      var n := |actions| - 1;
      RunWithPrefix(step, s, actions);
      var prev := RunWith(step, s, actions[..n]);
      RunWithKeepsPaired(step, s, actions[..n]);
      assert RunWith(step, s, actions).outcomes[n] == step(prev.final, actions[n]).1;
    }
  }

  /** Every action keeps the memory paired, clears included, unless a turn's ai message is
      rejected. */
  lemma RunKeepsPaired(s: SessionState, actions: seq<Action>)
    requires Paired(History(s)) && NoRejectedContent(Run(s, actions).outcomes)
    ensures Paired(History(Run(s, actions).final))
  {
    forall t, a | Paired(History(t)) && Step(t, a).1 != TurnDone(ContentRejected)
      ensures Paired(History(Step(t, a).0))
    {
      StepKeepsPaired(t, a);
    }
    RunWithKeepsPaired(Step, s, actions);
  }

  /** From an empty memory, N answered turns leave exactly 2N messages: the N exchanges, each
      a human message followed by an ai message. */
  lemma ConversationOfNTurns(s: SessionState, actions: seq<Action>)
    requires History(s) == [] && NoClear(actions) && NoRejectedContent(Run(s, actions).outcomes)
    ensures var n := |NewExchanges(actions, Run(s, actions).outcomes)|;
            |History(Run(s, actions).final)| == 2 * n && Paired(History(Run(s, actions).final))
  {
    RunAppendsExchanges(s, actions);
    FlattenPaired(NewExchanges(actions, Run(s, actions).outcomes));
  }

  /** The one way the pairing breaks: DeepSeek answering with a `null` content stores the
      human message and no ai message. */
  lemma NullContentBreaksPairing()
    ensures var s := Fresh.(provider := Some(DeepSeek), memoria := Some([]));
            var body := JObj(map["choices" := JArr([JObj(map["message" := JObj(map["content" := JNull])])])]);
            var t := Turn(s, "oi", (c, p) => None, (request: HttpRequest) => Some(body));
            t.outcome == ContentRejected && History(t.next) == [Message(Human, "oi")] && !Paired(History(t.next))
  {
    var body := JObj(map["choices" := JArr([JObj(map["message" := JObj(map["content" := JNull])])])]);
    assert HasReplyPath(body) && ReplyAt(body) == JNull;
  }

  /** A 2xx body `null` is Python's `None` to the caller: the turn takes the failed-request
      return and stores nothing. */
  lemma NullBodyFailsRequest(s: SessionState, input: string)
    requires s.provider == Some(DeepSeek) && input != ""
    ensures var t := Turn(s, input, (c, p) => None, (request: HttpRequest) => Some(JNull));
            t.outcome == RequestFailed && t.next == s
  {
  }

  /** A 2xx body without `choices` is answered with the apology, and both messages are kept. */
  lemma UnexpectedBodyApologizes(s: SessionState, input: string)
    requires s.provider == Some(DeepSeek) && input != ""
    ensures var body := JObj(map["unexpected" := JBool(true)]);
            var t := Turn(s, input, (c, p) => None, (request: HttpRequest) => Some(body));
            t.outcome == Apologized && |History(t.next)| == |History(s)| + 2 &&
            History(t.next)[|History(s)| + 1] == Message(Ai, Apology)
  {
  }
}
