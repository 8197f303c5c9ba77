/** The conversation memory: the message log of LangChain's `ConversationBufferMemory`, as
    `buffer_as_messages` shows it. */
module Memory {

  datatype Role = Human | Ai

  /** One message of the log: `add_user_message` makes a `Human` one, `add_ai_message` an `Ai` one. */
  datatype Message = Message(role: Role, content: string)

  /** One exchange: what the user said and what the assistant answered. */
  datatype Exchange = Exchange(input: string, reply: string)

  /** The log is a run of exchanges: human at even positions, ai at odd ones, even length. */
  ghost predicate Paired(log: seq<Message>)
  {
    |log| % 2 == 0 &&
    forall i :: 0 <= i < |log| ==> log[i].role == (if i % 2 == 0 then Human else Ai)
  }

  /** The log a sequence of exchanges produces, two messages per exchange. */
  function Flatten(exchanges: seq<Exchange>): (log: seq<Message>)
  {
    if exchanges == [] then []
    else
      var last := exchanges[|exchanges| - 1];
      Flatten(exchanges[..|exchanges| - 1]) + [Message(Human, last.input), Message(Ai, last.reply)]
  }

  /** The exchanges a paired log consists of. */
  function Exchanges(log: seq<Message>): (exchanges: seq<Exchange>)
    requires |log| % 2 == 0
    decreases |log|
  {
    if log == [] then []
    else Exchanges(log[..|log| - 2]) + [Exchange(log[|log| - 2].content, log[|log| - 1].content)]
  }

  /** Lines 165-166: a human message with the input, then an ai message with the reply. */
  function AddTurn(log: seq<Message>, input: string, reply: string): (r: seq<Message>)
    ensures |r| == |log| + 2 && r[..|log|] == log
    ensures r[|log|] == Message(Human, input) && r[|log| + 1] == Message(Ai, reply)
    ensures Paired(log) ==> Paired(r)
  {
    log + [Message(Human, input), Message(Ai, reply)]
  }

  /** N exchanges give a paired log of exactly 2N messages. */
  lemma {:induction false} FlattenPaired(exchanges: seq<Exchange>)
    ensures |Flatten(exchanges)| == 2 * |exchanges|
    ensures Paired(Flatten(exchanges))
  {
    if exchanges != [] {
      var init := exchanges[..|exchanges| - 1];
      FlattenPaired(init);
      var last := exchanges[|exchanges| - 1];
      assert Flatten(exchanges) == AddTurn(Flatten(init), last.input, last.reply);
    }
  }

  /** A paired log of at least one exchange ends with a human and an ai message, after a
      paired prefix. */
  lemma PairedInit(log: seq<Message>)
    requires Paired(log) && |log| >= 2
    ensures Paired(log[..|log| - 2])
    ensures log[|log| - 2].role == Human && log[|log| - 1].role == Ai
  {
    var init := log[..|log| - 2];
    forall i | 0 <= i < |init|
      ensures init[i].role == (if i % 2 == 0 then Human else Ai)
    {
      assert init[i] == log[i];
    }
    assert (|log| - 2) % 2 == 0;
  }

  /** Every paired log is the log of its exchanges. */
  lemma {:induction false} ExchangesFlatten(log: seq<Message>)
    requires Paired(log)
    ensures |Exchanges(log)| == |log| / 2
    ensures Flatten(Exchanges(log)) == log
  {
    if log != [] {
      var init := log[..|log| - 2];
      PairedInit(log);
      ExchangesFlatten(init);
      var h, a := log[|log| - 2], log[|log| - 1];
      var ex := Exchanges(log);
      assert ex == Exchanges(init) + [Exchange(h.content, a.content)];
      assert ex[..|ex| - 1] == Exchanges(init);
      assert Flatten(ex) == init + [Message(Human, h.content), Message(Ai, a.content)];
      assert log == init + [h, a];
    }
  }

  /** Appending a turn to a log appends one exchange to its exchanges. */
  lemma AddTurnExchanges(log: seq<Message>, input: string, reply: string)
    requires |log| % 2 == 0
    ensures Exchanges(AddTurn(log, input, reply)) == Exchanges(log) + [Exchange(input, reply)]
  {
    var r := AddTurn(log, input, reply);
    assert r[..|r| - 2] == log;
  }
}
