/** The chat session: an agent that owns the ordered message history, builds each request
    from a freshly synthesised system prompt followed by the whole history, and records the
    reply of the remote completion endpoint. */
module ChatAgent {
  import opened Wrappers
  import JsText

  datatype Role = System | User | Assistant

  datatype Message = Message(role: Role, content: string)

  /** What the remote completion call came back with: it failed (any transport or API error,
      any exception), or it completed and `choices[0]?.message?.content` was `firstContent`. */
  datatype Outcome = Failed | Completed(firstContent: Option<string>)

  /** The arguments of one completion call, as recorded by `SendMessage`. */
  datatype Request = Request(
    messages: seq<Message>,
    model: string,
    temperature: real,
    maxTokens: int,
    topP: real,
    stream: bool,
    stop: Option<string>)

  /** The constructor's argument; absent optional keys are `None`. */
  datatype AgentConfig = AgentConfig(
    name: string,
    personality: string,
    apiKey: Option<string>,
    temperature: Option<real>,
    maxTokens: Option<int>)

  /** The argument of `updateConfig`: every key may be absent. */
  datatype AgentConfigUpdate = AgentConfigUpdate(
    name: Option<string>,
    personality: Option<string>,
    apiKey: Option<string>,
    temperature: Option<real>,
    maxTokens: Option<int>)

  const MissingKeyError := "API key is required to initialize the chat agent"
  const InvalidInputError := "Invalid input: Message must be a non-empty string"
  const GenerationError := "Failed to generate response"
  const NoResponse := "No response generated"
  const ModelId := "llama-3.2-90b-vision-preview"
  const DefaultTemperature: real := 0.7
  const DefaultMaxTokens: int := 1024

  /** The fixed text of the system prompt's template around the name and the personality. */
  const PromptMiddle := "an AI assistant with the following personality: "
  const PromptClosing := ". \n    Respond to messages in a way that reflects this personality while being helpful and accurate."

  /** JavaScript truthiness of an optional string and of optional numbers (NaN is not modelled). */
  predicate TruthyText(v: Option<string>) { v.Some? && v.value != "" }
  predicate TruthyReal(v: Option<real>) { v.Some? && v.value != 0.0 }
  predicate TruthyInt(v: Option<int>) { v.Some? && v.value != 0 }

  /** The history invariant: the system prompt is never stored. */
  predicate NoSystemTurn(history: seq<Message>) {
    forall i :: 0 <= i < |history| ==> history[i].role != System
  }

  /** `validateInput`: the error it throws, if any. */
  function ValidateInput(message: string): (error: Option<string>)
    ensures error.None? <==> message != ""
  {
    if message == "" then Some(InvalidInputError) else None
  }

  /** `generateSystemPrompt`: an opening sentence that names the persona and lists its
      personality, then the instruction to answer in that persona. */
  function SystemPrompt(name: string, personality: string): (prompt: string)
    ensures "You are " + name + ", " + PromptMiddle + personality <= prompt
  {
    var opening := "You are " + name + ", " + PromptMiddle + personality;
    assert (opening + PromptClosing)[..|opening|] == opening;
    opening + PromptClosing
  }

  /** The message list sent to the endpoint: one system entry followed by the history. */
  function Outgoing(prompt: string, history: seq<Message>): (messages: seq<Message>)
    ensures |messages| == |history| + 1 && messages[1..] == history
    ensures messages[0] == Message(System, prompt)
    ensures NoSystemTurn(history) ==>
      forall i :: 0 <= i < |messages| ==> (messages[i].role == System <==> i == 0)
  {
    [Message(System, prompt)] + history
  }

  /** The text of the assistant turn: never empty. */
  function ResponseText(firstContent: Option<string>): (text: string)
    ensures text != ""
    ensures TruthyText(firstContent) ==> text == firstContent.value
    ensures !TruthyText(firstContent) ==> text == NoResponse
  {
    if TruthyText(firstContent) then firstContent.value else NoResponse
  }

  /** The history after one `sendMessage(message)` whose remote call ended in `outcome`. */
  function AfterSend(history: seq<Message>, message: string, outcome: Outcome): seq<Message> {
    if message == "" then history
    else if outcome.Failed? then history + [Message(User, message)]
    else history + [Message(User, message), Message(Assistant, ResponseText(outcome.firstContent))]
  }

  /** What `sendMessage(message)` resolves to, or the message it rejects with. */
  function Reply(message: string, outcome: Outcome): Result<string, string> {
    if message == "" || outcome.Failed? then Failure(GenerationError)
    else Success(ResponseText(outcome.firstContent))
  }

  /** The request a send of `message` issues, if it gets past validation. */
  function RequestFor(name: string, personality: string, temperature: real, maxTokens: int,
                      history: seq<Message>, message: string): Option<Request>
  {
    if message == "" then None
    else Some(Request(Outgoing(SystemPrompt(name, personality), history + [Message(User, message)]),
                      ModelId, temperature, maxTokens, 1.0, false, None))
  }

  /** An empty message is rejected with the generic error and leaves the history as it was. */
  lemma EmptyMessageRejected(history: seq<Message>, outcome: Outcome)
    ensures AfterSend(history, "", outcome) == history
    ensures Reply("", outcome) == Failure(GenerationError)
  {
  }

  /** A successful send appends exactly the user turn and then the assistant turn, whose
      content is the returned reply; earlier entries are untouched. */
  lemma SuccessfulSendAppendsTwo(history: seq<Message>, message: string, content: Option<string>)
    requires message != ""
    ensures Reply(message, Completed(content)).Success?
    ensures AfterSend(history, message, Completed(content))
         == history + [Message(User, message), Message(Assistant, Reply(message, Completed(content)).value)]
  {
  }

  /** A failed remote call leaves the user turn in place, unanswered, and surfaces only the
      generic error. */
  lemma FailedSendKeepsUserTurn(history: seq<Message>, message: string)
    requires message != ""
    ensures AfterSend(history, message, Failed) == history + [Message(User, message)]
    ensures Reply(message, Failed) == Failure(GenerationError)
  {
  }

  /** Every failure is the same generic error, and every success is the text of the last
      (assistant) turn of the new history. */
  lemma ReplyMatchesHistory(history: seq<Message>, message: string, outcome: Outcome)
    ensures Reply(message, outcome).Failure? ==> Reply(message, outcome).error == GenerationError
    ensures Reply(message, outcome).Success? ==>
      var h := AfterSend(history, message, outcome);
      |h| == |history| + 2 && h[|h| - 1] == Message(Assistant, Reply(message, outcome).value)
  {
  }

  /** A send only ever appends: the old history is a prefix of the new one, it grows by at most
      two entries, and no system entry gets in. */
  lemma SendExtends(history: seq<Message>, message: string, outcome: Outcome)
    ensures history <= AfterSend(history, message, outcome)
    ensures |history| <= |AfterSend(history, message, outcome)| <= |history| + 2
    ensures NoSystemTurn(history) ==> NoSystemTurn(AfterSend(history, message, outcome))
  {
    var h := AfterSend(history, message, outcome);
    if NoSystemTurn(history) {
      forall i | 0 <= i < |h| ensures h[i].role != System {
        if i < |history| { assert h[i] == history[i]; }
      }
    }
  }

  /** A request carries the full history, ending with the new user turn, behind one system entry. */
  lemma RequestCarriesHistory(name: string, personality: string, temperature: real, maxTokens: int,
                              history: seq<Message>, message: string)
    requires message != ""
    ensures var r := RequestFor(name, personality, temperature, maxTokens, history, message);
      r.Some? && r.value.messages[0] == Message(System, SystemPrompt(name, personality))
      && r.value.messages[1..] == history + [Message(User, message)]
      && r.value.messages[|r.value.messages| - 1] == Message(User, message)
      && r.value.temperature == temperature && r.value.maxTokens == maxTokens
  {
  }

  /** The agent is no gatekeeper for blank text: only the empty string is rejected, so a
      whitespace-only message, which trims to nothing, is sent like any other. */
  lemma WhitespaceMessageIsSent(history: seq<Message>, message: string, content: Option<string>)
    requires message != "" && JsText.AllWhitespace(message)
    ensures JsText.Trim(message) == ""
    ensures ValidateInput(message).None?
    ensures AfterSend(history, message, Completed(content))
         == history + [Message(User, message), Message(Assistant, ResponseText(content))]
    ensures Reply(message, Completed(content)).Success?
  {
  }

  /** The history after a sequence of sends, each a message with the outcome of its remote call. */
  function Replay(history: seq<Message>, sends: seq<(string, Outcome)>): seq<Message>
    decreases |sends|
  {
    if sends == [] then history
    else
      var last := sends[|sends| - 1];
      AfterSend(Replay(history, sends[..|sends| - 1]), last.0, last.1)
  }

  predicate AllAnswered(sends: seq<(string, Outcome)>) {
    forall i :: 0 <= i < |sends| ==> sends[i].0 != "" && sends[i].1.Completed?
  }

  /** After n successful sends on a fresh session the history has 2n entries, alternating
      user and assistant and starting with user; the k-th user turn is the k-th message. */
  lemma {:induction false} AnsweredSendsAlternate(sends: seq<(string, Outcome)>)
    requires AllAnswered(sends)
    ensures |Replay([], sends)| == 2 * |sends|
    ensures forall i :: 0 <= i < |Replay([], sends)| ==>
      Replay([], sends)[i].role == (if i % 2 == 0 then User else Assistant)
    ensures forall k :: 0 <= k < |sends| ==> Replay([], sends)[2 * k] == Message(User, sends[k].0)
    decreases |sends|
  {
    if sends != [] {
      var init := sends[..|sends| - 1];
      assert AllAnswered(init) by {
        forall i | 0 <= i < |init| ensures init[i].0 != "" && init[i].1.Completed? {
          assert init[i] == sends[i];
        }
      }
      AnsweredSendsAlternate(init);
      var prev := Replay([], init);
      var last := sends[|sends| - 1];
      var h := Replay([], sends);
      assert h == prev + [Message(User, last.0), Message(Assistant, ResponseText(last.1.firstContent))];
      forall i | 0 <= i < |h| ensures h[i].role == (if i % 2 == 0 then User else Assistant) {
        if i < |prev| { assert h[i] == prev[i]; }
      }
      forall k | 0 <= k < |sends| ensures h[2 * k] == Message(User, sends[k].0) {
        if k < |init| { assert h[2 * k] == prev[2 * k]; assert init[k] == sends[k]; }
      }
    }
  }

  /** No sequence of sends ever stores a system entry. */
  lemma {:induction false} ReplayKeepsNoSystemTurn(history: seq<Message>, sends: seq<(string, Outcome)>)
    requires NoSystemTurn(history)
    ensures NoSystemTurn(Replay(history, sends))
    decreases |sends|
  {
    if sends != [] {
      var last := sends[|sends| - 1];
      ReplayKeepsNoSystemTurn(history, sends[..|sends| - 1]);
      SendExtends(Replay(history, sends[..|sends| - 1]), last.0, last.1);
    }
  }

  /** The session of the scenario "Ava says Hello!": one send of "Hi" on a fresh agent. */
  lemma HelloScenario()
    ensures AfterSend([], "Hi", Completed(Some("Hello!")))
         == [Message(User, "Hi"), Message(Assistant, "Hello!")]
    ensures Reply("Hi", Completed(Some("Hello!"))) == Success("Hello!")
    ensures AfterSend([], "Hi", Completed(None)) == [Message(User, "Hi"), Message(Assistant, NoResponse)]
  {
  }

  class ChatAgent {
    var name: string
    var personality: string
    var messageHistory: seq<Message>
    var temperature: real
    var maxTokens: int

    predicate Valid()
      reads this
    {
      NoSystemTurn(messageHistory)
    }

    /** The body of the constructor once the key has been checked (`Create` does the check). */
    constructor Init(config: AgentConfig)
      requires TruthyText(config.apiKey)
      ensures Valid() && messageHistory == []
      ensures name == config.name && personality == config.personality
      ensures temperature == config.temperature.GetOr(DefaultTemperature)
      ensures maxTokens == config.maxTokens.GetOr(DefaultMaxTokens)
    {
      name := config.name;
      personality := config.personality;
      messageHistory := [];
      temperature := config.temperature.GetOr(DefaultTemperature);
      maxTokens := config.maxTokens.GetOr(DefaultMaxTokens);
    }

    /** `new ChatAgent(config)`: throws when the key is missing or empty; otherwise a fresh agent
        with an empty history, whose temperature and token limit default only when absent. */
    static method Create(config: AgentConfig) returns (r: Result<ChatAgent, string>)
      ensures r.Failure? <==> !TruthyText(config.apiKey)
      ensures r.Failure? ==> r.error == MissingKeyError
      ensures r.Success? ==> fresh(r.value) && r.value.Valid() && r.value.messageHistory == []
      ensures r.Success? ==> r.value.name == config.name && r.value.personality == config.personality
      ensures r.Success? ==> r.value.temperature == config.temperature.GetOr(DefaultTemperature)
      ensures r.Success? ==> r.value.maxTokens == config.maxTokens.GetOr(DefaultMaxTokens)
    {
      if !TruthyText(config.apiKey) {
        return Failure(MissingKeyError);
      }
      var agent := new ChatAgent.Init(config);
      return Success(agent);
    }

    /** `getMessageHistory`: a copy equal to the history. */
    method GetMessageHistory() returns (history: seq<Message>)
      ensures history == messageHistory
    {
      history := messageHistory;
    }

    /** `sendMessage(message)` with the remote call ending in `outcome`. Returns the reply (or
        the rejection) and the request made, if one was. */
    method SendMessage(message: string, outcome: Outcome) returns (reply: Result<string, string>, sent: Option<Request>)
      requires Valid()
      modifies this
      ensures Valid()
      ensures messageHistory == AfterSend(old(messageHistory), message, outcome)
      ensures reply == Reply(message, outcome)
      ensures sent == RequestFor(name, personality, temperature, maxTokens, old(messageHistory), message)
      ensures name == old(name) && personality == old(personality)
      ensures temperature == old(temperature) && maxTokens == old(maxTokens)
    {
      SendExtends(messageHistory, message, outcome);
      if ValidateInput(message).Some? {
        return Failure(GenerationError), None;
      }
      messageHistory := messageHistory + [Message(User, message)];
      var messages := Outgoing(SystemPrompt(name, personality), messageHistory);
      sent := Some(Request(messages, ModelId, temperature, maxTokens, 1.0, false, None));
      match outcome
      case Failed =>
        reply := Failure(GenerationError);
      case Completed(firstContent) =>
        var response := ResponseText(firstContent);
        messageHistory := messageHistory + [Message(Assistant, response)];
        reply := Success(response);
    }

    /** `clearHistory`: the history becomes empty; the configuration is untouched. */
    method ClearHistory()
      modifies this
      ensures Valid() && messageHistory == []
      ensures name == old(name) && personality == old(personality)
      ensures temperature == old(temperature) && maxTokens == old(maxTokens)
    {
      messageHistory := [];
    }

    /** `updateConfig(update)`: a field is overwritten only by a truthy value (so 0 and "" are
        ignored); the key is not stored and the history is untouched. */
    method UpdateConfig(update: AgentConfigUpdate)
      modifies this
      ensures name == (if TruthyText(update.name) then update.name.value else old(name))
      ensures personality == (if TruthyText(update.personality) then update.personality.value else old(personality))
      ensures temperature == (if TruthyReal(update.temperature) then update.temperature.value else old(temperature))
      ensures maxTokens == (if TruthyInt(update.maxTokens) then update.maxTokens.value else old(maxTokens))
      ensures messageHistory == old(messageHistory)
    {
      if TruthyText(update.name) { name := update.name.value; }
      if TruthyText(update.personality) { personality := update.personality.value; }
      if TruthyReal(update.temperature) { temperature := update.temperature.value; }
      if TruthyInt(update.maxTokens) { maxTokens := update.maxTokens.value; }
    }
  }
}
