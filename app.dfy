/** The chat screen's state and handlers: agent start-up, sending (with the trim, agent and
    online guard) and clearing. The displayed message list mirrors the agent's history only
    after a successful send. */
module App {
  import opened Wrappers
  import opened JsText
  import opened ChatAgent
  import WizardContext

  /** What `localStorage.getItem('botConfig')` held at start-up, after `JSON.parse`. */
  datatype Stored = Absent | Parsed(config: WizardContext.BotConfig) | Unparsable(message: string)

  const MissingKeyMessage := "Missing GROQ API key. Please set the VITE_GROQ_API_KEY environment variable."
  const DefaultName := "Friendly Assistant"
  const DefaultPersonality: seq<string> := ["Helpful", "Friendly"]

  /** `{ ...config, apiKey }` for the saved configuration, or for the built-in default when
      nothing is saved; the trait list reaches the agent as its `toString()`. */
  function AgentConfigFor(saved: Option<WizardContext.BotConfig>, apiKey: string): (c: AgentConfig)
    ensures c.apiKey == Some(apiKey)
    ensures saved.None? ==> c == AgentConfig(DefaultName, "Helpful,Friendly", Some(apiKey), Some(0.7), Some(1024))
    ensures saved.Some? ==> c == AgentConfig(saved.value.name, JoinComma(saved.value.personality),
                                             Some(apiKey), Some(saved.value.temperature), Some(saved.value.maxTokens))
  {
    match saved
    case None =>
      JoinCommaPair("Helpful", "Friendly");
      AgentConfig(DefaultName, JoinComma(DefaultPersonality), Some(apiKey), Some(0.7), Some(1024))
    case Some(config) =>
      AgentConfig(config.name, JoinComma(config.personality), Some(apiKey),
                  Some(config.temperature), Some(config.maxTokens))
  }

  /** With no saved configuration the agent gets the default persona and sampling settings. */
  lemma DefaultStartupAgent(apiKey: string)
    ensures var c := AgentConfigFor(None, apiKey);
      c.name == "Friendly Assistant" && c.personality == "Helpful,Friendly"
      && c.temperature.GetOr(DefaultTemperature) == 0.7 && c.maxTokens.GetOr(DefaultMaxTokens) == 1024
  {
  }

  /** The guard on `handleSend`. */
  predicate CanSend(input: string, hasAgent: bool, isOnline: bool) {
    Trim(input) != "" && hasAgent && isOnline
  }

  /** A send that passes the guard always reaches the remote call: the agent never rejects
      the message. */
  lemma GuardedSendIsNotRejected(input: string, hasAgent: bool, isOnline: bool)
    requires CanSend(input, hasAgent, isOnline)
    ensures input != "" && !AllWhitespace(input)
  {
    TrimmedNonEmpty(input);
  }

  class App {
    var messages: seq<Message>
    var input: string
    var isLoading: bool
    var error: Option<string>
    var isOnline: bool
    var agent: ChatAgent?

    /** The displayed messages are always a prefix of the agent's history (they lag behind
        exactly by an unanswered user turn after a failure), and hold no system entry. */
    predicate Valid()
      reads this, agent
    {
      (agent != null ==> agent.Valid() && messages <= agent.messageHistory)
      && NoSystemTurn(messages)
    }

    /** The state at mount; `isOnline` is the browser's `navigator.onLine`. */
    constructor (online: bool)
      ensures Valid() && agent == null
      ensures messages == [] && input == "" && !isLoading && error == None && isOnline == online
    {
      messages := [];
      input := "";
      isLoading := false;
      error := None;
      isOnline := online;
      agent := null;
    }

    /** The start-up effect, run once at mount (hence on an empty message list). A missing key sets the error and creates no
        agent; a saved configuration that does not parse sets the parser's message; otherwise
        the agent is built from the saved or the default configuration. */
    method InitializeAgent(apiKey: Option<string>, stored: Stored)
      requires Valid() && agent == null && messages == []
      modifies this
      ensures Valid()
      ensures messages == old(messages) && input == old(input)
      ensures isLoading == old(isLoading) && isOnline == old(isOnline)
      ensures !TruthyText(apiKey) ==> agent == null && error == Some(MissingKeyMessage)
      ensures TruthyText(apiKey) && stored.Unparsable? ==> agent == null && error == Some(stored.message)
      ensures TruthyText(apiKey) && !stored.Unparsable? ==>
        var c := AgentConfigFor(if stored.Parsed? then Some(stored.config) else None, apiKey.value);
        agent != null && fresh(agent) && error == old(error)
        && agent.messageHistory == [] && agent.name == c.name && agent.personality == c.personality
        && agent.temperature == c.temperature.value && agent.maxTokens == c.maxTokens.value
    {
      if !TruthyText(apiKey) {
        error := Some(MissingKeyMessage);
        return;
      }
      if stored.Unparsable? {
        error := Some(stored.message);
        return;
      }
      var saved := if stored.Parsed? then Some(stored.config) else None;
      agent := new ChatAgent.Init(AgentConfigFor(saved, apiKey.value));
    }

    /** `setInput`, wired to the input box. */
    method TypeInput(text: string)
      requires Valid()
      modifies this
      ensures Valid() && input == text
      ensures messages == old(messages) && isLoading == old(isLoading) && error == old(error)
      ensures isOnline == old(isOnline) && agent == old(agent)
    {
      input := text;
    }

    /** The browser's `online` / `offline` events. */
    method SetOnline(online: bool)
      requires Valid()
      modifies this
      ensures Valid() && isOnline == online
      ensures messages == old(messages) && input == old(input) && isLoading == old(isLoading)
      ensures error == old(error) && agent == old(agent)
    {
      isOnline := online;
    }

    /** `handleSend`, with the agent's remote call ending in `outcome`. Returns whether the
        agent was called. */
    method HandleSend(outcome: Outcome) returns (called: bool)
      requires Valid()
      modifies this, agent
      ensures Valid() && agent == old(agent) && isOnline == old(isOnline)
      ensures called <==> CanSend(old(input), agent != null, isOnline)
      ensures !called ==> (messages == old(messages) && input == old(input)
                           && isLoading == old(isLoading) && error == old(error)
                           && (agent != null ==> agent.messageHistory == old(agent.messageHistory)))
      ensures called ==> !isLoading && input == ""
      ensures called ==> agent.messageHistory == AfterSend(old(agent.messageHistory), old(input), outcome)
      ensures called && outcome.Completed? ==> error == None && messages == agent.messageHistory
      ensures called && outcome.Failed? ==> error == Some(GenerationError) && messages == old(messages)
      ensures agent != null ==> (agent.name == old(agent.name) && agent.personality == old(agent.personality)
                                 && agent.temperature == old(agent.temperature) && agent.maxTokens == old(agent.maxTokens))
    {
      called := CanSend(input, agent != null, isOnline);
      if called {
        TrimmedNonEmpty(input);
        Send(outcome);
      }
    }

    /** The body of `handleSend` once its guard has passed: the error is cleared and the
        loading flag raised before the call; afterwards (the `finally`) the flag drops and the
        input is emptied. */
    method Send(outcome: Outcome)
      requires Valid() && agent != null && input != ""
      modifies this, agent
      ensures Valid() && agent == old(agent) && isOnline == old(isOnline)
      ensures !isLoading && input == ""
      ensures agent.messageHistory == AfterSend(old(agent.messageHistory), old(input), outcome)
      ensures outcome.Completed? ==> error == None && messages == agent.messageHistory
      ensures outcome.Failed? ==> error == Some(GenerationError) && messages == old(messages)
      ensures agent.name == old(agent.name) && agent.personality == old(agent.personality)
      ensures agent.temperature == old(agent.temperature) && agent.maxTokens == old(agent.maxTokens)
    {
      var a := agent;
      ghost var history := a.messageHistory;
      isLoading := true;
      error := None;
      var message := input;

      SendExtends(history, message, outcome);
      var reply, sent := a.SendMessage(message, outcome);
      assert messages <= history <= a.messageHistory;
      if reply.Success? {
        messages := a.GetMessageHistory();
      } else {
        error := Some(reply.error);
        assert messages <= a.messageHistory;
      }
      isLoading := false;
      input := "";
    }

    /** `handleClear`: with an agent, empties its history and the displayed messages and clears
        the error; with none, does nothing. */
    method HandleClear()
      requires Valid()
      modifies this, agent
      ensures Valid() && agent == old(agent)
      ensures input == old(input) && isLoading == old(isLoading) && isOnline == old(isOnline)
      ensures agent == null ==> messages == old(messages) && error == old(error)
      ensures agent != null ==> agent.messageHistory == [] && messages == [] && error == None
      ensures agent != null ==> (agent.name == old(agent.name) && agent.personality == old(agent.personality)
                                 && agent.temperature == old(agent.temperature) && agent.maxTokens == old(agent.maxTokens))
    {
      if agent != null {
        agent.ClearHistory();
        messages := [];
        error := None;
      }
    }
  }
}
