/** The second wizard step: personality traits (a multi-select) and the response style. */
module Personality {
  import opened Wrappers
  import opened WizardContext
  import Selection

  const Traits: seq<string> := ["Friendly", "Professional", "Technical", "Creative",
                                "Humorous", "Formal", "Casual", "Empathetic"]

  /** The option values of the response-style select. */
  const StyleOptions: seq<string> := ["formal", "casual", "friendly"]

  /** The step's validity rule: at least one trait is selected. */
  predicate Valid(config: BotConfig) {
    |config.personality| > 0
  }

  lemma ValidIff(config: BotConfig)
    ensures Valid(config) <==> exists t :: t in config.personality
  {
    if Valid(config) { assert config.personality[0] in config.personality; }
  }

  /** `toggleTrait(trait)`: only the trait list changes, by the shared toggle. */
  function ToggleTrait(config: BotConfig, traitName: string): (next: BotConfig)
    ensures next == config.(personality := Selection.Toggle(config.personality, traitName))
    ensures traitName in next.personality <==> traitName !in config.personality
  {
    Selection.ToggleMembers(config.personality, traitName);
    Merge(config, NoUpdate.(personality := Some(Selection.Toggle(config.personality, traitName))))
  }

  /** Toggling a trait on an empty selection makes the step valid; toggling off the only
      selected trait makes it invalid. */
  lemma ToggleValidity(config: BotConfig, traitName: string)
    ensures config.personality == [] ==> Valid(ToggleTrait(config, traitName))
    ensures config.personality == [traitName] ==> !Valid(ToggleTrait(config, traitName))
  {
    if config.personality == [traitName] {
      assert Selection.Remove([traitName][1..], traitName) == [];
    }
  }

  /** The option value that stands for each response style. */
  function StyleValue(style: ResponseStyle): (value: string)
    ensures value in StyleOptions
  {
    match style
    case Formal => "formal"
    case Casual => "casual"
    case Friendly => "friendly"
  }

  /** The cast `e.target.value as 'formal' | 'casual' | 'friendly'`, defined on the select's
      own option values only. */
  function StyleFromValue(value: string): (style: Option<ResponseStyle>)
    ensures style.Some? <==> value in StyleOptions
    ensures style.Some? ==> StyleValue(style.value) == value
  {
    if value == "formal" then Some(Formal)
    else if value == "casual" then Some(Casual)
    else if value == "friendly" then Some(Friendly)
    else None
  }

  /** Option values and styles are in one-to-one correspondence. */
  lemma StyleRoundTrip(style: ResponseStyle)
    ensures StyleFromValue(StyleValue(style)) == Some(style)
  {
  }

  /** Choosing a response style changes the style and nothing else. */
  function SelectStyle(config: BotConfig, style: ResponseStyle): (next: BotConfig)
    ensures next == config.(responseStyle := style)
  {
    Merge(config, NoUpdate.(responseStyle := Some(style)))
  }
}
