/** The wizard's shared state: the bot configuration record being authored, its partial-update
    merge, and the provider that holds the configuration, the current step and the validity flag. */
module WizardContext {
  import opened Wrappers

  datatype ResponseStyle = Formal | Casual | Friendly

  datatype BotConfig = BotConfig(
    name: string,
    avatar: string,
    personality: seq<string>,
    responseStyle: ResponseStyle,
    domain: seq<string>,
    temperature: real,
    maxTokens: int)

  /** A `Partial<BotConfig>`: a key left out is `None`. */
  datatype ConfigUpdate = ConfigUpdate(
    name: Option<string>,
    avatar: Option<string>,
    personality: Option<seq<string>>,
    responseStyle: Option<ResponseStyle>,
    domain: Option<seq<string>>,
    temperature: Option<real>,
    maxTokens: Option<int>)

  const NoUpdate := ConfigUpdate(None, None, None, None, None, None, None)

  const DefaultConfig := BotConfig("", "default", [], Friendly, [], 0.7, 1024)

  const OutsideProviderError := "useWizard must be used within a WizardProvider"

  /** `{ ...prev, ...updates }`: each supplied key takes the supplied value, every other key
      keeps its previous value. */
  function Merge(prev: BotConfig, updates: ConfigUpdate): (next: BotConfig)
    ensures next.name == updates.name.GetOr(prev.name)
    ensures next.avatar == updates.avatar.GetOr(prev.avatar)
    ensures next.personality == updates.personality.GetOr(prev.personality)
    ensures next.responseStyle == updates.responseStyle.GetOr(prev.responseStyle)
    ensures next.domain == updates.domain.GetOr(prev.domain)
    ensures next.temperature == updates.temperature.GetOr(prev.temperature)
    ensures next.maxTokens == updates.maxTokens.GetOr(prev.maxTokens)
  {
    BotConfig(
      if updates.name.Some? then updates.name.value else prev.name,
      if updates.avatar.Some? then updates.avatar.value else prev.avatar,
      if updates.personality.Some? then updates.personality.value else prev.personality,
      if updates.responseStyle.Some? then updates.responseStyle.value else prev.responseStyle,
      if updates.domain.Some? then updates.domain.value else prev.domain,
      if updates.temperature.Some? then updates.temperature.value else prev.temperature,
      if updates.maxTokens.Some? then updates.maxTokens.value else prev.maxTokens)
  }

  /** `{ ...first, ...second }` on two updates. */
  function Combine(first: ConfigUpdate, second: ConfigUpdate): ConfigUpdate {
    ConfigUpdate(
      if second.name.Some? then second.name else first.name,
      if second.avatar.Some? then second.avatar else first.avatar,
      if second.personality.Some? then second.personality else first.personality,
      if second.responseStyle.Some? then second.responseStyle else first.responseStyle,
      if second.domain.Some? then second.domain else first.domain,
      if second.temperature.Some? then second.temperature else first.temperature,
      if second.maxTokens.Some? then second.maxTokens else first.maxTokens)
  }

  /** Merging an empty update leaves the configuration unchanged. */
  lemma MergeNoUpdate(config: BotConfig)
    ensures Merge(config, NoUpdate) == config
  {
  }

  /** Applying the same update twice gives what applying it once gives. */
  lemma MergeIdempotent(config: BotConfig, updates: ConfigUpdate)
    ensures Merge(Merge(config, updates), updates) == Merge(config, updates)
  {
  }

  /** Two successive merges are one merge of the combined update. */
  lemma MergeCombine(config: BotConfig, first: ConfigUpdate, second: ConfigUpdate)
    ensures Merge(Merge(config, first), second) == Merge(config, Combine(first, second))
  {
  }

  /** The `WizardProvider`'s state; its setters replace one piece each. */
  class Provider {
    var config: BotConfig
    var currentStep: int
    var isValid: bool

    constructor ()
      ensures config == DefaultConfig && currentStep == 0 && !isValid
    {
      config := DefaultConfig;
      currentStep := 0;
      isValid := false;
    }

    method UpdateConfig(updates: ConfigUpdate)
      modifies this
      ensures config == Merge(old(config), updates)
      ensures currentStep == old(currentStep) && isValid == old(isValid)
    {
      config := Merge(config, updates);
    }

    method SetCurrentStep(step: int)
      modifies this
      ensures currentStep == step
      ensures config == old(config) && isValid == old(isValid)
    {
      currentStep := step;
    }

    method SetIsValid(valid: bool)
      modifies this
      ensures isValid == valid
      ensures config == old(config) && currentStep == old(currentStep)
    {
      isValid := valid;
    }
  }

  /** `useWizard()`: the enclosing provider, or the error thrown when there is none. */
  function UseWizard(context: Provider?): (r: Result<Provider, string>)
    ensures r.Success? <==> context != null
    ensures r.Success? ==> r.value == context
    ensures r.Failure? ==> r.error == OutsideProviderError
  {
    if context == null then Failure(OutsideProviderError) else Success(context)
  }
}
