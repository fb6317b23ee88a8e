/** The third wizard step: knowledge domains (a multi-select), temperature and the token limit. */
module Knowledge {
  import opened Wrappers
  import opened WizardContext
  import Selection

  const Domains: seq<string> := ["General Knowledge", "Technical Support", "Customer Service",
                                 "Programming", "Science", "Business", "Education", "Healthcare"]

  /** The token-limit slider's `min`, `max` and `step`. */
  const TokensMin := 256
  const TokensMax := 2048
  const TokensStep := 256

  /** The step's validity rule: at least one domain is selected. */
  predicate Valid(config: BotConfig) {
    |config.domain| > 0
  }

  lemma ValidIff(config: BotConfig)
    ensures Valid(config) <==> exists d :: d in config.domain
  {
    if Valid(config) { assert config.domain[0] in config.domain; }
  }

  /** `toggleDomain(domain)`: only the domain list changes, by the shared toggle. */
  function ToggleDomain(config: BotConfig, domain: string): (next: BotConfig)
    ensures next == config.(domain := Selection.Toggle(config.domain, domain))
    ensures domain in next.domain <==> domain !in config.domain
  {
    Selection.ToggleMembers(config.domain, domain);
    Merge(config, NoUpdate.(domain := Some(Selection.Toggle(config.domain, domain))))
  }

  /** A requested value brought into the slider's range. */
  function Clamp(raw: int): (c: int)
    ensures TokensMin <= c <= TokensMax
    ensures TokensMin <= raw <= TokensMax ==> c == raw
    ensures raw < TokensMin ==> c == TokensMin
    ensures raw > TokensMax ==> c == TokensMax
  {
    if raw < TokensMin then TokensMin else if raw > TokensMax then TokensMax else raw
  }

  /** The value a range input with this min/max/step reports for a requested value `raw`
      (the value sanitization of the range state in the HTML Living Standard): clamp into
      range, then take the nearest step-aligned value, the larger one on a tie. */
  function SliderValue(raw: int): (v: int)
    ensures TokensMin <= v <= TokensMax && v % TokensStep == 0
    ensures -TokensStep / 2 < v - Clamp(raw) <= TokensStep / 2
  {
    var c := Clamp(raw);
    var k := (c - TokensMin + TokensStep / 2) / TokensStep;
    assert 0 <= k <= 7;
    TokensMin + k * TokensStep
  }

  /** Every notch of the slider reports itself. */
  lemma SliderKeepsNotches(k: int)
    requires 1 <= k <= 8
    ensures SliderValue(k * TokensStep) == k * TokensStep
  {
  }

  /** Moving the token slider: `updateConfig({ maxTokens: parseInt(value) })`. */
  function SelectMaxTokens(config: BotConfig, raw: int): (next: BotConfig)
    ensures next == config.(maxTokens := SliderValue(raw))
  {
    Merge(config, NoUpdate.(maxTokens := Some(SliderValue(raw))))
  }
}
