/** The wizard's three-step flow over the provider's state: the Next/Finish and Back buttons,
    the edits each step offers, and the validity effect each step runs after a change. */
module BotWizard {
  import opened Wrappers
  import opened WizardContext
  import Selection
  import BasicInfo
  import Personality
  import Knowledge

  /** The step titles, in order. */
  const Steps: seq<string> := ["Basic Info", "Personality", "Knowledge"]

  const StorageKey := "botConfig"

  /** The validity rule of the step shown at index `step`. */
  predicate StepValid(step: int, config: BotConfig) {
    if step == 0 then BasicInfo.NameValid(config.name)
    else if step == 1 then Personality.Valid(config)
    else if step == 2 then Knowledge.Valid(config)
    else false
  }

  /** A configuration is complete once every step's rule holds. */
  predicate Complete(config: BotConfig) {
    BasicInfo.NameValid(config.name) && Personality.Valid(config) && Knowledge.Valid(config)
  }

  /** The label of the forward button. */
  function NextLabel(step: int): (caption: string)
    ensures caption == "Finish" <==> step == |Steps| - 1
    ensures caption != "Finish" ==> caption == "Next"
  {
    if step == |Steps| - 1 then "Finish" else "Next"
  }

  /** The edits the step components offer. */
  datatype Edit =
    | Rename(name: string)
    | PickAvatar(avatar: string)
    | FlipTrait(item: string)
    | PickStyle(style: ResponseStyle)
    | FlipDomain(item: string)
    | SlideMaxTokens(raw: int)

  /** The step whose component renders the control for an edit. */
  function EditStep(e: Edit): int {
    match e
    case Rename(_) => 0
    case PickAvatar(_) => 0
    case FlipTrait(_) => 1
    case PickStyle(_) => 1
    case FlipDomain(_) => 2
    case SlideMaxTokens(_) => 2
  }

  function ApplyEdit(config: BotConfig, e: Edit): BotConfig {
    match e
    case Rename(name) => BasicInfo.EditName(config, name)
    case PickAvatar(avatar) => BasicInfo.SelectAvatar(config, avatar)
    case FlipTrait(item) => Personality.ToggleTrait(config, item)
    case PickStyle(style) => Personality.SelectStyle(config, style)
    case FlipDomain(item) => Knowledge.ToggleDomain(config, item)
    case SlideMaxTokens(raw) => Knowledge.SelectMaxTokens(config, raw)
  }

  /** An edit can only affect the validity of the step that offers it. */
  lemma EditKeepsOtherSteps(config: BotConfig, e: Edit, step: int)
    requires step != EditStep(e)
    ensures StepValid(step, ApplyEdit(config, e)) == StepValid(step, config)
  {
  }

  /** The shape every configuration the wizard produces has: an offered avatar, trait and domain
      lists without duplicates, and a step-aligned token limit in range. */
  predicate WellFormed(config: BotConfig) {
    config.avatar in BasicInfo.AvatarOptions
    && Selection.NoDuplicates(config.personality)
    && Selection.NoDuplicates(config.domain)
    && Knowledge.TokensMin <= config.maxTokens <= Knowledge.TokensMax
    && config.maxTokens % Knowledge.TokensStep == 0
  }

  /** An edit the rendered controls can produce: the avatar comes from the select's options,
      and a toggled trait or domain is one of the step's buttons. */
  predicate Offered(e: Edit) {
    match e
    case PickAvatar(avatar) => avatar in BasicInfo.AvatarOptions
    case FlipTrait(item) => item in Personality.Traits
    case FlipDomain(item) => item in Knowledge.Domains
    case _ => true
  }

  lemma DefaultWellFormed()
    ensures WellFormed(DefaultConfig)
  {
  }

  /** Every offered edit keeps a configuration well formed. */
  lemma EditKeepsWellFormed(config: BotConfig, e: Edit)
    requires WellFormed(config) && Offered(e)
    ensures WellFormed(ApplyEdit(config, e))
  {
    match e
    case FlipTrait(item) => Selection.ToggleKeepsNoDuplicates(config.personality, item);
    case FlipDomain(item) => Selection.ToggleKeepsNoDuplicates(config.domain, item);
    case _ =>
  }

  /** In a well-formed configuration the trait list has no duplicates, so clicking a selected
      trait removes just that entry and keeps the others in order. */
  lemma FlipSelectedTrait(config: BotConfig, i: int)
    requires WellFormed(config) && 0 <= i < |config.personality|
    ensures ApplyEdit(config, FlipTrait(config.personality[i])).personality
         == config.personality[..i] + config.personality[i + 1..]
  {
    Selection.ToggleRemovesAt(config.personality, i);
  }

  /** The same for a selected domain. */
  lemma FlipSelectedDomain(config: BotConfig, j: int)
    requires WellFormed(config) && 0 <= j < |config.domain|
    ensures ApplyEdit(config, FlipDomain(config.domain[j])).domain
         == config.domain[..j] + config.domain[j + 1..]
  {
    Selection.ToggleRemovesAt(config.domain, j);
  }

  /** Clicking the same trait or domain button twice in a well-formed configuration selects the
      same labels as before: exactly the same list if it was unselected, the list with that
      label moved to the end if it was selected. */
  lemma FlipTwice(config: BotConfig, e: Edit)
    requires WellFormed(config) && (e.FlipTrait? || e.FlipDomain?)
    ensures var twice := ApplyEdit(ApplyEdit(config, e), e);
      multiset(twice.personality) == multiset(config.personality)
      && multiset(twice.domain) == multiset(config.domain)
      && WellFormed(twice)
    ensures e.FlipTrait? && e.item !in config.personality ==> ApplyEdit(ApplyEdit(config, e), e) == config
    ensures e.FlipDomain? && e.item !in config.domain ==> ApplyEdit(ApplyEdit(config, e), e) == config
  {
    var s := if e.FlipTrait? then config.personality else config.domain;
    Selection.ToggleTwiceNoDuplicates(s, e.item);
    if e.item in s {
      Selection.ToggleTwicePresent(s, e.item);
    } else {
      Selection.ToggleTwiceAbsent(s, e.item);
    }
  }

  /** The wizard's invariant: the configuration is well formed, the step is in range, the
      validity flag is the shown step's rule, and every step already passed is still valid. */
  predicate Consistent(w: Provider)
    reads w
  {
    WellFormed(w.config)
    && 0 <= w.currentStep < |Steps|
    && w.isValid == StepValid(w.currentStep, w.config)
    && forall k :: 0 <= k < w.currentStep ==> StepValid(k, w.config)
  }

  /** Opening the wizard: a fresh provider on the first step, not yet valid. */
  method Open() returns (w: Provider)
    ensures fresh(w) && Consistent(w)
    ensures w.config == DefaultConfig && w.currentStep == 0 && !w.isValid
  {
    w := new Provider();
    DefaultWellFormed();
  }

  datatype NextResult = Disabled | Advanced | Saved(key: string, config: BotConfig)

  /** Pressing the forward button. It is disabled while the step is invalid; on a step before
      the last it advances by one, and on the last it saves the configuration under
      `botConfig` (the page reload that follows is not modelled). */
  method PressNext(w: Provider) returns (result: NextResult)
    requires Consistent(w)
    modifies w
    ensures Consistent(w) && w.config == old(w.config)
    ensures !old(w.isValid) ==> result == Disabled && w.currentStep == old(w.currentStep) && w.isValid == old(w.isValid)
    ensures old(w.isValid) && old(w.currentStep) < |Steps| - 1 ==>
      result == Advanced && w.currentStep == old(w.currentStep) + 1
    ensures old(w.isValid) && old(w.currentStep) == |Steps| - 1 ==>
      result == Saved(StorageKey, w.config) && w.currentStep == old(w.currentStep) && w.isValid
    ensures result.Saved? <==> old(w.isValid) && NextLabel(old(w.currentStep)) == "Finish"
    ensures result.Saved? ==> Complete(result.config) && WellFormed(result.config)
  {
    if !w.isValid {
      return Disabled;
    }
    var step := w.currentStep;
    if step < |Steps| - 1 {
      w.SetCurrentStep(step + 1);
      w.SetIsValid(StepValid(step + 1, w.config));
      result := Advanced;
    } else {
      assert StepValid(0, w.config) && StepValid(1, w.config);
      result := Saved(StorageKey, w.config);
    }
  }

  /** Pressing Back, which is only shown after the first step: it goes back by one. */
  method PressBack(w: Provider) returns (shown: bool)
    requires Consistent(w)
    modifies w
    ensures Consistent(w) && w.config == old(w.config)
    ensures shown <==> old(w.currentStep) > 0
    ensures shown ==> w.currentStep == old(w.currentStep) - 1
    ensures !shown ==> w.currentStep == old(w.currentStep) && w.isValid == old(w.isValid)
  {
    shown := w.currentStep > 0;
    if shown {
      var step := w.currentStep;
      w.SetCurrentStep(step - 1);
      w.SetIsValid(StepValid(step - 1, w.config));
    }
  }

  /** Using a control: only the shown step's controls exist; the edit goes through
      `updateConfig`, and the step's effect then recomputes the validity flag. */
  method PerformEdit(w: Provider, e: Edit) returns (shown: bool)
    requires Consistent(w) && Offered(e)
    modifies w
    ensures Consistent(w) && w.currentStep == old(w.currentStep)
    ensures shown <==> EditStep(e) == old(w.currentStep)
    ensures shown ==> w.config == ApplyEdit(old(w.config), e)
    ensures !shown ==> w.config == old(w.config) && w.isValid == old(w.isValid)
  {
    shown := EditStep(e) == w.currentStep;
    if shown {
      var before := w.config;
      w.UpdateConfig(EditUpdate(before, e));
      assert w.config == ApplyEdit(before, e);
      EditKeepsWellFormed(before, e);
      forall k | 0 <= k < w.currentStep ensures StepValid(k, w.config) {
        EditKeepsOtherSteps(before, e, k);
      }
      w.SetIsValid(StepValid(w.currentStep, w.config));
    }
  }

  /** The partial update each edit hands to `updateConfig`. */
  function EditUpdate(config: BotConfig, e: Edit): (u: ConfigUpdate)
    ensures Merge(config, u) == ApplyEdit(config, e)
  {
    match e
    case Rename(name) => NoUpdate.(name := Some(name))
    case PickAvatar(avatar) => NoUpdate.(avatar := Some(avatar))
    case FlipTrait(item) => NoUpdate.(personality := Some(Selection.Toggle(config.personality, item)))
    case PickStyle(style) => NoUpdate.(responseStyle := Some(style))
    case FlipDomain(item) => NoUpdate.(domain := Some(Selection.Toggle(config.domain, item)))
    case SlideMaxTokens(raw) => NoUpdate.(maxTokens := Some(Knowledge.SliderValue(raw)))
  }
}
