/** The first wizard step: the bot's name and avatar style. */
module BasicInfo {
  import opened Wrappers
  import opened WizardContext
  import JsText

  const AvatarOptions: seq<string> := ["default", "professional", "friendly", "technical"]

  /** The step's validity rule `!!name && name.length >= 2`, where `length` counts UTF-16
      code units. */
  predicate NameValid(name: string) {
    name != "" && JsText.Utf16Length(name) >= 2
  }

  /** The step is valid exactly when the name is at least two code units long: every name of
      two or more characters is, the empty name is not, and a one-character name is valid
      exactly when that character lies outside the Basic Multilingual Plane. */
  lemma NameValidIff(name: string)
    ensures NameValid(name) <==> JsText.Utf16Length(name) >= 2
    ensures |name| >= 2 ==> NameValid(name)
    ensures |name| == 0 ==> !NameValid(name)
    ensures |name| == 1 ==> (NameValid(name) <==> name[0] as int >= 0x10000)
  {
    if |name| == 1 {
      assert name[..0] == [];
    }
  }

  /** A single emoji outside the Basic Multilingual Plane is a valid name, since it counts as
      two code units; one inside it, like a single letter, is not. */
  lemma EmojiNameValid()
    ensures NameValid("\U{1F600}")
    ensures !NameValid("\U{2615}")
    ensures !NameValid("A")
  {
    assert "\U{1F600}"[..0] == [];
    assert "\U{2615}"[..0] == [];
    assert "A"[..0] == [];
  }

  /** Typing in the name field: `updateConfig({ name })` changes the name and nothing else. */
  function EditName(config: BotConfig, name: string): (next: BotConfig)
    ensures next == config.(name := name)
  {
    Merge(config, NoUpdate.(name := Some(name)))
  }

  /** Choosing an avatar style: `updateConfig({ avatar })` changes the avatar and nothing else. */
  function SelectAvatar(config: BotConfig, avatar: string): (next: BotConfig)
    ensures next == config.(avatar := avatar)
  {
    Merge(config, NoUpdate.(avatar := Some(avatar)))
  }
}
