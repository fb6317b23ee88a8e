# Chat assistant and persona wizard — a Dafny model

This project models the logic of a browser chat client for a hosted language model, and of the
three-step wizard that configures the assistant's persona.

- **Chat session** (`ChatAgent`, src/lib/ChatAgent.ts). An agent owns an ordered message
  history. `sendMessage` validates the message and appends the user turn. It then sends a
  freshly built system prompt followed by the whole history. On success it appends the
  assistant turn. On any failure it rethrows one generic error and keeps the user turn.
  `clearHistory` resets the history. `updateConfig` overwrites a field only with a truthy value.
  Construction fails without an API key.
- **Chat screen** (`App`, src/App.tsx). This covers the start-up effect that creates the agent
  from the saved or the default configuration. It also covers `handleSend`, with its guard:
  trimmed input, an agent, online. And it covers `handleClear`. The displayed message list
  copies the agent's history only after a successful send. The model proves that the displayed
  list is always a prefix of the agent's history.
- **Wizard** (`WizardContext`, `BotWizard`, and the `BasicInfo`, `Personality` and `Knowledge`
  steps). This covers the configuration record and its `{...prev, ...updates}` merge, the
  toggle that adds or removes a list entry, each step's validity rule, the token-limit slider,
  and the Next/Back/Finish navigation. Its invariant says that every step already passed is
  still valid. So Finish only ever saves a configuration with a name of at least two
  UTF-16 code units (as JavaScript counts `length`), at least one trait and at least one domain.

The remote completion call is a parameter. `Outcome` is either `Failed` or
`Completed(firstContent)`, where `firstContent` is `choices[0]?.message?.content`. The method
that sends returns the `Request` it issues. Environment variables, browser storage and
`navigator.onLine` are parameters too. Saving the configuration is returned as a
`Saved(key, config)` result.

Layout: one module per source file. `Wrappers` holds `Option`/`Result`. `JsText` holds
`trim` and `Array.prototype.toString`. `Selection` holds the toggle that `Personality` and
`Knowledge` share.

## Behaviour of the code worth noting

- Only the empty string is rejected by the agent. A whitespace-only message is sent like any
  other (`ChatAgent.WhitespaceMessageIsSent`). The agent does not trim; only the screen does
  (the `handleSend` guard, repeated by ChatInput's send button).
- An empty message does not raise its own validation error. It is thrown inside the `try`, so
  the caller sees the generic "Failed to generate response" like every other failure.
- `updateConfig` ignores falsy values for `name` and `personality` too, not only for
  `temperature` and `maxTokens`. It never looks at `apiKey`.
- A name's `length` counts UTF-16 code units, so a single character outside the Basic
  Multilingual Plane, such as 😀 U+1F600, is already a valid name (`BasicInfo.EmojiNameValid`).
  A character inside it, such as ☕ U+2615, is not.
- The saved trait list is an array. It reaches the prompt through the array's implicit
  `toString()`, so the traits are joined with ",".

## Model

| member | source | states |
|---|---|---|
| `ChatAgent.ValidateInput` | src/lib/ChatAgent.ts:40-44 | validation fails exactly on the empty message |
| `ChatAgent.SystemPrompt` | src/lib/ChatAgent.ts:46-49 | the prompt opens with "You are <name>, an AI assistant with the following personality: <personality>" |
| `ChatAgent.Outgoing` | src/lib/ChatAgent.ts:61-64 | the request list is the history behind one system entry whose content is the prompt; for a history without system turns, exactly the first entry is a system entry |
| `ChatAgent.ResponseText` | src/lib/ChatAgent.ts:76 | the assistant text is never empty: the first choice's content, or 'No response generated' when that is missing or empty |
| `ChatAgent.EmptyMessageRejected` | src/lib/ChatAgent.ts:57-83 | an empty message leaves the history unchanged and fails with the generic error |
| `ChatAgent.SuccessfulSendAppendsTwo` | src/lib/ChatAgent.ts:59-79 | a successful send appends exactly {user, message} then {assistant, reply}, where reply is the returned value; earlier entries unchanged |
| `ChatAgent.FailedSendKeepsUserTurn` | src/lib/ChatAgent.ts:59-83 | after a failed remote call the history is the old history plus the user turn, and the error is the generic one |
| `ChatAgent.ReplyMatchesHistory` | src/lib/ChatAgent.ts:76-83 | every failure is "Failed to generate response"; every success grew the history by two and is the content of its last (assistant) entry |
| `ChatAgent.SendExtends` | src/lib/ChatAgent.ts:55-84 | a send only appends: the old history is a prefix of the new, growth is at most two, and no system entry gets in |
| `ChatAgent.RequestCarriesHistory` | src/lib/ChatAgent.ts:61-74 | the request has the system prompt first, then the full history ending with the new user turn, and carries the agent's temperature and token limit |
| `ChatAgent.WhitespaceMessageIsSent` | src/lib/ChatAgent.ts:40-44 | every non-empty all-whitespace message trims to "" yet passes validation, and a completed call appends the user and assistant turns and succeeds |
| `ChatAgent.AnsweredSendsAlternate` | src/lib/ChatAgent.ts:55-84 | after n successful sends on an empty history there are 2n entries, alternating user/assistant from user, and entry 2k is the k-th message |
| `ChatAgent.ReplayKeepsNoSystemTurn` | src/lib/ChatAgent.ts:3-6 | no sequence of sends ever stores a system entry |
| `ChatAgent.HelloScenario` | src/lib/ChatAgent.ts:55-84 | sending "Hi" answered by "Hello!" gives [{user,"Hi"},{assistant,"Hello!"}] and returns "Hello!"; a reply without content stores the fallback |
| `ChatAgent.ChatAgent.Init` | src/lib/ChatAgent.ts:33-37 | with a key present: empty history, name and personality as given, temperature 0.7 and token limit 1024 only when absent (an explicit 0 is kept) |
| `ChatAgent.ChatAgent.Create` | src/lib/ChatAgent.ts:24-38 | construction fails with the key error exactly when the key is missing or empty; otherwise a fresh agent as in Init |
| `ChatAgent.ChatAgent.GetMessageHistory` | src/lib/ChatAgent.ts:51-53 | returns a value equal to the history |
| `ChatAgent.ChatAgent.SendMessage` | src/lib/ChatAgent.ts:55-84 | the new history, the reply and the issued request are AfterSend, Reply and RequestFor of the old state (no request for an empty message); the configuration and the no-system-turn invariant are kept |
| `ChatAgent.ChatAgent.ClearHistory` | src/lib/ChatAgent.ts:86-88 | the history becomes empty; the configuration is unchanged |
| `ChatAgent.ChatAgent.UpdateConfig` | src/lib/ChatAgent.ts:90-95 | each field is overwritten only by a truthy supplied value (0 and "" are ignored); the history is untouched |
| `JsText.Trim` | src/App.tsx:62 | neither end of the trimmed text is whitespace, and it is empty exactly when the text is all whitespace |
| `JsText.JoinComma` | src/lib/ChatAgent.ts:47 | the implicit toString of a list: empty for no items, the item itself for one |
| `JsText.JoinCommaAppend` | src/lib/ChatAgent.ts:47 | joining two non-empty lists is the two joins with one comma between them |
| `JsText.JoinCommaPair` | src/App.tsx:47 | a two-item list such as the default trait list joins as "x,y" |
| `JsText.Utf16Length` | src/components/BotWizard/WizardSteps/BasicInfo.tsx:8 | a string's `length` in UTF-16 code units: between the number of code points and twice it, equal to it exactly when no code point is outside the Basic Multilingual Plane |
| `JsText.Utf16LengthAppend` | src/components/BotWizard/WizardSteps/BasicInfo.tsx:8 | the code-unit length of a concatenation is the sum of the lengths |
| `App.AgentConfigFor` | src/App.tsx:44-55 | the agent gets the key plus the saved name, traits (comma-joined), temperature and token limit, or the default persona when nothing is saved |
| `App.DefaultStartupAgent` | src/App.tsx:45-50 | without a saved configuration the agent is "Friendly Assistant" with "Helpful,Friendly", 0.7 and 1024 |
| `App.CanSend` | src/App.tsx:62 | the guard of handleSend: trimmed input non-empty, an agent, online; its consequences are `App.GuardedSendIsNotRejected` and `App.App.HandleSend` |
| `App.GuardedSendIsNotRejected` | src/App.tsx:62-68 | input that passes the trim guard is non-empty and not all whitespace, so the agent's own validation never rejects it |
| `App.App.constructor` | src/App.tsx:12-18 | the initial screen state: no messages, empty input, not loading, no error, no agent |
| `App.App.InitializeAgent` | src/App.tsx:36-59 | a missing key sets the key error and creates no agent; an unparsable saved configuration sets the parser's message; otherwise a fresh agent with an empty history is built from AgentConfigFor |
| `App.App.TypeInput` | src/App.tsx:155-161 | typing replaces the input and nothing else |
| `App.App.SetOnline` | src/App.tsx:20-29 | an online/offline event sets isOnline and nothing else |
| `App.App.HandleSend` | src/App.tsx:61-76 | with empty trimmed input, no agent or offline: no state change and no agent call; otherwise the agent history is AfterSend, and on success the error is cleared and the messages equal the agent history, on failure the error is set and the messages are not refreshed; afterwards not loading and input empty |
| `App.App.Send` | src/App.tsx:64-75 | the part of handleSend after the guard, for a non-empty input: the same outcome-by-outcome state as HandleSend |
| `App.App.HandleClear` | src/App.tsx:78-84 | with an agent: its history and the messages become empty and the error is cleared; with none: nothing changes |
| `WizardContext.Merge` | src/components/BotWizard/WizardContext.tsx:39-41 | each supplied field takes the supplied value and every other field keeps its value |
| `WizardContext.MergeNoUpdate` | src/components/BotWizard/WizardContext.tsx:40 | an empty update leaves the configuration unchanged |
| `WizardContext.MergeIdempotent` | src/components/BotWizard/WizardContext.tsx:40 | applying an update twice gives the same configuration as applying it once |
| `WizardContext.MergeCombine` | src/components/BotWizard/WizardContext.tsx:39-41 | two successive merges equal one merge of the combined update |
| `WizardContext.Provider.constructor` | src/components/BotWizard/WizardContext.tsx:34-37 | the wizard starts with the default configuration, at step 0, not valid |
| `WizardContext.Provider.UpdateConfig` | src/components/BotWizard/WizardContext.tsx:39-41 | the configuration becomes the merge of the old one with the update; step and validity unchanged |
| `WizardContext.Provider.SetCurrentStep` | src/components/BotWizard/WizardContext.tsx:36 | sets the step and nothing else |
| `WizardContext.Provider.SetIsValid` | src/components/BotWizard/WizardContext.tsx:37 | sets the validity flag and nothing else |
| `WizardContext.UseWizard` | src/components/BotWizard/WizardContext.tsx:57-63 | fails with the provider error exactly when there is no provider, else yields that provider |
| `Selection.Remove` | src/components/BotWizard/WizardSteps/Personality.tsx:18 | the filter `list.filter(t => t !== x)`; its properties are `RemoveMembers`, `RemoveAbsent`, `RemoveAt` and `RemoveKeepsNoDuplicates` |
| `Selection.Toggle` | src/components/BotWizard/WizardSteps/Personality.tsx:17-19 | remove if selected, else append; its properties are `ToggleMembers`, `ToggleAppends`, `ToggleRemovesAt`, `ToggleKeepsNoDuplicates` and the `ToggleTwice` lemmas |
| `Selection.RemoveMembers` | src/components/BotWizard/WizardSteps/Personality.tsx:18 | the filtered list holds exactly the other labels and is no longer |
| `Selection.RemoveAbsent` | src/components/BotWizard/WizardSteps/Personality.tsx:18 | filtering out an absent label changes nothing |
| `Selection.RemoveAt` | src/components/BotWizard/WizardSteps/Knowledge.tsx:18 | on a duplicate-free list, filtering out the label at position i removes just that position, the rest in order |
| `Selection.RemoveKeepsNoDuplicates` | src/components/BotWizard/WizardSteps/Knowledge.tsx:18 | filtering keeps a list duplicate-free |
| `Selection.ToggleMembers` | src/components/BotWizard/WizardSteps/Personality.tsx:17-19 | a toggle flips the membership of the toggled label and of no other |
| `Selection.ToggleAppends` | src/components/BotWizard/WizardSteps/Personality.tsx:17-19 | toggling an unselected label appends it at the end |
| `Selection.ToggleRemovesAt` | src/components/BotWizard/WizardSteps/Knowledge.tsx:17-18 | toggling a selected label removes it and keeps the others in order |
| `Selection.ToggleKeepsNoDuplicates` | src/components/BotWizard/WizardSteps/Knowledge.tsx:16-19 | toggling keeps the list duplicate-free |
| `Selection.ToggleTwiceAbsent` | src/components/BotWizard/WizardSteps/Personality.tsx:17-19 | toggling an unselected label twice restores the list exactly |
| `Selection.ToggleTwicePresent` | src/components/BotWizard/WizardSteps/Knowledge.tsx:17-19 | toggling a selected label twice moves it to the end: the rest in order, the same labels selected |
| `Selection.ToggleTwiceNoDuplicates` | src/components/BotWizard/WizardSteps/Personality.tsx:16-21 | toggling twice yields a duplicate-free list |
| `BasicInfo.NameValid` | src/components/BotWizard/WizardSteps/BasicInfo.tsx:8 | the rule `!!name && name.length >= 2`, length in UTF-16 code units; its properties are `BasicInfo.NameValidIff` and `BasicInfo.EmojiNameValid` |
| `BasicInfo.NameValidIff` | src/components/BotWizard/WizardSteps/BasicInfo.tsx:7-9 | the step is valid exactly when the name is at least two UTF-16 code units long: always for two or more characters, never for the empty name, and for one character exactly when it lies outside the Basic Multilingual Plane |
| `BasicInfo.EmojiNameValid` | src/components/BotWizard/WizardSteps/BasicInfo.tsx:8 | a single character outside the Basic Multilingual Plane (U+1F600, two code units) is a valid name; a single one inside it (U+2615, or a letter) is not |
| `BasicInfo.EditName` | src/components/BotWizard/WizardSteps/BasicInfo.tsx:20 | editing the name changes the name field only |
| `BasicInfo.SelectAvatar` | src/components/BotWizard/WizardSteps/BasicInfo.tsx:30-39 | choosing an avatar changes the avatar field only |
| `Personality.Valid` | src/components/BotWizard/WizardSteps/Personality.tsx:13 | the rule `personality.length > 0`; its properties are `Personality.ValidIff` and `Personality.ToggleValidity` |
| `Personality.ValidIff` | src/components/BotWizard/WizardSteps/Personality.tsx:12-14 | the step is valid exactly when some trait is selected |
| `Personality.ToggleTrait` | src/components/BotWizard/WizardSteps/Personality.tsx:16-21 | only the trait list changes, by the shared toggle, and the toggled trait's membership flips |
| `Personality.ToggleValidity` | src/components/BotWizard/WizardSteps/Personality.tsx:12-21 | a toggle on an empty selection makes the step valid; toggling off the only trait makes it invalid |
| `Personality.StyleValue` | src/components/BotWizard/WizardSteps/Personality.tsx:57-59 | every style is shown as one of the three option values |
| `Personality.StyleFromValue` | src/components/BotWizard/WizardSteps/Personality.tsx:52-54 | a value names a style exactly when it is one of formal, casual or friendly, and names the style shown as that value |
| `Personality.StyleRoundTrip` | src/components/BotWizard/WizardSteps/Personality.tsx:50-60 | reading back a style's option value gives that style |
| `Personality.SelectStyle` | src/components/BotWizard/WizardSteps/Personality.tsx:52-54 | choosing a style changes the responseStyle field only |
| `Knowledge.Valid` | src/components/BotWizard/WizardSteps/Knowledge.tsx:13 | the rule `domain.length > 0`; its property is `Knowledge.ValidIff` |
| `Knowledge.ValidIff` | src/components/BotWizard/WizardSteps/Knowledge.tsx:12-14 | the step is valid exactly when some domain is selected |
| `Knowledge.ToggleDomain` | src/components/BotWizard/WizardSteps/Knowledge.tsx:16-21 | only the domain list changes, by the shared toggle, and the toggled domain's membership flips |
| `Knowledge.Clamp` | src/components/BotWizard/WizardSteps/Knowledge.tsx:68-69 | a requested token limit is brought into [256, 2048]: in-range values untouched, lower ones to 256, higher ones to 2048 |
| `Knowledge.SliderValue` | src/components/BotWizard/WizardSteps/Knowledge.tsx:66-72 | the slider reports a multiple of 256 in [256, 2048], the nearest one to the clamped request (ties upward) |
| `Knowledge.SliderKeepsNotches` | src/components/BotWizard/WizardSteps/Knowledge.tsx:68-70 | each of the eight notches 256..2048 reports itself |
| `Knowledge.SelectMaxTokens` | src/components/BotWizard/WizardSteps/Knowledge.tsx:72 | moving the slider changes the maxTokens field only, to the slider's value |
| `BotWizard.EditKeepsOtherSteps` | src/components/BotWizard/BotWizard.tsx:14-16 | an edit can change the validity of the step that offers it and of no other |
| `BotWizard.DefaultWellFormed` | src/components/BotWizard/WizardContext.tsx:22-30 | the default configuration has an offered avatar, duplicate-free empty lists and an aligned in-range token limit |
| `BotWizard.EditKeepsWellFormed` | src/components/BotWizard/BotWizard.tsx:63 | every edit a step renders (an offered avatar, a trait or domain from its buttons, any name, style or slider value) keeps the avatar offered, both lists duplicate-free and the token limit aligned and in range |
| `BotWizard.FlipSelectedTrait` | src/components/BotWizard/WizardSteps/Personality.tsx:16-21 | in a well-formed configuration, clicking a selected trait removes exactly that entry and keeps the other traits in order |
| `BotWizard.FlipSelectedDomain` | src/components/BotWizard/WizardSteps/Knowledge.tsx:16-21 | in a well-formed configuration, clicking a selected domain removes exactly that entry and keeps the other domains in order |
| `BotWizard.FlipTwice` | src/components/BotWizard/WizardSteps/Knowledge.tsx:16-21 | clicking the same trait or domain twice in a well-formed configuration keeps the same labels selected and the configuration well formed, and restores an unselected label's list exactly |
| `BotWizard.NextLabel` | src/components/BotWizard/BotWizard.tsx:83 | the forward button reads 'Finish' exactly on the last step and 'Next' otherwise |
| `BotWizard.EditUpdate` | src/components/BotWizard/BotWizard.tsx:63 | the partial update each step hands to updateConfig merges to exactly that step's edit |
| `BotWizard.Open` | src/components/BotWizard/BotWizard.tsx:90-96 | a fresh wizard at step 0 with the default configuration, not valid, satisfying the wizard invariant (which includes a well-formed configuration) |
| `BotWizard.PressNext` | src/components/BotWizard/BotWizard.tsx:18-26 | disabled while invalid; before the last step advances by exactly one; on the last step (whose label is 'Finish') keeps the step and saves the configuration under 'botConfig', which is then complete and well formed; the step stays in 0..2 |
| `BotWizard.PressBack` | src/components/BotWizard/BotWizard.tsx:66-73 | offered only after step 0, where it goes back by exactly one; the step stays in 0..2 and the configuration is unchanged |
| `BotWizard.PerformEdit` | src/components/BotWizard/BotWizard.tsx:63 | for an edit a rendered control can produce, only the shown step's controls act; the configuration becomes the edit applied to it and stays well formed, the flag is that step's rule, and earlier steps stay valid |

## Left out

- The hosted SDK client and `chat.completions.create` are a foreign network call. Their result is the `Outcome` parameter. The request is recorded, not delivered.
- `async`/`await` is one sequential step. While a reply is pending the screen shows `isLoading` true; the model keeps only the state before and after. Overlapping sends are prevented by the UI and not modelled.
- `App.App.HandleClear` while a reply is pending is not modelled. The Clear button stays enabled during a send, unlike the input and the send button. The program can clear after the user turn is pushed and before the assistant turn is, and the reply then starts the new history (or, on failure, the user turn is simply gone). The model's sends are atomic, so `ChatAgent.AnsweredSendsAlternate`, `ChatAgent.SuccessfulSendAppendsTwo` and `ChatAgent.FailedSendKeepsUserTurn` describe sends that nothing interleaves with.
- `localStorage`, `JSON.stringify`/`JSON.parse`, `window.location.reload` and `import.meta.env` are browser I/O. The saved configuration is an input (`App.Stored`), with a parse failure carrying the parser's message. A saved value is assumed to have the shape the wizard writes, and the JSON round trip is not modelled.
- `App.App.InitializeAgent`: inside the `try`, reading storage (which can throw, for example when storage is blocked) and `JSON.parse` can fail; both arrive as `Stored.Unparsable(message)`. The constructor's own key check cannot fail there, because the key has been checked just before, so the model builds the agent directly.
- The online/offline listeners, scroll-into-view, the `showWizard` screen switch, all JSX, ChatMessage, ChatInput and StatusBar are UI chrome. ChatInput's enablement repeats the `handleSend` guard.
- `console.error` logging and the ErrorBoundary component are diagnostics only. The error detail they show is dropped.
- The temperature slider involves floating-point arithmetic and is not modelled; temperature is a plain `real`. JavaScript's NaN (which is falsy) is not modelled in the truthiness rules.
- `ChatAgent.SystemPrompt`: the contract states only that the prompt opens by naming the persona and listing its personality. The closing instruction is in the body.
- `WizardContext.Merge`: a key that is present but set to `undefined` would overwrite the field with `undefined` in JavaScript. Here a missing value is always an absent key.
- `WizardContext.Provider.SetCurrentStep` accepts any number, as the setter does. The range 0..2 is an invariant of the navigation in `BotWizard`, not of the provider.
- `Personality.StyleFromValue`: the source's cast is unchecked, but the select offers only the three options. The model defines it on those options only, and edits carry a `ResponseStyle`.
- React's context and hooks machinery, and effects running twice in development mode, are not modelled. Each step's validity effect runs right after a change, as one step.
