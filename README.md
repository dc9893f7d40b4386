# Ctrl+Enter Sender — a Dafny model

A browser extension that changes how chat compose boxes handle the Enter key.
By default, plain Enter inserts a line break and Ctrl+Enter (Cmd+Enter on
macOS) sends the message. This applies on sites whose editor normally sends on
Enter. On sites that already send on Ctrl+Enter, the extension only makes sure
plain Enter is a line break. Each site is handled by an *adapter*. An adapter
decides whether a focused element is a compose box, how to insert a line break
in it, and how to send its message by clicking the send button, submitting the
form, or replaying a key press. Whether the extension is active on an origin
comes from a per-origin setting in the browser's synced storage. That setting
falls back to a default list in blacklist mode (enabled unless listed) or
whitelist mode (disabled unless listed).

The model consists of:

* `KeyHandler` (`key_handler.dfy`): the pure decision `resolveKeyAction`. It
  maps a keydown, the site's native send key, the platform and the listener
  phase to *send*, *newline* or *pass*.
* `Dom` (`dom.dfy`): the part of the DOM the adapters use.
  * A document is a sequence of elements in document order.
  * `closest` and `querySelector` are defined over parent links.
  * CSS selectors are opaque strings: each element carries the set of selector
    strings it matches.
  * `TextArea` is a class holding a textarea's text and selection.
  * `EventLog` is an append-only class recording everything dispatched on the
    page, in order.
* `Lookup` (`lookup.dfy`): the shared button searches. One tries an ordered
  selector list in one container; the others climb a bounded number of
  ancestor levels, specified by the functions `SearchUp` and `SearchUpHtml`.
  The loops the adapters run are the methods `FindFirstHit` and
  `FindHtmlButton`, each proved equal to its function.
* One module per adapter: `DefaultAdapter`, `ChatGptAdapter`,
  `DiscordAdapter`, `ClaudeAdapter`, `GrokAdapter`, `SlackAdapter` and
  `TeamsAdapter`.
  * `IsEditable` is a function whose contract is the adapter's test, stated
    over the ancestor chain.
  * `InsertNewline` and `TriggerSend` are methods that append to the
    `EventLog`, and edit the `TextArea` where the source calls `setRangeText`.
    Each is proved against a function for the effects it appends.
* `Adapters` (`adapters.dfy`): the ordered registry and `getAdapter`, with the
  seven adapters behind one tagged union.
* `Storage` (`storage.dfy`), covering:
  * origin normalisation and the default lists;
  * reading a setting (`getDomainConfig`) and writing it under both the bare
    and `www.` origin (`setDomainConfig`);
  * the options page's views (`groupDomainsByNormalizedOrigin`,
    `getAllConfigs`);
  * the "what's new" check;
  * the one-off clean-up migration.

  The storage areas are the class `ExtensionStorage`. Its methods are proved
  against the specification functions, and the properties are lemmas about
  those functions.
* `Content` (`content.dfy`): the content script.
  * `ContentScript` is a class holding the chosen adapter and the current
    setting.
  * Its constructor registers the listeners.
  * `ConfigRead` and `StorageChanged` model the asynchronous setting reads
    as single steps. They look the page origin up as the code does, port
    included (`GetDomainConfigAsWritten`).
  * `HandleKeydown` is one listener handling one event. It is proved against
    the decision function `ListenerStep` and the effect function
    `ReactionEffects`.

## Model

| member | source | states |
|---|---|---|
| KeyHandler.ResolveKeyAction | utils/key-handler.ts:13-53 | untrusted, IME-composing, non-Enter, Shift or Alt events pass. Enter-to-send sites act in capture only: send iff trusted plain chord, newline iff plain Enter. Ctrl+Enter sites: capture gives newline iff plain Enter and never send; bubble gives send iff the chord is pressed and the event is not already handled, and never newline |
| KeyHandler.IsSendCombo | utils/key-handler.ts:24-26 | definition: Cmd+Enter on a Mac, Ctrl+Enter elsewhere; specified by `KeyHandler.ResolveKeyAction` and `KeyHandler.SendIsSendCombo` |
| KeyHandler.IsPlainEnter | utils/key-handler.ts:27-28 | definition: Enter without Shift, Ctrl, Meta or Alt; specified by `KeyHandler.ResolveKeyAction` |
| KeyHandler.SendIsSendCombo | utils/key-handler.ts:24-26 | a send always comes from the platform chord (`metaKey` on a Mac, `ctrlKey` elsewhere) on a trusted, non-composing Enter without Shift or Alt; on Ctrl+Enter sites it only happens in the bubble phase and only when the event was not handled |
| KeyHandler.MacCtrlEnterPasses | utils/key-handler.ts:24-37 | on a Mac, Ctrl+Enter without Cmd is neither the send chord nor plain Enter, so it passes |
| KeyHandler.Scenarios | utils/key-handler.ts:20-52 | the resolver's documented cases: plain Enter gives newline, Cmd+Enter on a Mac sends, Shift+Enter passes, the bubble-phase chord sends, an already-handled chord passes, the capture-phase chord on a Ctrl+Enter site passes, and composition passes |
| Dom.ParentElement | utils/adapters/default.ts:111 | `parentElement` is null or an earlier element, and it is non-null exactly when the element has a parent link |
| Dom.IsInclusiveAncestor | utils/adapters/default.ts:82 | an inclusive ancestor never comes after the element in document order |
| Dom.Closest | utils/adapters/default.ts:82 | `closest(test)` returns an inclusive ancestor that passes the test, with no nearer ancestor passing it; null means no inclusive ancestor passes |
| Dom.ClosestIsNearest | utils/adapters/chatgpt.ts:27-28 | "the element `closest` finds has the property" is equivalent to "the nearest inclusive ancestor passing the test has the property" |
| Dom.QuerySelector | utils/adapters/default.ts:116 | `querySelector(sel)` returns the first proper descendant in document order that matches `sel`; null means no descendant matches |
| Dom.EnterSequenceShape | utils/adapters/teams.ts:56-62 | a replayed key press is keydown, keypress, keyup for Enter on the target, in that order |
| Dom.EventLog.Append | utils/adapters/default.ts:124 | dispatching appends exactly one effect to the log |
| Dom.EventLog.DispatchEnterSequence | utils/adapters/default.ts:126-132 | the three-event replay loop appends exactly `EnterSequence` |
| Dom.NewlineInserted | utils/adapters/default.ts:60 | the result holds the text before the selection, one line break, then the text after the selection, and its length changes accordingly |
| Dom.TextArea.InsertLineBreak | utils/adapters/default.ts:60 | `setRangeText('\n', start, end, 'end')` replaces the selection with a line break and collapses the caret just after it, keeping the selection within the text |
| Dom.NewlineAtEnd | __tests__/adapters/default.test.ts:93-97 | "test" with the caret at the end becomes "test\n" |
| Lookup.FirstQuery | utils/adapters/chatgpt.ts:54-59 | the chain of `querySelector` calls, each tried when the one before found nothing, returns null or an element of the document |
| Lookup.FirstQuerySpec | utils/adapters/chatgpt.ts:54-59 | the chain returns the hit of the first selector in list order that has one; null means no selector has a hit |
| Lookup.Up | utils/adapters/chatgpt.ts:64 | climbing parents stays inside the document or reaches null |
| Lookup.LevelHit | utils/adapters/chatgpt.ts:53-64 | the hit found at level `k` of a climb is null or an element of the document |
| Lookup.SearchUp | utils/adapters/default.ts:111-121 | the default adapter's climb returns null or an element of the document |
| Lookup.SearchUpHtml | utils/adapters/chatgpt.ts:52-65 | a site adapter's climb only returns an HTMLElement |
| Lookup.SearchUpFound | utils/adapters/default.ts:111-121 | a non-null result of the default climb is the hit of the lowest level below the bound that has any hit |
| Lookup.SearchUpNone | utils/adapters/default.ts:111-121 | a null result of the default climb means no level below the bound has a hit |
| Lookup.SearchUpHtmlFound | utils/adapters/chatgpt.ts:52-65 | a non-null result of the site climb is the hit of the lowest level whose hit is an HTMLElement |
| Lookup.SearchUpHtmlNone | utils/adapters/chatgpt.ts:52-65 | a null result of the site climb means no level below the bound has an HTMLElement hit |
| Lookup.NoHtmlHitGivesNone | utils/adapters/chatgpt.ts:52-65 | conversely, when no level has an HTMLElement hit, the site climb returns null |
| Lookup.FindFirstHit | utils/adapters/default.ts:111-121 | the nested `for` loops return exactly what `SearchUp` specifies |
| Lookup.FindHtmlButton | utils/adapters/claude.ts:36-52 | the climb loop returns exactly what `SearchUpHtml` specifies |
| DefaultAdapter.Matches | utils/adapters/default.ts:6-8 | definition: the fallback matches every hostname; specified by `Adapters.DefaultOnlyWhenNoSiteMatches` |
| DefaultAdapter.IsBlockedHost | utils/adapters/default.ts:16-19 | definition: docs.google.com and mail.google.com; specified by `DefaultAdapter.IsEditable` |
| DefaultAdapter.HasKeyword | utils/adapters/default.ts:40-49 | definition: a keyword occurs, ignoring case, in the aria-label, the id or a string className; specified by `DefaultAdapter.IsEditable` |
| DefaultAdapter.LooksLikeComposer | utils/adapters/default.ts:29-52 | definition: the built-in composer test; specified by `DefaultAdapter.IsEditable` |
| DefaultAdapter.IsEditable | utils/adapters/default.ts:13-55 | editable iff the element exists, the host is neither Google Docs nor Gmail, the element is not custom-excluded, and it is custom-targeted or passes the built-in test. The built-in test requires no INPUT, no searchbox, no `aria-multiline="false"`, and either a TEXTAREA or a contenteditable that is a textbox or carries one of the composer keywords |
| DefaultAdapter.InsertNewline | utils/adapters/default.ts:57-79 | a textarea gets the line-break edit and one input event. A contenteditable gets the insertText command, followed by a manual insertion and an input event only when the command fails and a selection range exists. Any other element gets nothing |
| DefaultAdapter.NewlineEffects | utils/adapters/default.ts:57-79 | definition of what insertNewline dispatches; specified by `DefaultAdapter.InsertNewline` |
| DefaultAdapter.TriggerSend | utils/adapters/default.ts:81-134 | the method appends exactly `SendEffects`: form submission, else a click on the climb's hit, else the Enter replay |
| DefaultAdapter.SendEffects | utils/adapters/default.ts:81-134 | definition of what triggerSend does; specified by `DefaultAdapter.FormIsSubmitted`, `DefaultAdapter.ClickedButtonIsNearestHit` and `DefaultAdapter.FallbackReplaysEnter` |
| DefaultAdapter.FormIsSubmitted | utils/adapters/default.ts:82-90 | with an enclosing form, triggerSend ends in exactly one submission of the nearest FORM ancestor (`requestSubmit` when available, `submit` otherwise) and searches no buttons |
| DefaultAdapter.ClickedButtonIsNearestHit | utils/adapters/default.ts:111-124 | a click only happens without a form. It is the only effect, goes to an HTMLElement, and targets the hit of the lowest of at most 7 containers above the target that has one |
| DefaultAdapter.FallbackReplaysEnter | utils/adapters/default.ts:123-133 | without a form, when no level up to the first one with a hit yields an HTMLElement, Enter is replayed on the target |
| ChatGptAdapter.Matches | utils/adapters/chatgpt.ts:6-8 | definition: the hostname contains chatgpt.com or openai.com; specified by `Adapters.GetAdapter` |
| ChatGptAdapter.IsEditable | utils/adapters/chatgpt.ts:13-32 | editable iff the element exists, is not custom-excluded, and is a TEXTAREA or a contenteditable that is the prompt box or whose nearest `.ProseMirror` ancestor is contenteditable |
| ChatGptAdapter.IgnoresCustomTargets | utils/adapters/chatgpt.ts:13-32 | the user's custom targets never change ChatGPT's verdict |
| ChatGptAdapter.InsertNewline | utils/adapters/chatgpt.ts:34-49 | a textarea gets the line-break edit and one input event; anything else gets the Shift+Enter replay and is not edited |
| ChatGptAdapter.NewlineEffects | utils/adapters/chatgpt.ts:34-49 | definition of what insertNewline dispatches; specified by `ChatGptAdapter.InsertNewline` |
| ChatGptAdapter.SearchStart | utils/adapters/chatgpt.ts:52 | the climb starts at the enclosing form or, when there is none, at the parent |
| ChatGptAdapter.TriggerSend | utils/adapters/chatgpt.ts:51-74 | the method appends exactly `SendEffects`: a click on the climb's button, else `requestSubmit` on the form when the browser has it |
| ChatGptAdapter.SendEffects | utils/adapters/chatgpt.ts:51-74 | definition of what triggerSend does; specified by `ChatGptAdapter.ClickedButtonIsNearestHit` and `ChatGptAdapter.NoButtonSubmitsForm` |
| ChatGptAdapter.ClickedButtonIsNearestHit | utils/adapters/chatgpt.ts:52-65 | a click is the only effect and goes to the HTMLElement hit of the lowest of at most 10 levels |
| ChatGptAdapter.NoButtonSubmitsForm | utils/adapters/chatgpt.ts:67-73 | without a clickable hit: the form is submitted when `requestSubmit` exists, and otherwise nothing happens; without a form nothing happens |
| DiscordAdapter.Matches | utils/adapters/discord.ts:6-8 | definition: the hostname contains discord.com; specified by `Adapters.DiscordHosts` and `Adapters.LookalikeHost` |
| DiscordAdapter.IsEditable | utils/adapters/discord.ts:13-27 | editable iff the nearest `role="textbox"` inclusive ancestor is contenteditable |
| DiscordAdapter.InsertNewline | utils/adapters/discord.ts:29-33 | dispatches exactly one `__ces_insert_newline` event on the document, whatever the target |
| DiscordAdapter.NewlineEffects | utils/adapters/discord.ts:29-33 | definition: one custom event on the document; specified by `DiscordAdapter.InsertNewline` |
| DiscordAdapter.SendTarget | utils/adapters/discord.ts:37 | the keydown goes to an inclusive ancestor of the target, which is a textbox whenever it is not the target itself |
| DiscordAdapter.TriggerSend | utils/adapters/discord.ts:35-50 | appends exactly one modifier-free Enter keydown on the closest textbox, or on the target |
| DiscordAdapter.SendEffects | utils/adapters/discord.ts:35-50 | definition of what triggerSend dispatches; specified by `DiscordAdapter.TriggerSend`, `DiscordAdapter.SendTarget` and `DiscordAdapter.SyntheticKeydownPasses` |
| DiscordAdapter.SyntheticKeydownPasses | utils/adapters/discord.ts:39-49 | the re-dispatched keydown is untrusted, so the resolver passes it in every phase and convention and the send does not loop |
| ClaudeAdapter.Matches | utils/adapters/claude.ts:6-8 | definition: the hostname contains claude.ai; specified by `Adapters.GetAdapter` |
| ClaudeAdapter.IsEditable | utils/adapters/claude.ts:13-22 | editable iff the nearest `.tiptap.ProseMirror` inclusive ancestor is contenteditable |
| ClaudeAdapter.InsertNewline | utils/adapters/claude.ts:24-33 | appends the Shift+Enter keydown, keypress, keyup replay on the target |
| ClaudeAdapter.TriggerSend | utils/adapters/claude.ts:35-53 | the method appends exactly `SendEffects`: mousedown, mouseup and click on the climb's button, or nothing |
| ClaudeAdapter.PressEffects | utils/adapters/claude.ts:45-48 | definition: mousedown, mouseup, click on the button; specified by `ClaudeAdapter.PressedButtonIsNearestHit` |
| ClaudeAdapter.SendEffects | utils/adapters/claude.ts:35-53 | definition of what triggerSend does; specified by `ClaudeAdapter.PressedButtonIsNearestHit` and `ClaudeAdapter.NoButtonNoEffect` |
| ClaudeAdapter.PressedButtonIsNearestHit | utils/adapters/claude.ts:36-50 | a press goes to the HTMLElement hit of the lowest of at most 10 levels above the target, and consists of mousedown, mouseup, click in that order |
| ClaudeAdapter.NoButtonNoEffect | utils/adapters/claude.ts:36-53 | without a clickable hit on any level, triggerSend does nothing |
| GrokAdapter.Matches | utils/adapters/grok.ts:6-8 | definition: the hostname contains grok.com; specified by `Adapters.GetAdapter` |
| GrokAdapter.IsEditable | utils/adapters/grok.ts:13-22 | editable iff the nearest `.tiptap.ProseMirror` inclusive ancestor is contenteditable |
| GrokAdapter.InsertNewline | utils/adapters/grok.ts:24-33 | appends the Shift+Enter keydown, keypress, keyup replay on the target |
| GrokAdapter.SearchStart | utils/adapters/grok.ts:36 | the climb starts at the enclosing form or, when there is none, at the parent |
| GrokAdapter.TriggerSend | utils/adapters/grok.ts:35-49 | the method appends exactly `SendEffects`: a click on the climb's button, or nothing |
| GrokAdapter.SendEffects | utils/adapters/grok.ts:35-49 | definition of what triggerSend does; specified by `GrokAdapter.ClickedButtonIsNearestHit` and `GrokAdapter.NoButtonNoEffect` |
| GrokAdapter.ClickedButtonIsNearestHit | utils/adapters/grok.ts:36-48 | a click is the only effect and goes to the HTMLElement hit of the lowest of at most 10 levels |
| GrokAdapter.NoButtonNoEffect | utils/adapters/grok.ts:36-49 | without a clickable hit on any level, triggerSend does nothing |
| SlackAdapter.Matches | utils/adapters/slack.ts:6-8 | definition: the hostname contains slack.com; specified by `Adapters.GetAdapter` |
| SlackAdapter.IsEditable | utils/adapters/slack.ts:13-26 | editable iff the nearest `.ql-editor` inclusive ancestor is contenteditable |
| SlackAdapter.InsertNewline | utils/adapters/slack.ts:28-37 | appends the Shift+Enter keydown, keypress, keyup replay on the target |
| SlackAdapter.EditorContainer | utils/adapters/slack.ts:40-42 | the texty container, if the target has one, wins over the message_kit editor, which wins over the message editor; the container is an inclusive ancestor of its kind, and it is null exactly when none of the three `closest` calls finds one |
| SlackAdapter.ContainerButton | utils/adapters/slack.ts:44-48 | a button is only found through a container and matches the send-button selector. It is the container's first match; only when the container has none is its parent searched, and a button from there means none is inside the container |
| SlackAdapter.TriggerSend | utils/adapters/slack.ts:39-64 | the method appends exactly `SendEffects`: a click on the container's button, else on the climb's button, else nothing |
| SlackAdapter.SendEffects | utils/adapters/slack.ts:39-64 | definition of what triggerSend does; specified by `SlackAdapter.ContainerButtonWins`, `SlackAdapter.ClimbClickIsNearestHit`, `SlackAdapter.AtMostOneClick` and `SlackAdapter.NoButtonNoEffect` |
| SlackAdapter.ContainerButtonWins | utils/adapters/slack.ts:44-52 | a clickable button found through the container is the only click, even when the climb would find a nearer one |
| SlackAdapter.ClimbClickIsNearestHit | utils/adapters/slack.ts:54-63 | without a clickable container button, a click is the only effect and goes to the HTMLElement hit of the lowest of at most 10 levels |
| SlackAdapter.AtMostOneClick | utils/adapters/slack.ts:39-64 | triggerSend has at most one effect. That effect is a click on an HTMLElement matching `button[data-qa="texty_send_button"]` |
| SlackAdapter.NoButtonNoEffect | utils/adapters/slack.ts:44-63 | with no clickable send button found through the editor container (present or not) and none within 10 levels, nothing happens |
| TeamsAdapter.Matches | utils/adapters/teams.ts:6-8 | definition: the hostname contains teams.microsoft.com or teams.live.com; specified by `Adapters.TeamsWorkHost` and `Adapters.TeamsPersonalHost` |
| TeamsAdapter.IsEditable | utils/adapters/teams.ts:13-27 | editable iff the nearest `role="textbox"` inclusive ancestor is contenteditable |
| TeamsAdapter.InsertNewline | utils/adapters/teams.ts:29-38 | appends the Shift+Enter keydown, keypress, keyup replay on the target |
| TeamsAdapter.TriggerSend | utils/adapters/teams.ts:40-63 | the method appends exactly `SendEffects`: a click on the climb's button, else the plain Enter replay |
| TeamsAdapter.SendEffects | utils/adapters/teams.ts:40-63 | definition of what triggerSend does; specified by `TeamsAdapter.ClickedButtonIsNearestHit` and `TeamsAdapter.NoButtonReplaysEnter` |
| TeamsAdapter.ClickedButtonIsNearestHit | utils/adapters/teams.ts:41-54 | a click is the only effect and goes to the HTMLElement hit of the lowest of at most 10 levels |
| TeamsAdapter.NoButtonReplaysEnter | utils/adapters/teams.ts:56-62 | without a clickable hit, plain Enter is replayed on the target |
| Adapters.SiteAdapter.Matches | utils/types.ts:23 | definition: the chosen adapter's host test; specified by `Adapters.GetAdapter` and `Adapters.FirstMatch` |
| Adapters.SiteAdapter.IsEditable | utils/types.ts:26 | definition: the chosen adapter's isEditable; specified by `Content.ListenerStep` |
| Adapters.SiteAdapter.NewlineEffects | utils/types.ts:27 | definition: the chosen adapter's newline effects; specified by `Adapters.SiteAdapter.InsertNewline` |
| Adapters.SiteAdapter.SendEffects | utils/types.ts:28 | definition: the chosen adapter's send effects; specified by `Adapters.SiteAdapter.TriggerSend` |
| Adapters.SiteAdapter.InsertNewline | utils/types.ts:27 | each adapter's insertNewline: the textarea is edited only by the two adapters that call `setRangeText` on a TEXTAREA and is untouched otherwise, and the log grows by the adapter's newline effects |
| Adapters.SiteAdapter.TriggerSend | utils/types.ts:28 | each adapter's triggerSend appends exactly that adapter's send effects |
| Adapters.FirstMatch | utils/adapters/index.ts:21-25 | the registry loop stops at the first adapter that matches, and every adapter before it does not match |
| Adapters.GetAdapter | utils/adapters/index.ts:20-27 | the chosen adapter matches the hostname, and it is the earliest adapter in the list order that matches |
| Adapters.DefaultOnlyWhenNoSiteMatches | utils/adapters/index.ts:10-27 | the fallback is chosen iff no site adapter matches |
| Adapters.NamesDistinct | utils/adapters/index.ts:10-18 | the adapters' names are pairwise distinct |
| Adapters.DiscordHosts | utils/adapters/discord.ts:6-8 | discord.com and ptb.discord.com get the Discord adapter |
| Adapters.NoSiteAdapterWithout | utils/adapters/index.ts:10-27 | a hostname not claimed by Discord that lacks the letters u, k, h, n and t gets the fallback |
| Adapters.TeamsWithout | utils/adapters/index.ts:10-27 | a Teams hostname without d, k, h and n gets the Teams adapter, because no earlier adapter claims it |
| Adapters.TeamsWorkHost | utils/adapters/teams.ts:6-8 | teams.microsoft.com gets the Teams adapter |
| Adapters.TeamsPersonalHost | utils/adapters/teams.ts:6-8 | teams.live.com gets the Teams adapter |
| Adapters.UnknownHost | utils/adapters/index.ts:26 | example.com gets the fallback |
| Adapters.GoogleHost | utils/adapters/index.ts:26 | google.com gets the fallback |
| Adapters.LookalikeHost | utils/adapters/discord.ts:6-8 | mydiscordapp.com contains "discord" but not "discord.com", so it gets the fallback |
| Storage.StripWww | utils/storage.ts:26 | exactly one leading "www." is removed, and only when it is there |
| Storage.GetNormalizedOrigin | utils/storage.ts:32-40 | a parsable origin keeps its protocol, loses its port and its "www.", and keeps the hostname the default lists use; unparsable text is returned as it is |
| Storage.GetBothOrigins | utils/storage.ts:42-54 | the bare port-less origin comes first. The `www.` form follows exactly when the hostname does not already start with "www.". Unparsable text gives only itself |
| Storage.WwwVariantsCollapse | utils/storage.ts:32-40 | the bare and the `www.` form of a site, on any ports, normalise to the same origin |
| Storage.BothOriginsNormaliseBack | utils/storage.ts:42-54 | each key a setting is written under normalises back to the origin it was written for |
| Storage.NormaliseIdempotent | utils/storage.ts:32-40 | normalising twice equals normalising once when at most one "www." is present |
| Storage.DoubleWwwNormalisesTwice | utils/storage.ts:35 | only one "www." is removed: www.www.example.com becomes www.example.com, which then becomes example.com |
| Storage.IsDefaultDisabledDomain | utils/storage.ts:56-64 | definition; specified by `Storage.DefaultDisabledUnrolled` and the host lemmas below it |
| Storage.DefaultDisabledUnrolled | utils/storage.ts:56-64 | disabled by default iff the hostname is x.com, twitter.com or docs.google.com or one of their subdomains, or is google.com itself |
| Storage.XComDisabled | utils/storage.ts:5 | x.com is disabled by default |
| Storage.GoogleDisabled | utils/storage.ts:59-60 | www.google.com is disabled by default |
| Storage.DocsDisabled | utils/storage.ts:5 | docs.google.com is disabled by default |
| Storage.NotDisabledHost | utils/storage.ts:56-64 | a hostname matching none of the entries is not disabled, on any port |
| Storage.GeminiNotDisabled | utils/storage.ts:59-61 | gemini.google.com is not disabled, because google.com only matches itself |
| Storage.ExampleNotDisabled | utils/storage.ts:56-64 | example.com is not disabled by default |
| Storage.IsDefaultWhitelistedDomain | utils/storage.ts:66-71 | definition; specified by `Storage.DefaultWhitelistExamples` and `Storage.NotWhitelistedHost` |
| Storage.DefaultWhitelistExamples | utils/storage.ts:66-71 | chatgpt.com is whitelisted, and so is www.perplexity.ai through its bare form |
| Storage.NotWhitelistedHost | utils/storage.ts:66-71 | a hostname equal to no listed domain and with no dot where a subdomain's would be is not whitelisted |
| Storage.ExampleNotWhitelisted | utils/storage.ts:66-71 | example.com is not whitelisted |
| Storage.DefaultConfig | utils/storage.ts:109-120 | with nothing saved: whitelist mode gives enabled iff the origin is on the whitelist, blacklist mode gives enabled iff it is not on the disabled list, and there are no custom lists |
| Storage.Cleaned | utils/storage.ts:101-105 | definition of the object a read returns; specified by `Storage.GetDomainConfigAsWritten`, `Storage.GetDomainConfig` and `Storage.MigrationEffectOnReads` |
| Storage.GetDomainConfigAsWritten | utils/storage.ts:94-121 | as written: a setting saved under the origin exactly as given (port included) is returned cleaned, otherwise the mode's default applies |
| Storage.GetDomainConfig | utils/storage.ts:94-121 | the corrected lookup: the setting saved under the normalised origin is returned cleaned, otherwise the mode's default applies |
| Storage.PutAllSpec | utils/storage.ts:136-138 | after the write loop every given key holds the new object and every other entry holds what it held before |
| Storage.WithDomainConfig | utils/storage.ts:123-141 | setDomainConfig writes the cleaned setting under both keys of the normalised origin and keeps every other entry and the mode |
| Storage.SetThenGet | utils/storage.ts:123-141 | a setting is read back, as given, for the origin it was set for (corrected lookup) |
| Storage.SetThenGetAsWritten | utils/storage.ts:94-141 | as written, a setting is read back for its origin when that origin has the default port and at most one leading `www.` |
| Storage.SetThenGetWwwVariant | utils/storage.ts:127-138 | a setting is also read back for the other form of the same site (`www.` or bare) on any port (corrected lookup) |
| Storage.SetLeavesOtherSites | utils/storage.ts:136-138 | setting one site leaves what every other site reads unchanged (corrected lookup) |
| Storage.PortSettingNotReadBackAsWritten | utils/storage.ts:99 | as written: disabling `http://localhost:3000` leaves it enabled, because the lookup uses the port |
| Storage.PortSettingReadBack | utils/storage.ts:127-138 | the corrected lookup reads that setting back as disabled |
| Storage.SavedSettingWins | utils/storage.ts:99-106 | a saved `{enabled: false}` wins over the defaults in either mode (corrected lookup) |
| Storage.Grouped | utils/storage.ts:143-154 | definition; specified by `Storage.GroupedKeys`, `Storage.GroupedIsNormalisedKeys` and `Storage.GroupedFirstWins` |
| Storage.GroupedKeys | utils/storage.ts:143-154 | the grouped view has an entry for a normalised origin iff some key normalises to it |
| Storage.GroupedIsNormalisedKeys | utils/storage.ts:143-154 | over the full key list of the stored domains, the grouped view has an entry exactly for each normal form of a stored origin |
| Storage.GroupedFirstWins | utils/storage.ts:146-150 | each grouped entry is taken from the first key, in key order, that normalises to it |
| Storage.WithDefaults | utils/storage.ts:162-204 | definition of the entries after the default loops; specified by `Storage.WithDefaultsSpec` and `Storage.AddDefaults` |
| Storage.WithDefaultsSpec | utils/storage.ts:175-179 | the default loop keeps every saved entry, adds the default entry for each listed origin without one, and adds nothing else |
| Storage.AddDefaults | utils/storage.ts:175-179 | the loop computes `WithDefaults` |
| Storage.DefaultOriginsAreListed | utils/storage.ts:165-203 | each origin `getAllConfigs` lists passes its own list check, so the guard never skips one |
| Storage.DisabledOriginsListed | utils/storage.ts:165-176 | all seven blacklist-mode origins pass `isDefaultDisabledDomain` |
| Storage.WhitelistOriginsListed | utils/storage.ts:183-200 | all thirteen whitelist-mode origins pass `isDefaultWhitelistedDomain` |
| Storage.AllConfigsOf | utils/storage.ts:156-206 | definition of what getAllConfigs returns; specified by `Storage.AllConfigsShowsDefaults` and `Storage.ExtensionStorage.GetAllConfigs` |
| Storage.AllConfigsShowsDefaults | utils/storage.ts:156-206 | getAllConfigs reports the mode. It keeps every saved entry, shows the default entry for every listed origin without a saved one, and adds nothing else |
| Storage.MigratedConfig | utils/storage.ts:283-287 | definition of the cleaned entry; specified by `Storage.MigratedConfigIsClean` and `Storage.MigrationEffectOnReads` |
| Storage.KeysChanged | utils/storage.ts:289-294 | definition of the change test; specified by `Storage.KeysChangedIff` |
| Storage.MigratedDomains | utils/storage.ts:282-297 | definition of the cleaned entries; specified by `Storage.CleanDomains` |
| Storage.NeedsRewrite | utils/storage.ts:279-297 | definition: some entry counts as changed; specified by `Storage.CleanDomains` |
| Storage.KeysChangedIff | utils/storage.ts:283-294 | an entry counts as changed iff `enabled` is absent, a custom list is null, or the entry has unknown properties |
| Storage.MigratedConfigIsClean | utils/storage.ts:283-294 | cleaning a cleaned entry changes nothing and is not counted as a change |
| Storage.MigrationEffectOnReads | utils/storage.ts:284 | when `enabled` was saved, cleaning keeps what is read back; an entry without a usable `enabled`, read as disabled before, reads as enabled after |
| Storage.MigratedSchema | utils/storage.ts:276-301 | the corrected migration keeps the activation mode and the set of origins |
| Storage.MigrationDropsModeAsWritten | utils/storage.ts:300 | as written: a whitelist user with one stale entry is switched to blacklist mode, so example.com goes from disabled to enabled |
| Storage.MigratedSchemaAsWritten | utils/storage.ts:276-301 | as written: when anything changed, the result has no activation mode (so blacklist) and the same set of origins; otherwise the store is unchanged |
| Storage.MigrationAsWrittenSettles | utils/storage.ts:267-307 | as written, a second migration changes nothing |
| Storage.MigrationIdempotent | utils/storage.ts:267-307 | a second migration changes nothing |
| Storage.WhatsNew | utils/storage.ts:239-250 | definition; specified by `Storage.WhatsNewOncePerUpdate` and `Storage.ExtensionStorage.ShouldShowWhatsNew` |
| Storage.WhatsNewOncePerUpdate | utils/storage.ts:239-250 | the notice shows exactly when a recorded version differs from the current one. The current version is recorded either way, and asking again shows nothing |
| Storage.ExtensionStorage.SetDomainConfig | utils/storage.ts:123-141 | the synced schema becomes `WithDomainConfig` of the old one; the version cells are untouched |
| Storage.ExtensionStorage.GetAllConfigs | utils/storage.ts:156-206 | returns `AllConfigsOf` the stored schema and writes nothing |
| Storage.ExtensionStorage.ShouldShowWhatsNew | utils/storage.ts:230-250 | result and recorded version are `WhatsNew` of the old version, where an empty string counts as none |
| Storage.ExtensionStorage.MigrateStorage | utils/storage.ts:267-303 | skips when the recorded migration version equals the current one; otherwise the schema becomes `MigratedSchemaAsWritten` (cleaned entries, activation mode dropped when anything changed) and the current version is recorded |
| Storage.CleanDomains | utils/storage.ts:282-297 | the loop cleans every entry and reports a change iff some entry counts as changed |
| Content.IsMacPlatform | entrypoints/content.ts:35 | definition; specified by `Content.MacPlatforms` |
| Content.MacPlatforms | entrypoints/content.ts:35 | "MacIntel" is a Mac platform and "Win32" is not |
| Content.ListenersFor | entrypoints/content.ts:37-90 | definition of the registrations; specified by `Content.ListenerLayout` and `Content.ContentScript.constructor` |
| Content.ListenerLayout | entrypoints/content.ts:37-90 | the first listener is the capture one. It sits on the window only for Claude. A bubble listener exists only for the fallback, the one Ctrl+Enter adapter |
| Content.ListenerStep | entrypoints/content.ts:42-89 | a listener acts only with an enabled setting on an editable target. It sends iff the resolver says send, and inserts a newline iff the resolver says newline. The bubble listener never gets a newline |
| Content.SyntheticEventsIgnored | entrypoints/content.ts:42-89 | an untrusted event is ignored by both listeners |
| Content.BubbleIdleOnEnterSites | entrypoints/content.ts:68-70 | on an Enter-to-send site a bubble listener would do nothing, so omitting it loses nothing |
| Content.SwapOnEnterSites | entrypoints/content.ts:42-66 | on an enabled compose box of an Enter-to-send site, plain Enter inserts a line break and the platform chord sends |
| Content.SplitOnCtrlEnterSites | entrypoints/content.ts:42-89 | on a Ctrl+Enter site: capture turns plain Enter into a line break and lets the chord through; bubble sends the chord unless the event was already handled |
| Content.ContentScript.constructor | entrypoints/content.ts:10-20 | the adapter is `getAdapter(hostname)`. The Discord page script is injected iff that adapter is Discord. No setting is known yet and the listeners are registered |
| Content.ContentScript.ConfigRead | entrypoints/content.ts:22-24 | a completed read replaces the current setting with `getDomainConfig(origin)` as written: the page origin is looked up as given, port included |
| Content.ContentScript.StorageChanged | entrypoints/content.ts:26-32 | only a change of the config key in the sync area re-reads the setting (the as-written lookup); any other change leaves it |
| Content.ContentScript.HandleKeydown | entrypoints/content.ts:42-89 | the reaction is `ListenerStep` on the current setting. The log grows by suppression then the adapter's effects. The textarea changes only on a newline the adapter applies as an edit |
| Content.ReactionEffects | entrypoints/content.ts:57-65 | definition of a reaction's effects; specified by `Content.React` and `Content.ContentScript.HandleKeydown` |
| Content.React | entrypoints/content.ts:57-65 | a non-ignored reaction calls preventDefault and stopImmediatePropagation, then triggerSend or insertNewline; an ignored one does nothing |
| Content.FailClosed | entrypoints/content.ts:44 | before the first read completes, and whenever the setting is disabled, a keydown has no effect |

## Left out

- Iframes (entrypoints/content.ts:95-131): attaching listeners to same-origin iframes as they load is not modelled. The model covers one document.
- Asynchrony: storage reads and writes are atomic steps. Interleavings, such as a stale read landing after a newer one, are not modelled.
- `doc.defaultView || window` (entrypoints/content.ts:38) is modelled only as the listener's target kind.
- URL parsing: an origin is either a parsed protocol, hostname and port, or unparsable text. `new URL` rules, default ports and serialisation are not modelled.
- CSS selectors are opaque strings. Each element lists the selectors it matches, so selector syntax is not modelled, nor what a list holding an invalid selector would make `matches` throw. The structural tests `closest` makes (a class, a role, the FORM tag) are modelled concretely.
- Case mapping (`toLowerCase`, `toUpperCase`) is ASCII-only. The keywords and the selector labels in Japanese and Chinese have no case.
- DefaultAdapter.InsertNewline: for the manual fallback it records one text-node insertion at the selection. The Range calls themselves (deleting the selection, moving it after the node, re-adding it) are not modelled.
- A custom list with no entries: `[].join(',')` is an empty selector, which makes `matches` throw. The model treats an element as matching none of an empty list's selectors.
- `enabled` is a boolean in the settings the content script reads. A saved non-boolean or `null` `enabled` is read back as false, which is what its truthiness gives.
- The migration's change test does not count a `null` `enabled` as a change, although cleaning turns it into `true`. This matches the key comparison. If that entry is the only stale one, it stays `null` on disk and is still read as disabled.
- A stored schema whose `domains` is missing is treated as empty. The source would throw there, and only `getAllConfigs` catches the error.
- The try/catch error paths of `getAllConfigs` and `migrateStorage` (utils/storage.ts:207-210, 304-306): a failing browser storage call is not modelled.
- An SVG element's `className` is an object, not a string. The default adapter's keyword test skips it, as the model does through `isHTMLElement`.
- Not modelled: `getActivationMode`, `setActivationMode`, `resetAllSettings`, `getDefaultDisabledDomains`, the onboarding flag, the `isDefault*Origin` wrappers, the options page, the popup, the background script and the Discord page-world script.
- `getManifest().version` and `navigator.platform` are parameters.

## Findings

| source | as written | input that shows it | evidently intended | confidence | as-written member | corrected member |
|---|---|---|---|---|---|---|
| utils/storage.ts:99 | `getDomainConfig` looks up `config.domains[origin]` with the page origin as given, port included, while `setDomainConfig` (utils/storage.ts:127-138) stores under the normalised, port-less keys | disabling the extension on `http://localhost:3000` stores `http://localhost` and `http://www.localhost`; the next read for `http://localhost:3000` finds neither and returns the default, enabled | the read uses the same normalised key the write used, so a saved setting is read back for its origin | not executed | Storage.PortSettingNotReadBackAsWritten | Storage.PortSettingReadBack |
| utils/storage.ts:300 | when any entry needs cleaning, the migration stores `{ domains: cleanedDomains }`, which drops `activationMode` | a whitelist-mode user with a saved entry lacking `enabled`: after migrating, the mode reads as blacklist and example.com goes from disabled to enabled | the migration rewrites only the domain entries and keeps the activation mode | not executed | Storage.MigrationDropsModeAsWritten | Storage.MigratedSchema |

The content script and `ExtensionStorage` keep the code's behaviour: they read
with `GetDomainConfigAsWritten` and migrate with `MigratedSchemaAsWritten`. The
corrected `GetDomainConfig` and `MigratedSchema` are stated beside them, and
the read-back and migration lemmas are proved about them.
