/** utils/adapters/index.ts: the ordered adapter list and the first-match
    lookup, with each adapter's members reached through one tagged union. */
module Adapters {
  import opened Wrappers
  import opened Strings
  import opened Types
  import opened Dom
  import DefaultAdapter
  import ChatGptAdapter
  import DiscordAdapter
  import ClaudeAdapter
  import GrokAdapter
  import SlackAdapter
  import TeamsAdapter

  datatype SiteAdapter = Discord | Claude | Slack | Grok | ChatGpt | Teams | Default
  {
    function Name(): string {
      match this
      case Discord => DiscordAdapter.Name
      case Claude => ClaudeAdapter.Name
      case Slack => SlackAdapter.Name
      case Grok => GrokAdapter.Name
      case ChatGpt => ChatGptAdapter.Name
      case Teams => TeamsAdapter.Name
      case Default => DefaultAdapter.Name
    }

    function Listener(): ListenerTarget {
      match this
      case Discord => DiscordAdapter.Listener
      case Claude => ClaudeAdapter.Listener
      case Slack => SlackAdapter.Listener
      case Grok => GrokAdapter.Listener
      case ChatGpt => ChatGptAdapter.Listener
      case Teams => TeamsAdapter.Listener
      case Default => DefaultAdapter.Listener
    }

    function SendKey(): NativeSendKey {
      match this
      case Discord => DiscordAdapter.SendKey
      case Claude => ClaudeAdapter.SendKey
      case Slack => SlackAdapter.SendKey
      case Grok => GrokAdapter.SendKey
      case ChatGpt => ChatGptAdapter.SendKey
      case Teams => TeamsAdapter.SendKey
      case Default => DefaultAdapter.SendKey
    }

    predicate Matches(hostname: string) {
      match this
      case Discord => DiscordAdapter.Matches(hostname)
      case Claude => ClaudeAdapter.Matches(hostname)
      case Slack => SlackAdapter.Matches(hostname)
      case Grok => GrokAdapter.Matches(hostname)
      case ChatGpt => ChatGptAdapter.Matches(hostname)
      case Teams => TeamsAdapter.Matches(hostname)
      case Default => DefaultAdapter.Matches(hostname)
    }

    /** `hostname` is the page's window.location.hostname, which only the
        fallback consults; only the fallback and ChatGPT read the config. */
    predicate IsEditable(doc: Document, element: Option<NodeId>, hostname: string, config: Option<DomainConfig>)
      requires IsNode(doc, element)
    {
      match this
      case Discord => DiscordAdapter.IsEditable(doc, element)
      case Claude => ClaudeAdapter.IsEditable(doc, element)
      case Slack => SlackAdapter.IsEditable(doc, element)
      case Grok => GrokAdapter.IsEditable(doc, element)
      case ChatGpt => ChatGptAdapter.IsEditable(doc, element, config)
      case Teams => TeamsAdapter.IsEditable(doc, element)
      case Default => DefaultAdapter.IsEditable(doc, element, hostname, config)
    }

    /** The adapter edits the textarea buffer itself instead of dispatching. */
    predicate EditsTextarea(doc: Document, target: NodeId)
      requires target < |doc|
    {
      (this == Default || this == ChatGpt) && doc[target].tagName == "TEXTAREA"
    }

    function NewlineEffects(doc: Document, target: NodeId, win: Window): seq<Effect>
      requires target < |doc|
    {
      match this
      case Discord => DiscordAdapter.NewlineEffects()
      case ChatGpt => ChatGptAdapter.NewlineEffects(doc, target)
      case Default => DefaultAdapter.NewlineEffects(doc, target, win)
      case _ => EnterSequence(target, true)
    }

    function SendEffects(doc: Document, target: NodeId, win: Window): seq<Effect>
      requires target < |doc|
    {
      match this
      case Discord => DiscordAdapter.SendEffects(doc, target)
      case Claude => ClaudeAdapter.SendEffects(doc, target)
      case Slack => SlackAdapter.SendEffects(doc, target)
      case Grok => GrokAdapter.SendEffects(doc, target)
      case ChatGpt => ChatGptAdapter.SendEffects(doc, target, win)
      case Teams => TeamsAdapter.SendEffects(doc, target)
      case Default => DefaultAdapter.SendEffects(doc, target, win)
    }

    /** insertNewline. `ta` is the target's buffer, used only when the target
        is a textarea the adapter edits. */
    method InsertNewline(doc: Document, target: NodeId, win: Window, ta: TextArea, log: EventLog)
      requires target < |doc| && ta.Valid()
      modifies ta, log
      ensures ta.Valid()
      ensures EditsTextarea(doc, target) ==>
        ta.value == NewlineInserted(old(ta.value), old(ta.selectionStart), old(ta.selectionEnd)) &&
        ta.selectionStart == ta.selectionEnd == old(ta.selectionStart) + 1
      ensures !EditsTextarea(doc, target) ==> unchanged(ta)
      ensures log.entries == old(log.entries) + NewlineEffects(doc, target, win)
    {
      match this
      case Discord => DiscordAdapter.InsertNewline(target, log);
      case Claude => ClaudeAdapter.InsertNewline(target, log);
      case Slack => SlackAdapter.InsertNewline(target, log);
      case Grok => GrokAdapter.InsertNewline(target, log);
      case ChatGpt => ChatGptAdapter.InsertNewline(doc, target, ta, log);
      case Teams => TeamsAdapter.InsertNewline(target, log);
      case Default => DefaultAdapter.InsertNewline(doc, target, win, ta, log);
    }

    method TriggerSend(doc: Document, target: NodeId, win: Window, log: EventLog)
      requires target < |doc|
      modifies log
      ensures log.entries == old(log.entries) + SendEffects(doc, target, win)
    {
      match this
      case Discord => DiscordAdapter.TriggerSend(doc, target, log);
      case Claude => ClaudeAdapter.TriggerSend(doc, target, log);
      case Slack => SlackAdapter.TriggerSend(doc, target, log);
      case Grok => GrokAdapter.TriggerSend(doc, target, log);
      case ChatGpt => ChatGptAdapter.TriggerSend(doc, target, win, log);
      case Teams => TeamsAdapter.TriggerSend(doc, target, log);
      case Default => DefaultAdapter.TriggerSend(doc, target, win, log);
    }
  }

  /** The lookup order: site adapters first, the catch-all last. */
  const AdapterOrder: seq<SiteAdapter> := [Discord, Claude, Slack, Grok, ChatGpt, Teams, Default]

  /** The position of the first adapter from `from` on whose matches holds,
      or |AdapterOrder| when there is none. */
  function FirstMatch(hostname: string, from: nat): (i: nat)
    requires from <= |AdapterOrder|
    ensures from <= i <= |AdapterOrder|
    ensures i < |AdapterOrder| ==> AdapterOrder[i].Matches(hostname)
    ensures forall j :: from <= j < i ==> !AdapterOrder[j].Matches(hostname)
    decreases |AdapterOrder| - from
  {
    if from == |AdapterOrder| then from
    else if AdapterOrder[from].Matches(hostname) then from
    else FirstMatch(hostname, from + 1)
  }

  /** getAdapter: the earliest adapter in the list whose matches holds; the
      trailing fallback is never needed because the catch-all matches. */
  function GetAdapter(hostname: string): (a: SiteAdapter)
    ensures a.Matches(hostname)
    ensures exists i :: 0 <= i < |AdapterOrder| && AdapterOrder[i] == a &&
                        forall j :: 0 <= j < i ==> !AdapterOrder[j].Matches(hostname)
  {
    var i := FirstMatch(hostname, 0);
    if i < |AdapterOrder| then AdapterOrder[i] else Default
  }

  /** The catch-all is chosen only when no site adapter matches. */
  lemma DefaultOnlyWhenNoSiteMatches(hostname: string)
    ensures GetAdapter(hostname) == Default <==> forall a :: a != Default ==> !a.Matches(hostname)
  {
    var i := FirstMatch(hostname, 0);
    if GetAdapter(hostname) == Default {
      assert i == 6;
      forall a | a != Default ensures !a.Matches(hostname) {
        var j := match a
          case Discord => 0 case Claude => 1 case Slack => 2 case Grok => 3
          case ChatGpt => 4 case Teams => 5 case Default => 6;
        assert AdapterOrder[j] == a;
      }
    } else {
      assert AdapterOrder[i].Matches(hostname);
    }
  }

  /** Adapter names are distinct, so a name identifies an adapter. */
  lemma NamesDistinct(a: SiteAdapter, b: SiteAdapter)
    ensures a.Name() == b.Name() ==> a == b
  {
  }

  lemma DiscordHosts()
    ensures GetAdapter("discord.com") == Discord
    ensures GetAdapter("ptb.discord.com") == Discord
  {
    assert OccursAt("discord.com", "discord.com", 0);
    assert OccursAt("ptb.discord.com", "discord.com", 4);
  }

  /** A hostname that Discord does not claim and that lacks the letters u, k,
      h, n and t is claimed by no site adapter: each other site pattern has
      one of them. */
  lemma NoSiteAdapterWithout(hostname: string)
    requires !DiscordAdapter.Matches(hostname)
    requires forall c :: c in "ukhnt" ==> c !in hostname
    ensures GetAdapter(hostname) == Default
  {
    assert 'u' in "ukhnt" && 'k' in "ukhnt" && 'h' in "ukhnt" && 'n' in "ukhnt" && 't' in "ukhnt";
    MissingChar(hostname, "claude.ai", 'u');
    MissingChar(hostname, "slack.com", 'k');
    MissingChar(hostname, "grok.com", 'k');
    MissingChar(hostname, "chatgpt.com", 'h');
    MissingChar(hostname, "openai.com", 'n');
    MissingChar(hostname, "teams.microsoft.com", 't');
    MissingChar(hostname, "teams.live.com", 't');
  }

  /** A Teams hostname without the letters d, k, h and n is claimed by no
      earlier adapter. */
  lemma TeamsWithout(hostname: string)
    requires TeamsAdapter.Matches(hostname)
    requires forall c :: c in "dkhn" ==> c !in hostname
    ensures GetAdapter(hostname) == Teams
  {
    assert 'd' in "dkhn" && 'k' in "dkhn" && 'h' in "dkhn" && 'n' in "dkhn";
    MissingChar(hostname, "discord.com", 'd');
    MissingChar(hostname, "claude.ai", 'd');
    MissingChar(hostname, "slack.com", 'k');
    MissingChar(hostname, "grok.com", 'k');
    MissingChar(hostname, "chatgpt.com", 'h');
    MissingChar(hostname, "openai.com", 'n');
  }

  lemma TeamsWorkHost()
    ensures GetAdapter("teams.microsoft.com") == Teams
  {
    assert OccursAt("teams.microsoft.com", "teams.microsoft.com", 0);
    TeamsWithout("teams.microsoft.com");
  }

  lemma TeamsPersonalHost()
    ensures GetAdapter("teams.live.com") == Teams
  {
    assert OccursAt("teams.live.com", "teams.live.com", 0);
    TeamsWithout("teams.live.com");
  }

  lemma UnknownHost()
    ensures GetAdapter("example.com") == Default
  {
    MissingChar("example.com", "discord.com", 'd');
    NoSiteAdapterWithout("example.com");
  }

  lemma GoogleHost()
    ensures GetAdapter("google.com") == Default
  {
    MissingChar("google.com", "discord.com", 'd');
    NoSiteAdapterWithout("google.com");
  }

  /** A hostname that contains "discord" but not "discord.com". */
  lemma LookalikeHost()
    ensures GetAdapter("mydiscordapp.com") == Default
  {
    var h := "mydiscordapp.com";
    forall i | 0 <= i && i + 11 <= |h| ensures !OccursAt(h, "discord.com", i) {
      assert h[i..i + 11][7] == h[i + 7];
      assert h[i..i + 11][0] == h[i];
    }
    NoSiteAdapterWithout(h);
  }
}
