/** entrypoints/content.ts: the content script that picks the page's adapter,
    keeps the page's setting current and intercepts Enter in two keydown
    listeners. */
module Content {
  import opened Wrappers
  import opened Strings
  import opened Types
  import opened KeyHandler
  import opened Dom
  import opened Adapters
  import Storage

  /** `navigator.platform.toUpperCase().indexOf('MAC') >= 0` */
  predicate IsMacPlatform(platform: string) {
    Includes(ToUpper(platform), "MAC")
  }

  /** "MacIntel" is a Mac platform, "Win32" is not. */
  lemma MacPlatforms()
    ensures IsMacPlatform("MacIntel")
    ensures !IsMacPlatform("Win32")
  {
    assert ToUpper("MacIntel")[0..3] == "MAC";
    assert OccursAt(ToUpper("MacIntel"), "MAC", 0);
    var w := ToUpper("Win32");
    assert forall i :: 0 <= i < |w| ==> w[i] != 'M';
    MissingChar(w, "MAC", 'M');
  }

  /** A keydown listener: where it is registered, and in which phase. */
  datatype Registration = Registration(on: ListenerTarget, phase: Phase)

  /** `attachListeners(document)`: the capture listener on the adapter's target,
      then the bubble listener on the document for Ctrl+Enter sites. */
  function ListenersFor(adapter: SiteAdapter): seq<Registration> {
    [Registration(adapter.Listener(), Capture)] +
    (if adapter.SendKey() == CtrlEnterSends then [Registration(DocumentTarget, Bubble)] else [])
  }

  /** Only the catch-all adds a bubble listener, and only Claude's capture
      listener sits on the window. */
  lemma ListenerLayout(adapter: SiteAdapter)
    ensures ListenersFor(adapter)[0].phase == Capture
    ensures ListenersFor(adapter)[0].on == WindowTarget <==> adapter == Claude
    ensures (exists i :: 0 <= i < |ListenersFor(adapter)| && ListenersFor(adapter)[i].phase == Bubble) <==>
      adapter == Default
  {
    if adapter == Default {
      assert ListenersFor(adapter)[1].phase == Bubble;
    }
  }

  /** What a listener does with a keydown. */
  datatype Reaction = Ignore | SuppressAndSend | SuppressAndInsertNewline

  /** One listener's decision: nothing without an enabled setting or an editable
      target; otherwise the resolved action, where the bubble listener only
      acts on a send. */
  function ListenerStep(adapter: SiteAdapter, doc: Document, target: NodeId, hostname: string,
                        config: Option<DomainConfig>, event: KeyEvent, isMac: bool, phase: Phase,
                        defaultPrevented: bool): (r: Reaction)
    requires target < |doc|
    ensures r != Ignore ==>
      config.Some? && config.value.enabled && adapter.IsEditable(doc, Some(target), hostname, config)
    ensures r == SuppressAndSend <==>
      config.Some? && config.value.enabled && adapter.IsEditable(doc, Some(target), hostname, config) &&
      ResolveKeyAction(event, adapter.SendKey(), isMac, phase, defaultPrevented) == Send
    ensures r == SuppressAndInsertNewline <==>
      config.Some? && config.value.enabled && adapter.IsEditable(doc, Some(target), hostname, config) &&
      ResolveKeyAction(event, adapter.SendKey(), isMac, phase, defaultPrevented) == Newline
  {
    if config.None? || !config.value.enabled then Ignore
    else if !adapter.IsEditable(doc, Some(target), hostname, config) then Ignore
    else
      var action := ResolveKeyAction(event, adapter.SendKey(), isMac, phase, defaultPrevented);
      if phase == Capture then
        if action == Send then SuppressAndSend
        else if action == Newline then SuppressAndInsertNewline
        else Ignore
      else if action == Send then SuppressAndSend
      else Ignore
  }

  /** The effects of a reaction: the event is cancelled and stopped before the
      adapter acts. */
  function ReactionEffects(r: Reaction, adapter: SiteAdapter, doc: Document, target: NodeId, win: Window)
    : seq<Effect>
    requires target < |doc|
  {
    match r
    case Ignore => []
    case SuppressAndSend => [DefaultPrevented, PropagationStopped] + adapter.SendEffects(doc, target, win)
    case SuppressAndInsertNewline => [DefaultPrevented, PropagationStopped] + adapter.NewlineEffects(doc, target, win)
  }

  /** The events the adapters dispatch themselves are untrusted, so the
      listeners never act on them: a replayed Enter cannot loop. */
  lemma SyntheticEventsIgnored(adapter: SiteAdapter, doc: Document, target: NodeId, hostname: string,
                               config: Option<DomainConfig>, event: KeyEvent, isMac: bool, phase: Phase,
                               defaultPrevented: bool)
    requires target < |doc| && !event.isTrusted
    ensures ListenerStep(adapter, doc, target, hostname, config, event, isMac, phase, defaultPrevented) == Ignore
  {
  }

  /** On an Enter-to-send site the bubble listener would never act, so leaving
      it unregistered changes nothing. */
  lemma BubbleIdleOnEnterSites(adapter: SiteAdapter, doc: Document, target: NodeId, hostname: string,
                               config: Option<DomainConfig>, event: KeyEvent, isMac: bool, defaultPrevented: bool)
    requires target < |doc| && adapter.SendKey() == EnterSends
    ensures ListenerStep(adapter, doc, target, hostname, config, event, isMac, Bubble, defaultPrevented) == Ignore
  {
  }

  /** An enabled, editable target on an Enter-to-send site: plain Enter becomes
      a line break and the platform chord sends, both in the capture phase. */
  lemma SwapOnEnterSites(adapter: SiteAdapter, doc: Document, target: NodeId, hostname: string,
                         config: DomainConfig, isMac: bool)
    requires target < |doc| && adapter.SendKey() == EnterSends && config.enabled
    requires adapter.IsEditable(doc, Some(target), hostname, Some(config))
    ensures ListenerStep(adapter, doc, target, hostname, Some(config),
      KeyEvent("Enter", false, false, false, false, true, false), isMac, Capture, false) == SuppressAndInsertNewline
    ensures ListenerStep(adapter, doc, target, hostname, Some(config),
      KeyEvent("Enter", false, !isMac, isMac, false, true, false), isMac, Capture, false) == SuppressAndSend
  {
  }

  /** On a Ctrl+Enter site the capture listener turns plain Enter into a line
      break and lets the chord through; the bubble listener then sends it,
      unless the page already handled it. */
  lemma SplitOnCtrlEnterSites(adapter: SiteAdapter, doc: Document, target: NodeId, hostname: string,
                              config: DomainConfig, isMac: bool, defaultPrevented: bool)
    requires target < |doc| && adapter.SendKey() == CtrlEnterSends && config.enabled
    requires adapter.IsEditable(doc, Some(target), hostname, Some(config))
    ensures ListenerStep(adapter, doc, target, hostname, Some(config),
      KeyEvent("Enter", false, false, false, false, true, false), isMac, Capture, false) == SuppressAndInsertNewline
    ensures ListenerStep(adapter, doc, target, hostname, Some(config),
      KeyEvent("Enter", false, !isMac, isMac, false, true, false), isMac, Capture, false) == Ignore
    ensures ListenerStep(adapter, doc, target, hostname, Some(config),
      KeyEvent("Enter", false, !isMac, isMac, false, true, false), isMac, Bubble, defaultPrevented)
      == if defaultPrevented then Ignore else SuppressAndSend
  {
  }

  /** The script's state in one page. */
  class ContentScript {
    const adapter: SiteAdapter
    const origin: Storage.Origin
    const hostname: string
    const isMac: bool
    /** The Discord page-world helper is injected. */
    const injectsPageScript: bool
    var currentConfig: Option<DomainConfig>
    var listeners: seq<Registration>

    /** `main()` up to the listeners being attached; the setting arrives later,
        through `ConfigRead`. */
    constructor (origin: Storage.Origin, hostname: string, platform: string)
      ensures this.origin == origin && this.hostname == hostname
      ensures adapter == GetAdapter(hostname)
      ensures injectsPageScript <==> adapter == Discord
      ensures isMac == IsMacPlatform(platform)
      ensures currentConfig == None
      ensures listeners == ListenersFor(adapter)
    {
      this.origin := origin;
      this.hostname := hostname;
      var a := GetAdapter(hostname);
      adapter := a;
      NamesDistinct(a, Discord);
      injectsPageScript := a.Name() == "discord";
      isMac := IsMacPlatform(platform);
      currentConfig := None;
      var regs := [Registration(a.Listener(), Capture)];
      if a.SendKey() == CtrlEnterSends {
        regs := regs + [Registration(DocumentTarget, Bubble)];
      }
      listeners := regs;
    }

    /** A `getDomainConfig(origin)` read completing against `stored`: the
        setting replaces the previous one wholesale. The page origin is looked
        up as given, port included. */
    method ConfigRead(stored: Option<Storage.Schema>)
      modifies this
      ensures currentConfig == Some(Storage.GetDomainConfigAsWritten(stored, origin))
      ensures listeners == old(listeners)
    {
      currentConfig := Some(Storage.GetDomainConfigAsWritten(stored, origin));
    }

    /** `storage.onChanged`: only a change of the schema in the synced area
        triggers a fresh read. */
    method StorageChanged(area: string, changedKeys: set<string>, stored: Option<Storage.Schema>)
      modifies this
      ensures area == "sync" && Storage.StorageKey in changedKeys ==>
        currentConfig == Some(Storage.GetDomainConfigAsWritten(stored, origin))
      ensures !(area == "sync" && Storage.StorageKey in changedKeys) ==> currentConfig == old(currentConfig)
      ensures listeners == old(listeners)
    {
      if area == "sync" && Storage.StorageKey in changedKeys {
        ConfigRead(stored);
      }
    }

    /** One of the two keydown listeners handling an event whose target is
        `target`; `ta` is the target's buffer when it is a textarea. */
    method HandleKeydown(doc: Document, target: NodeId, win: Window, ta: TextArea, log: EventLog,
                         event: KeyEvent, phase: Phase, defaultPrevented: bool) returns (reaction: Reaction)
      requires target < |doc| && ta.Valid()
      modifies ta, log
      ensures reaction == ListenerStep(adapter, doc, target, hostname, currentConfig, event, isMac, phase, defaultPrevented)
      ensures log.entries == old(log.entries) + ReactionEffects(reaction, adapter, doc, target, win)
      ensures ta.Valid()
      ensures reaction == SuppressAndInsertNewline && adapter.EditsTextarea(doc, target) ==>
        ta.value == NewlineInserted(old(ta.value), old(ta.selectionStart), old(ta.selectionEnd))
      ensures !(reaction == SuppressAndInsertNewline && adapter.EditsTextarea(doc, target)) ==> unchanged(ta)
    {
      var config := currentConfig;
      reaction := Ignore;
      if config.Some? && config.value.enabled && adapter.IsEditable(doc, Some(target), hostname, config) {
        var action := ResolveKeyAction(event, adapter.SendKey(), isMac, phase, defaultPrevented);
        ActionReaction(adapter, doc, target, hostname, config.value, event, isMac, phase, defaultPrevented);
        if action == Send {
          reaction := SuppressAndSend;
        } else if action == Newline && phase == Capture {
          reaction := SuppressAndInsertNewline;
        }
      }
      React(reaction, adapter, doc, target, win, ta, log);
    }
  }

  /** Carries out a reaction: the event is cancelled and its propagation
      stopped, then the adapter sends or inserts the line break. */
  method React(r: Reaction, adapter: SiteAdapter, doc: Document, target: NodeId, win: Window,
               ta: TextArea, log: EventLog)
    requires target < |doc| && ta.Valid()
    modifies ta, log
    ensures log.entries == old(log.entries) + ReactionEffects(r, adapter, doc, target, win)
    ensures ta.Valid()
    ensures r == SuppressAndInsertNewline && adapter.EditsTextarea(doc, target) ==>
      ta.value == NewlineInserted(old(ta.value), old(ta.selectionStart), old(ta.selectionEnd))
    ensures !(r == SuppressAndInsertNewline && adapter.EditsTextarea(doc, target)) ==> unchanged(ta)
  {
    if r == Ignore {
      return;
    }
    log.Append(DefaultPrevented);
    log.Append(PropagationStopped);
    ghost var suppressed := log.entries;
    assert suppressed == old(log.entries) + [DefaultPrevented, PropagationStopped];
    if r == SuppressAndSend {
      adapter.TriggerSend(doc, target, win, log);
    } else {
      adapter.InsertNewline(doc, target, win, ta, log);
    }
  }

  /** With an enabled setting and an editable target, the reaction follows
      the resolved action alone. */
  lemma ActionReaction(adapter: SiteAdapter, doc: Document, target: NodeId, hostname: string,
                       config: DomainConfig, event: KeyEvent, isMac: bool, phase: Phase, defaultPrevented: bool)
    requires target < |doc| && config.enabled && adapter.IsEditable(doc, Some(target), hostname, Some(config))
    ensures var action := ResolveKeyAction(event, adapter.SendKey(), isMac, phase, defaultPrevented);
      ListenerStep(adapter, doc, target, hostname, Some(config), event, isMac, phase, defaultPrevented) ==
        if action == Send then SuppressAndSend
        else if action == Newline && phase == Capture then SuppressAndInsertNewline
        else Ignore
  {
  }

  /** Until the first read completes, and whenever the setting is disabled, no
      keydown has any effect. */
  lemma FailClosed(adapter: SiteAdapter, doc: Document, target: NodeId, win: Window, hostname: string,
                   config: Option<DomainConfig>, event: KeyEvent, isMac: bool, phase: Phase, defaultPrevented: bool)
    requires target < |doc| && (config.None? || !config.value.enabled)
    ensures ReactionEffects(ListenerStep(adapter, doc, target, hostname, config, event, isMac, phase, defaultPrevented),
                            adapter, doc, target, win) == []
  {
  }
}
