/** utils/adapters/discord.ts: discord.com, whose Slate editor ignores
    synthetic key events for line breaks, so a newline is requested from a
    page-world script through a custom document event. */
module DiscordAdapter {
  import opened Wrappers
  import opened Strings
  import opened Types
  import opened Dom
  import opened KeyHandler

  const Name := "discord"
  const Listener := DocumentTarget
  const SendKey := EnterSends

  /** The custom event the page-world script listens for. */
  const InsertNewlineEvent := "__ces_insert_newline"

  predicate Matches(hostname: string) {
    Includes(hostname, "discord.com")
  }

  predicate IsTextbox(e: Element) {
    e.HasRole("textbox")
  }

  /** isEditable: the element is a contenteditable textbox, or its closest
      role=textbox ancestor is contenteditable. The first test is the
      special case of the second where the nearest textbox is the element. */
  function IsEditable(doc: Document, element: Option<NodeId>): (editable: bool)
    requires IsNode(doc, element)
    ensures editable <==> element.Some? && NearestHas(doc, element.value, IsTextbox, IsContentEditable)
  {
    if element.None? then false
    else
      var n := element.value;
      ClosestIsNearest(doc, n, IsTextbox, IsContentEditable);
      if doc[n].GetAttribute("role") == Some("textbox") && doc[n].isContentEditable then true
      else
        var textbox := Closest(doc, n, IsTextbox);
        textbox.Some? && doc[textbox.value].isContentEditable
  }

  /** insertNewline ignores its target: one custom event on the document. */
  function NewlineEffects(): seq<Effect> {
    [DocumentEventDispatched(InsertNewlineEvent)]
  }

  method InsertNewline(target: NodeId, log: EventLog)
    modifies log
    ensures log.entries == old(log.entries) + NewlineEffects()
  {
    log.Append(DocumentEventDispatched(InsertNewlineEvent));
  }

  /** Where the synthetic keydown goes: the closest textbox, else the target. */
  function SendTarget(doc: Document, target: NodeId): (t: NodeId)
    requires target < |doc|
    ensures t <= target && IsInclusiveAncestor(doc, t, target)
    ensures t != target ==> IsTextbox(doc[t])
  {
    match Closest(doc, target, IsTextbox)
    case Some(t) => t
    case None => target
  }

  /** triggerSend: one bubbling Enter keydown without modifiers; Discord's own
      handler sends the message. */
  function SendEffects(doc: Document, target: NodeId): seq<Effect>
    requires target < |doc|
  {
    [KeyboardEventDispatched(SendTarget(doc, target), KeyDown, "Enter", false)]
  }

  method TriggerSend(doc: Document, target: NodeId, log: EventLog)
    requires target < |doc|
    modifies log
    ensures log.entries == old(log.entries) + SendEffects(doc, target)
  {
    var textbox := Closest(doc, target, IsTextbox);
    var t := if textbox.Some? then textbox.value else target;
    log.Append(KeyboardEventDispatched(t, KeyDown, "Enter", false));
  }

  /** The keydown triggerSend dispatches, as the listener later sees it: a
      script-made event is never trusted. */
  function SyntheticKeydown(): KeyEvent {
    KeyEvent("Enter", false, false, false, false, false, false)
  }

  /** The re-dispatched keydown reaches the extension's own listener but is
      left alone there, so the send does not loop. */
  lemma SyntheticKeydownPasses(nativeSendKey: NativeSendKey, isMac: bool, phase: Phase, defaultPrevented: bool)
    ensures ResolveKeyAction(SyntheticKeydown(), nativeSendKey, isMac, phase, defaultPrevented) == Pass
  {
  }
}
