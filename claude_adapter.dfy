/** utils/adapters/claude.ts: claude.ai, a TipTap/ProseMirror editor whose
    key handler sits on the window. */
module ClaudeAdapter {
  import opened Wrappers
  import opened Strings
  import opened Types
  import opened Dom
  import opened Lookup

  const Name := "claude"
  const Listener := WindowTarget
  const SendKey := EnterSends

  const SendSelectors: seq<string> := [
    "button[aria-label=\"\U{30E1}\U{30C3}\U{30BB}\U{30FC}\U{30B8}\U{3092}\U{9001}\U{4FE1}\"]",
    "button[aria-label=\"Send message\"]",
    "button[aria-label*=\"\U{9001}\U{4FE1}\"]",
    "button[aria-label*=\"Send\"]"]

  const SearchLevels := 10

  predicate Matches(hostname: string) {
    Includes(hostname, "claude.ai")
  }

  /** `.tiptap.ProseMirror`: both classes on one element. */
  predicate IsTiptapEditor(e: Element) {
    e.HasClass("tiptap") && e.HasClass("ProseMirror")
  }

  function IsEditable(doc: Document, element: Option<NodeId>): (editable: bool)
    requires IsNode(doc, element)
    ensures editable <==> element.Some? && NearestHas(doc, element.value, IsTiptapEditor, IsContentEditable)
  {
    if element.None? then false
    else
      var editor := Closest(doc, element.value, IsTiptapEditor);
      ClosestIsNearest(doc, element.value, IsTiptapEditor, IsContentEditable);
      editor.Some? && doc[editor.value].isContentEditable
  }

  method InsertNewline(target: NodeId, log: EventLog)
    modifies log
    ensures log.entries == old(log.entries) + EnterSequence(target, true)
  {
    log.DispatchEnterSequence(target, true);
  }

  /** mousedown, mouseup, then click on the button. */
  function PressEffects(b: NodeId): seq<Effect> {
    [MouseEventDispatched(b, MouseDown), MouseEventDispatched(b, MouseUp), Clicked(b)]
  }

  function SendEffects(doc: Document, target: NodeId): seq<Effect>
    requires target < |doc|
  {
    match SearchUpHtml(doc, ParentElement(doc, target), SearchLevels, SendSelectors)
    case Some(b) => PressEffects(b)
    case None => []
  }

  method TriggerSend(doc: Document, target: NodeId, log: EventLog)
    requires target < |doc|
    modifies log
    ensures log.entries == old(log.entries) + SendEffects(doc, target)
  {
    var sendButton := FindHtmlButton(doc, ParentElement(doc, target), SearchLevels, SendSelectors);
    if sendButton.Some? {
      log.Append(MouseEventDispatched(sendButton.value, MouseDown));
      log.Append(MouseEventDispatched(sendButton.value, MouseUp));
      log.Append(Clicked(sendButton.value));
    }
  }

  /** A press goes to the HTMLElement hit of the lowest level that has one. */
  lemma PressedButtonIsNearestHit(doc: Document, target: NodeId, b: NodeId)
    requires target < |doc| && Clicked(b) in SendEffects(doc, target)
    ensures SendEffects(doc, target) == PressEffects(b)
    ensures exists k :: 0 <= k < SearchLevels && LevelHit(doc, ParentElement(doc, target), SendSelectors, k) == Some(b) &&
                        (forall j :: 0 <= j < k ==> !HtmlHit(doc, ParentElement(doc, target), SendSelectors, j))
  {
    SearchUpHtmlFound(doc, ParentElement(doc, target), SearchLevels, SendSelectors);
  }

  /** With no clickable hit within 10 levels, triggerSend does nothing. */
  lemma NoButtonNoEffect(doc: Document, target: NodeId)
    requires target < |doc|
    requires forall k :: 0 <= k < SearchLevels ==> !HtmlHit(doc, ParentElement(doc, target), SendSelectors, k)
    ensures SendEffects(doc, target) == []
  {
    NoHtmlHitGivesNone(doc, ParentElement(doc, target), SearchLevels, SendSelectors);
  }
}
