/** utils/adapters/grok.ts: grok.com, a TipTap/ProseMirror editor. */
module GrokAdapter {
  import opened Wrappers
  import opened Strings
  import opened Types
  import opened Dom
  import opened Lookup

  const Name := "grok"
  const Listener := DocumentTarget
  const SendKey := EnterSends

  const SendSelectors: seq<string> := [
    "button[type=\"submit\"][aria-label]",
    "button[aria-label=\"\U{9001}\U{4FE1}\"]",
    "button[aria-label=\"Send\"]",
    "button[type=\"submit\"]"]

  const SearchLevels := 10

  predicate Matches(hostname: string) {
    Includes(hostname, "grok.com")
  }

  /** `.tiptap.ProseMirror`: both classes on one element. */
  predicate IsTiptapEditor(e: Element) {
    e.HasClass("tiptap") && e.HasClass("ProseMirror")
  }

  function IsEditable(doc: Document, element: Option<NodeId>): (editable: bool)
    requires IsNode(doc, element)
    ensures editable <==> element.Some? && NearestHas(doc, element.value, IsTiptapEditor, IsContentEditable)
  {
    if element.None? then false
    else
      var editor := Closest(doc, element.value, IsTiptapEditor);
      ClosestIsNearest(doc, element.value, IsTiptapEditor, IsContentEditable);
      editor.Some? && doc[editor.value].isContentEditable
  }

  method InsertNewline(target: NodeId, log: EventLog)
    modifies log
    ensures log.entries == old(log.entries) + EnterSequence(target, true)
  {
    log.DispatchEnterSequence(target, true);
  }

  /** The first container searched: the enclosing form, else the parent. */
  function SearchStart(doc: Document, target: NodeId): (start: Option<NodeId>)
    requires target < |doc|
    ensures IsNode(doc, start)
  {
    var form := Closest(doc, target, IsForm);
    if form.Some? then form else ParentElement(doc, target)
  }

  function SendEffects(doc: Document, target: NodeId): seq<Effect>
    requires target < |doc|
  {
    match SearchUpHtml(doc, SearchStart(doc, target), SearchLevels, SendSelectors)
    case Some(b) => [Clicked(b)]
    case None => []
  }

  method TriggerSend(doc: Document, target: NodeId, log: EventLog)
    requires target < |doc|
    modifies log
    ensures log.entries == old(log.entries) + SendEffects(doc, target)
  {
    var form := Closest(doc, target, IsForm);
    var container := if form.Some? then form else ParentElement(doc, target);
    var sendButton := FindHtmlButton(doc, container, SearchLevels, SendSelectors);
    if sendButton.Some? {
      log.Append(Clicked(sendButton.value));
    }
  }

  /** A click goes to the HTMLElement hit of the lowest level that has one. */
  lemma ClickedButtonIsNearestHit(doc: Document, target: NodeId, b: NodeId)
    requires target < |doc| && Clicked(b) in SendEffects(doc, target)
    ensures SendEffects(doc, target) == [Clicked(b)]
    ensures exists k :: 0 <= k < SearchLevels && LevelHit(doc, SearchStart(doc, target), SendSelectors, k) == Some(b) &&
                        (forall j :: 0 <= j < k ==> !HtmlHit(doc, SearchStart(doc, target), SendSelectors, j))
  {
    SearchUpHtmlFound(doc, SearchStart(doc, target), SearchLevels, SendSelectors);
  }

  /** With no clickable hit within 10 levels, triggerSend does nothing. */
  lemma NoButtonNoEffect(doc: Document, target: NodeId)
    requires target < |doc|
    requires forall k :: 0 <= k < SearchLevels ==> !HtmlHit(doc, SearchStart(doc, target), SendSelectors, k)
    ensures SendEffects(doc, target) == []
  {
    NoHtmlHitGivesNone(doc, SearchStart(doc, target), SearchLevels, SendSelectors);
  }
}
