/** utils/adapters/teams.ts: Microsoft Teams (work and personal). */
module TeamsAdapter {
  import opened Wrappers
  import opened Strings
  import opened Types
  import opened Dom
  import opened Lookup

  const Name := "teams"
  const Listener := DocumentTarget
  const SendKey := EnterSends

  const SendSelectors: seq<string> := [
    "button[aria-label=\"Send\"]",
    "button[aria-label=\"\U{9001}\U{4FE1}\"]",
    "button[data-tid=\"newMessageCommands-send\"]",
    "button[aria-label*=\"Send\"]",
    "button[aria-label*=\"\U{9001}\U{4FE1}\"]"]

  const SearchLevels := 10

  predicate Matches(hostname: string) {
    Includes(hostname, "teams.microsoft.com") || Includes(hostname, "teams.live.com")
  }

  predicate IsTextbox(e: Element) {
    e.HasRole("textbox")
  }

  /** isEditable: a contenteditable textbox, or an element whose closest
      role=textbox ancestor is contenteditable; the first test is the special
      case of the second. */
  function IsEditable(doc: Document, element: Option<NodeId>): (editable: bool)
    requires IsNode(doc, element)
    ensures editable <==> element.Some? && NearestHas(doc, element.value, IsTextbox, IsContentEditable)
  {
    if element.None? then false
    else
      var n := element.value;
      ClosestIsNearest(doc, n, IsTextbox, IsContentEditable);
      if doc[n].isContentEditable && doc[n].GetAttribute("role") == Some("textbox") then true
      else
        var textbox := Closest(doc, n, IsTextbox);
        textbox.Some? && doc[textbox.value].isContentEditable
  }

  method InsertNewline(target: NodeId, log: EventLog)
    modifies log
    ensures log.entries == old(log.entries) + EnterSequence(target, true)
  {
    log.DispatchEnterSequence(target, true);
  }

  /** triggerSend: click the button of the 10-level climb, else replay plain
      Enter on the target. */
  function SendEffects(doc: Document, target: NodeId): seq<Effect>
    requires target < |doc|
  {
    match SearchUpHtml(doc, ParentElement(doc, target), SearchLevels, SendSelectors)
    case Some(b) => [Clicked(b)]
    case None => EnterSequence(target, false)
  }

  method TriggerSend(doc: Document, target: NodeId, log: EventLog)
    requires target < |doc|
    modifies log
    ensures log.entries == old(log.entries) + SendEffects(doc, target)
  {
    var sendButton := FindHtmlButton(doc, ParentElement(doc, target), SearchLevels, SendSelectors);
    if sendButton.Some? {
      log.Append(Clicked(sendButton.value));
      return;
    }
    log.DispatchEnterSequence(target, false);
  }

  /** A click goes to the HTMLElement hit of the lowest level that has one. */
  lemma ClickedButtonIsNearestHit(doc: Document, target: NodeId, b: NodeId)
    requires target < |doc| && Clicked(b) in SendEffects(doc, target)
    ensures SendEffects(doc, target) == [Clicked(b)]
    ensures exists k :: 0 <= k < SearchLevels && LevelHit(doc, ParentElement(doc, target), SendSelectors, k) == Some(b) &&
                        (forall j :: 0 <= j < k ==> !HtmlHit(doc, ParentElement(doc, target), SendSelectors, j))
  {
    EnterSequenceShape(target, false);
    SearchUpHtmlFound(doc, ParentElement(doc, target), SearchLevels, SendSelectors);
  }

  /** With no clickable hit within 10 levels, plain Enter is replayed. */
  lemma NoButtonReplaysEnter(doc: Document, target: NodeId)
    requires target < |doc|
    requires forall k :: 0 <= k < SearchLevels ==> !HtmlHit(doc, ParentElement(doc, target), SendSelectors, k)
    ensures SendEffects(doc, target) == EnterSequence(target, false)
  {
    NoHtmlHitGivesNone(doc, ParentElement(doc, target), SearchLevels, SendSelectors);
  }
}
