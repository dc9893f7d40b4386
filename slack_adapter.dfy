/** utils/adapters/slack.ts: slack.com, a Quill editor. */
module SlackAdapter {
  import opened Wrappers
  import opened Strings
  import opened Types
  import opened Dom
  import opened Lookup

  const Name := "slack"
  const Listener := DocumentTarget
  const SendKey := EnterSends

  const SendButtonSelector := "button[data-qa=\"texty_send_button\"]"

  const SearchLevels := 10

  predicate Matches(hostname: string) {
    Includes(hostname, "slack.com")
  }

  predicate IsQuillEditor(e: Element) {
    e.HasClass("ql-editor")
  }

  /** isEditable: a contenteditable `.ql-editor`, or an element whose closest
      `.ql-editor` is contenteditable; the first test is the special case of
      the second. */
  function IsEditable(doc: Document, element: Option<NodeId>): (editable: bool)
    requires IsNode(doc, element)
    ensures editable <==> element.Some? && NearestHas(doc, element.value, IsQuillEditor, IsContentEditable)
  {
    if element.None? then false
    else
      var n := element.value;
      ClosestIsNearest(doc, n, IsQuillEditor, IsContentEditable);
      if doc[n].HasClass("ql-editor") && doc[n].isContentEditable then true
      else
        var editor := Closest(doc, n, IsQuillEditor);
        editor.Some? && doc[editor.value].isContentEditable
  }

  method InsertNewline(target: NodeId, log: EventLog)
    modifies log
    ensures log.entries == old(log.entries) + EnterSequence(target, true)
  {
    log.DispatchEnterSequence(target, true);
  }

  predicate IsTextyContainer(e: Element) {
    e.HasClass("c-texty_input_unstyled__container")
  }

  predicate IsMessageKitEditor(e: Element) {
    e.HasClass("c-message_kit__editor")
  }

  predicate IsMessageEditor(e: Element) {
    e.GetAttribute("data-qa") == Some("message_editor")
  }

  /** The editor container: the first of the three container kinds, in that
      order, that has a closest match. */
  function EditorContainer(doc: Document, target: NodeId): (c: Option<NodeId>)
    requires target < |doc|
    ensures IsNode(doc, c)
    ensures c.Some? ==> IsInclusiveAncestor(doc, c.value, target)
    ensures c.Some? ==>
      (IsTextyContainer(doc[c.value]) || IsMessageKitEditor(doc[c.value]) || IsMessageEditor(doc[c.value]))
    ensures c.None? <==>
      Closest(doc, target, IsTextyContainer).None? && Closest(doc, target, IsMessageKitEditor).None? &&
      Closest(doc, target, IsMessageEditor).None?
    // the texty container wins over the message_kit editor, which wins over the message editor
    ensures Closest(doc, target, IsTextyContainer).Some? ==> c == Closest(doc, target, IsTextyContainer)
    ensures Closest(doc, target, IsTextyContainer).None? && Closest(doc, target, IsMessageKitEditor).Some? ==>
      c == Closest(doc, target, IsMessageKitEditor)
    ensures Closest(doc, target, IsTextyContainer).None? && Closest(doc, target, IsMessageKitEditor).None? ==>
      c == Closest(doc, target, IsMessageEditor)
  {
    var a := Closest(doc, target, IsTextyContainer);
    if a.Some? then a
    else
      var b := Closest(doc, target, IsMessageKitEditor);
      if b.Some? then b else Closest(doc, target, IsMessageEditor)
  }

  /** The send button found through the container: in the container, or else
      in the container's parent. */
  function ContainerButton(doc: Document, target: NodeId): (b: Option<NodeId>)
    requires target < |doc|
    ensures IsNode(doc, b)
    ensures b.Some? ==> EditorContainer(doc, target).Some? && SendButtonSelector in doc[b.value].matchedSelectors
    // the container's own first match wins
    ensures var c := EditorContainer(doc, target);
      c.Some? && QuerySelector(doc, c.value, SendButtonSelector).Some? ==>
        b == QuerySelector(doc, c.value, SendButtonSelector)
    // the parent is searched only when the container holds no send button
    ensures var c := EditorContainer(doc, target);
      c.Some? && QuerySelector(doc, c.value, SendButtonSelector).None? ==>
        b == (if ParentElement(doc, c.value).Some? then QuerySelector(doc, ParentElement(doc, c.value).value, SendButtonSelector) else None)
    // a button outside the container is a descendant of its parent, with none inside the container
    ensures var c := EditorContainer(doc, target);
      b.Some? && !IsDescendant(doc, b.value, c.value) ==>
        ParentElement(doc, c.value).Some? && IsDescendant(doc, b.value, ParentElement(doc, c.value).value) &&
        forall d: NodeId :: d < |doc| && IsDescendant(doc, d, c.value) ==> SendButtonSelector !in doc[d].matchedSelectors
  {
    match EditorContainer(doc, target)
    case None => None
    case Some(c) =>
      var inside := QuerySelector(doc, c, SendButtonSelector);
      if inside.None? && ParentElement(doc, c).Some? then QuerySelector(doc, ParentElement(doc, c).value, SendButtonSelector)
      else inside
  }

  /** triggerSend: click the container's button if it is an HTMLElement; else
      click the first HTMLElement send button of the 10-level climb; else do
      nothing. */
  function SendEffects(doc: Document, target: NodeId): seq<Effect>
    requires target < |doc|
  {
    var b := ContainerButton(doc, target);
    if b.Some? && doc[b.value].isHTMLElement then [Clicked(b.value)]
    else match SearchUpHtml(doc, ParentElement(doc, target), SearchLevels, [SendButtonSelector])
      case Some(x) => [Clicked(x)]
      case None => []
  }

  method TriggerSend(doc: Document, target: NodeId, log: EventLog)
    requires target < |doc|
    modifies log
    ensures log.entries == old(log.entries) + SendEffects(doc, target)
  {
    var container := EditorContainer(doc, target);
    if container.Some? {
      var sendButton := QuerySelector(doc, container.value, SendButtonSelector);
      var parent := ParentElement(doc, container.value);
      if sendButton.None? && parent.Some? {
        sendButton := QuerySelector(doc, parent.value, SendButtonSelector);
      }
      if sendButton.Some? && doc[sendButton.value].isHTMLElement {
        log.Append(Clicked(sendButton.value));
        return;
      }
    }
    var climbed := FindHtmlButton(doc, ParentElement(doc, target), SearchLevels, [SendButtonSelector]);
    if climbed.Some? {
      log.Append(Clicked(climbed.value));
    }
  }

  /** triggerSend clicks at most one element, and that element carries the
      send-button selector. */
  lemma AtMostOneClick(doc: Document, target: NodeId)
    requires target < |doc|
    ensures |SendEffects(doc, target)| <= 1
    ensures forall i :: 0 <= i < |SendEffects(doc, target)| ==>
      SendEffects(doc, target)[i].Clicked? && SendEffects(doc, target)[i].target < |doc| &&
      doc[SendEffects(doc, target)[i].target].isHTMLElement &&
      SendButtonSelector in doc[SendEffects(doc, target)[i].target].matchedSelectors
  {
    var b := ContainerButton(doc, target);
    if !(b.Some? && doc[b.value].isHTMLElement) {
      var c := ParentElement(doc, target);
      var x := SearchUpHtml(doc, c, SearchLevels, [SendButtonSelector]);
      if x.Some? {
        SearchUpHtmlFound(doc, c, SearchLevels, [SendButtonSelector]);
        var k :| 0 <= k < SearchLevels && LevelHit(doc, c, [SendButtonSelector], k) == x &&
          (forall j :: 0 <= j < k ==> !HtmlHit(doc, c, [SendButtonSelector], j));
        var a := Up(doc, c, k).value;
        assert FirstQuery(doc, a, [SendButtonSelector]) == x;
        FirstQuerySpec(doc, a, [SendButtonSelector], 0);
      }
    }
  }

  /** A clickable button found through the editor container is clicked, and
      nothing else happens, even when the climb would find a nearer one. */
  lemma ContainerButtonWins(doc: Document, target: NodeId)
    requires target < |doc|
    requires ContainerButton(doc, target).Some? && doc[ContainerButton(doc, target).value].isHTMLElement
    ensures SendEffects(doc, target) == [Clicked(ContainerButton(doc, target).value)]
  {
  }

  /** Without a clickable button through the container, a click is the only
      effect and goes to the HTMLElement hit of the lowest of 10 levels. */
  lemma ClimbClickIsNearestHit(doc: Document, target: NodeId, b: NodeId)
    requires target < |doc|
    requires !(ContainerButton(doc, target).Some? && doc[ContainerButton(doc, target).value].isHTMLElement)
    requires Clicked(b) in SendEffects(doc, target)
    ensures SendEffects(doc, target) == [Clicked(b)]
    ensures exists k :: 0 <= k < SearchLevels && LevelHit(doc, ParentElement(doc, target), [SendButtonSelector], k) == Some(b) &&
                        (forall j :: 0 <= j < k ==> !HtmlHit(doc, ParentElement(doc, target), [SendButtonSelector], j))
  {
    SearchUpHtmlFound(doc, ParentElement(doc, target), SearchLevels, [SendButtonSelector]);
  }

  /** Without a clickable send button through the editor container, whether
      or not there is one, and without one within 10 levels, triggerSend does
      nothing. */
  lemma NoButtonNoEffect(doc: Document, target: NodeId)
    requires target < |doc|
    requires !(ContainerButton(doc, target).Some? && doc[ContainerButton(doc, target).value].isHTMLElement)
    requires forall k :: 0 <= k < SearchLevels ==> !HtmlHit(doc, ParentElement(doc, target), [SendButtonSelector], k)
    ensures SendEffects(doc, target) == []
  {
    NoHtmlHitGivesNone(doc, ParentElement(doc, target), SearchLevels, [SendButtonSelector]);
  }
}
