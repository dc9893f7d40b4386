/** utils/adapters/chatgpt.ts: chatgpt.com and openai.com, where Enter sends. */
module ChatGptAdapter {
  import opened Wrappers
  import opened Strings
  import opened Types
  import opened Dom
  import opened Lookup

  const Name := "chatgpt"
  const Listener := DocumentTarget
  const SendKey := EnterSends

  /** The send buttons tried at each level, in priority order. */
  const SendSelectors: seq<string> := [
    "button[data-testid=\"send-button\"]",
    "button[aria-label=\"Send prompt\"]",
    "button[aria-label=\"\U{30D7}\U{30ED}\U{30F3}\U{30D7}\U{30C8}\U{3092}\U{9001}\U{4FE1}\U{3059}\U{308B}\"]",
    "button[aria-label*=\"Send\"]",
    "button[aria-label*=\"\U{9001}\U{4FE1}\"]"]

  const SearchLevels := 10

  predicate Matches(hostname: string) {
    Includes(hostname, "chatgpt.com") || Includes(hostname, "openai.com")
  }

  predicate IsProseMirror(e: Element) {
    e.HasClass("ProseMirror")
  }

  /** The prompt box itself: id prompt-textarea or role textbox. */
  predicate IsPromptBox(e: Element) {
    e.GetAttribute("id") == Some("prompt-textarea") || e.HasRole("textbox")
  }

  /** isEditable: exclusions first, then a textarea, then a contenteditable that
      is the prompt box or sits inside a contenteditable ProseMirror editor.
      customTargets plays no part. */
  function IsEditable(doc: Document, element: Option<NodeId>, config: Option<DomainConfig>): (editable: bool)
    requires IsNode(doc, element)
    ensures editable <==>
      element.Some? && !Excluded(doc, element.value, config) &&
      (doc[element.value].tagName == "TEXTAREA" ||
       (doc[element.value].isContentEditable &&
        (IsPromptBox(doc[element.value]) || NearestHas(doc, element.value, IsProseMirror, IsContentEditable))))
  {
    if element.None? then false
    else
      var n := element.value;
      if config.Some? && config.value.customExcludes.Some? && MatchesAny(doc, n, config.value.customExcludes.value) then false
      else if doc[n].tagName == "TEXTAREA" then true
      else if doc[n].isContentEditable then
        if doc[n].GetAttribute("id") == Some("prompt-textarea") || doc[n].GetAttribute("role") == Some("textbox") then true
        else
          var editor := Closest(doc, n, IsProseMirror);
          ClosestIsNearest(doc, n, IsProseMirror, IsContentEditable);
          editor.Some? && doc[editor.value].isContentEditable
      else false
  }

  /** customTargets never changes the verdict. */
  lemma IgnoresCustomTargets(doc: Document, element: Option<NodeId>, config: DomainConfig, targets: Option<seq<string>>)
    requires IsNode(doc, element)
    ensures IsEditable(doc, element, Some(config)) == IsEditable(doc, element, Some(config.(customTargets := targets)))
  {
  }

  /** What insertNewline dispatches: one input event after the textarea edit,
      otherwise Shift+Enter keydown, keypress, keyup. */
  function NewlineEffects(doc: Document, target: NodeId): seq<Effect>
    requires target < |doc|
  {
    if doc[target].tagName == "TEXTAREA" then [InputEventDispatched(target)] else EnterSequence(target, true)
  }

  method InsertNewline(doc: Document, target: NodeId, ta: TextArea, log: EventLog)
    requires target < |doc| && ta.Valid()
    modifies ta, log
    ensures ta.Valid()
    ensures doc[target].tagName == "TEXTAREA" ==>
      ta.value == NewlineInserted(old(ta.value), old(ta.selectionStart), old(ta.selectionEnd)) &&
      ta.selectionStart == ta.selectionEnd == old(ta.selectionStart) + 1
    ensures doc[target].tagName != "TEXTAREA" ==> unchanged(ta)
    ensures log.entries == old(log.entries) + NewlineEffects(doc, target)
  {
    if doc[target].tagName == "TEXTAREA" {
      ta.InsertLineBreak();
      log.Append(InputEventDispatched(target));
    } else {
      log.DispatchEnterSequence(target, true);
    }
  }

  /** The first container searched: the enclosing form, else the parent. */
  function SearchStart(doc: Document, target: NodeId): (start: Option<NodeId>)
    requires target < |doc|
    ensures IsNode(doc, start)
  {
    var form := Closest(doc, target, IsForm);
    if form.Some? then form else ParentElement(doc, target)
  }

  /** triggerSend: click the button the 10-level climb finds, else
      requestSubmit on the enclosing form when the browser has it. */
  function SendEffects(doc: Document, target: NodeId, win: Window): seq<Effect>
    requires target < |doc|
  {
    match SearchUpHtml(doc, SearchStart(doc, target), SearchLevels, SendSelectors)
    case Some(b) => [Clicked(b)]
    case None =>
      var form := Closest(doc, target, IsForm);
      if form.Some? && win.hasRequestSubmit then [FormRequestSubmitted(form.value)] else []
  }

  method TriggerSend(doc: Document, target: NodeId, win: Window, log: EventLog)
    requires target < |doc|
    modifies log
    ensures log.entries == old(log.entries) + SendEffects(doc, target, win)
  {
    var form := Closest(doc, target, IsForm);
    var container := if form.Some? then form else ParentElement(doc, target);
    var sendButton := FindHtmlButton(doc, container, SearchLevels, SendSelectors);
    if sendButton.Some? {
      log.Append(Clicked(sendButton.value));
      return;
    }
    if form.Some? && win.hasRequestSubmit {
      log.Append(FormRequestSubmitted(form.value));
    }
  }

  /** A click goes to the HTMLElement hit of the lowest of at most 10 levels
      that has one, and nothing else happens. */
  lemma ClickedButtonIsNearestHit(doc: Document, target: NodeId, win: Window, b: NodeId)
    requires target < |doc| && Clicked(b) in SendEffects(doc, target, win)
    ensures SendEffects(doc, target, win) == [Clicked(b)]
    ensures exists k :: 0 <= k < SearchLevels && LevelHit(doc, SearchStart(doc, target), SendSelectors, k) == Some(b) &&
                        (forall j :: 0 <= j < k ==> !HtmlHit(doc, SearchStart(doc, target), SendSelectors, j))
  {
    SearchUpHtmlFound(doc, SearchStart(doc, target), SearchLevels, SendSelectors);
  }

  /** Without a clickable hit on any level the form is submitted if possible;
      with no form nothing happens. */
  lemma NoButtonSubmitsForm(doc: Document, target: NodeId, win: Window)
    requires target < |doc|
    requires forall k :: 0 <= k < SearchLevels ==> !HtmlHit(doc, SearchStart(doc, target), SendSelectors, k)
    ensures Closest(doc, target, IsForm).None? ==> SendEffects(doc, target, win) == []
    ensures Closest(doc, target, IsForm).Some? ==>
      SendEffects(doc, target, win) == if win.hasRequestSubmit then [FormRequestSubmitted(Closest(doc, target, IsForm).value)] else []
  {
    NoHtmlHitGivesNone(doc, SearchStart(doc, target), SearchLevels, SendSelectors);
  }
}
