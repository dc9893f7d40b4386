/** utils/adapters/default.ts: the fallback adapter for every site without a
    dedicated one. Ctrl/Cmd+Enter sends; textareas get a buffer edit. */
module DefaultAdapter {
  import opened Wrappers
  import opened Strings
  import opened Types
  import opened Dom
  import opened Lookup

  const Name := "default"
  const Listener := DocumentTarget
  const SendKey := CtrlEnterSends

  /** Words that mark a rich-text box as a message composer. */
  const Keywords: seq<string> := [
    "message", "chat", "compose", "reply", "comment", "post", "write", "prompt",
    "\U{30E1}\U{30C3}\U{30BB}\U{30FC}\U{30B8}", "\U{30C1}\U{30E3}\U{30C3}\U{30C8}",
    "\U{30B3}\U{30E1}\U{30F3}\U{30C8}"]

  /** The send buttons tried at each level, in priority order. */
  const SendSelectors: seq<string> := [
    "button[type=\"submit\"]",
    "button[aria-label*=\"Send\"]",
    "button[aria-label*=\"\U{9001}\U{4FE1}\"]",
    "[data-testid*=\"send\"]",
    "[data-testid*=\"submit\"]",
    "button[class*=\"send\"]",
    "div[role=\"button\"][aria-label*=\"\U{9001}\U{4FE1}\"]",
    "div[role=\"button\"][aria-label*=\"Send\"]",
    "div[role=\"button\"][class*=\"send\"]",
    "button[title*=\"Send\"]",
    "button[title*=\"\U{9001}\U{4FE1}\"]",
    "div[role=\"button\"][aria-label=\"Send message\"]",
    "div[role=\"button\"][aria-label=\"\U{30E1}\U{30C3}\U{30BB}\U{30FC}\U{30B8}\U{3092}\U{9001}\U{4FE1}\"]",
    "button[aria-label=\"\U{30E1}\U{30C3}\U{30BB}\U{30FC}\U{30B8}\U{3092}\U{9001}\U{4FE1}\"]",
    "button[jsname=\"SoqoBf\"]",
    "div[aria-label=\"Press Enter to send\"]",
    "div[aria-label=\"Send\"]"]

  /** How many containers the button search inspects. */
  const SearchLevels := 7

  predicate Matches(hostname: string) {
    true
  }

  /** The Google properties the fallback never intercepts. */
  predicate IsBlockedHost(hostname: string) {
    hostname == "docs.google.com" || hostname == "mail.google.com"
  }

  /** `text` contains `keyword`, compared case-insensitively. */
  predicate ContainsIgnoringCase(text: Option<string>, keyword: string) {
    text.Some? && Includes(ToLower(text.value), ToLower(keyword))
  }

  /** One of the keywords occurs in the element's aria-label, id or (string)
      className. */
  predicate HasKeyword(e: Element) {
    exists i :: 0 <= i < |Keywords| &&
      (ContainsIgnoringCase(e.GetAttribute("aria-label"), Keywords[i]) ||
       ContainsIgnoringCase(e.GetAttribute("id"), Keywords[i]) ||
       ContainsIgnoringCase(if e.isHTMLElement then Some(e.ClassName()) else None, Keywords[i]))
  }

  /** The built-in test, order aside: no single-line input or search box, and
      either a textarea or a contenteditable that looks like a composer. */
  predicate LooksLikeComposer(e: Element) {
    e.tagName != "INPUT" && !e.HasRole("searchbox") && e.GetAttribute("aria-multiline") != Some("false") &&
    (e.tagName == "TEXTAREA" || (e.isContentEditable && (e.HasRole("textbox") || HasKeyword(e))))
  }

  /** isEditable. The contract flattens the ordered checks: exclusion beats
      everything but the host block, a custom target beats the built-in test. */
  function IsEditable(doc: Document, element: Option<NodeId>, hostname: string, config: Option<DomainConfig>): (editable: bool)
    requires IsNode(doc, element)
    ensures editable <==>
      element.Some? && !IsBlockedHost(hostname) && !Excluded(doc, element.value, config) &&
      (Targeted(doc, element.value, config) || LooksLikeComposer(doc[element.value]))
  {
    if element.None? then false
    else
      var n := element.value;
      var e := doc[n];
      if hostname == "docs.google.com" then false
      else if hostname == "mail.google.com" then false
      else if config.Some? && config.value.customExcludes.Some? && MatchesAny(doc, n, config.value.customExcludes.value) then false
      else if config.Some? && config.value.customTargets.Some? && MatchesAny(doc, n, config.value.customTargets.value) then true
      else if e.tagName == "INPUT" then false
      else
        var role := e.GetAttribute("role");
        if role == Some("searchbox") then false
        else if e.GetAttribute("aria-multiline") == Some("false") then false
        else if e.tagName == "TEXTAREA" then true
        else if e.isContentEditable then role == Some("textbox") || HasKeyword(e)
        else false
  }

  /** What insertNewline dispatches: an input event after a textarea edit; for
      a contenteditable the insertText command and, when that fails and a
      selection range exists, the manual text-node insertion and an input event. */
  function NewlineEffects(doc: Document, target: NodeId, win: Window): seq<Effect>
    requires target < |doc|
  {
    if doc[target].tagName == "TEXTAREA" then [InputEventDispatched(target)]
    else if doc[target].isContentEditable then
      [InsertTextCommand("\n")] +
      (if !win.execCommandSucceeds && win.hasSelectionRange
       then [TextNodeInsertedAtSelection("\n"), InputEventDispatched(target)] else [])
    else []
  }

  method InsertNewline(doc: Document, target: NodeId, win: Window, ta: TextArea, log: EventLog)
    requires target < |doc| && ta.Valid()
    modifies ta, log
    ensures ta.Valid()
    ensures doc[target].tagName == "TEXTAREA" ==>
      ta.value == NewlineInserted(old(ta.value), old(ta.selectionStart), old(ta.selectionEnd)) &&
      ta.selectionStart == ta.selectionEnd == old(ta.selectionStart) + 1
    ensures doc[target].tagName != "TEXTAREA" ==> unchanged(ta)
    ensures log.entries == old(log.entries) + NewlineEffects(doc, target, win)
  {
    if doc[target].tagName == "TEXTAREA" {
      ta.InsertLineBreak();
      log.Append(InputEventDispatched(target));
    } else if doc[target].isContentEditable {
      log.Append(InsertTextCommand("\n"));
      if !win.execCommandSucceeds && win.hasSelectionRange {
        log.Append(TextNodeInsertedAtSelection("\n"));
        log.Append(InputEventDispatched(target));
      }
    }
  }

  /** What triggerSend does: submit the enclosing form; else click the button the
      7-level search finds; else replay Enter on the target. */
  function SendEffects(doc: Document, target: NodeId, win: Window): seq<Effect>
    requires target < |doc|
  {
    match Closest(doc, target, IsForm)
    case Some(form) => if win.hasRequestSubmit then [FormRequestSubmitted(form)] else [FormSubmitted(form)]
    case None =>
      var button := SearchUp(doc, ParentElement(doc, target), SearchLevels, SendSelectors);
      if button.Some? && doc[button.value].isHTMLElement then [Clicked(button.value)]
      else EnterSequence(target, false)
  }

  method TriggerSend(doc: Document, target: NodeId, win: Window, log: EventLog)
    requires target < |doc|
    modifies log
    ensures log.entries == old(log.entries) + SendEffects(doc, target, win)
  {
    var form := Closest(doc, target, IsForm);
    if form.Some? {
      if win.hasRequestSubmit {
        log.Append(FormRequestSubmitted(form.value));
        return;
      }
      log.Append(FormSubmitted(form.value));
      return;
    }
    var button := FindFirstHit(doc, ParentElement(doc, target), SearchLevels, SendSelectors);
    if button.Some? && doc[button.value].isHTMLElement {
      log.Append(Clicked(button.value));
    } else {
      log.DispatchEnterSequence(target, false);
    }
  }

  /** A form ends triggerSend: exactly one submission, no button search. */
  lemma FormIsSubmitted(doc: Document, target: NodeId, win: Window, form: NodeId)
    requires target < |doc| && Closest(doc, target, IsForm) == Some(form)
    ensures doc[form].tagName == "FORM" && IsInclusiveAncestor(doc, form, target)
    ensures SendEffects(doc, target, win) == if win.hasRequestSubmit then [FormRequestSubmitted(form)] else [FormSubmitted(form)]
  {
  }

  /** A click goes to the hit of the lowest of at most 7 containers above the
      target that has one, with no form around the target. */
  lemma ClickedButtonIsNearestHit(doc: Document, target: NodeId, win: Window, b: NodeId)
    requires target < |doc| && Clicked(b) in SendEffects(doc, target, win)
    ensures SendEffects(doc, target, win) == [Clicked(b)]
    ensures Closest(doc, target, IsForm).None? && b < |doc| && doc[b].isHTMLElement
    ensures exists k :: 0 <= k < SearchLevels && LevelHit(doc, ParentElement(doc, target), SendSelectors, k) == Some(b) &&
                        (forall j :: 0 <= j < k ==> LevelHit(doc, ParentElement(doc, target), SendSelectors, j).None?)
  {
    EnterSequenceShape(target, false);
    if SearchUp(doc, ParentElement(doc, target), SearchLevels, SendSelectors).Some? {
      SearchUpFound(doc, ParentElement(doc, target), SearchLevels, SendSelectors);
    }
  }

  /** Without a form and without a selector hit in the 7 containers, or when
      the first hit is not an HTMLElement, Enter is replayed on the target. */
  lemma FallbackReplaysEnter(doc: Document, target: NodeId, win: Window)
    requires target < |doc| && Closest(doc, target, IsForm).None?
    requires forall k :: 0 <= k < SearchLevels ==>
      (!HtmlHit(doc, ParentElement(doc, target), SendSelectors, k) ||
       exists j :: 0 <= j < k && LevelHit(doc, ParentElement(doc, target), SendSelectors, j).Some?)
    ensures SendEffects(doc, target, win) == EnterSequence(target, false)
  {
    var c := ParentElement(doc, target);
    var button := SearchUp(doc, c, SearchLevels, SendSelectors);
    if button.Some? {
      SearchUpFound(doc, c, SearchLevels, SendSelectors);
      var k :| 0 <= k < SearchLevels && LevelHit(doc, c, SendSelectors, k) == button &&
        (forall j :: 0 <= j < k ==> LevelHit(doc, c, SendSelectors, j).None?);
      assert !HtmlHit(doc, c, SendSelectors, k);
    }
  }
}
