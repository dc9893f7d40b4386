/** The slice of the DOM the adapters read and write: elements with their
    attributes and ancestry, `closest` and `querySelector`, a textarea buffer,
    and an append-only log of what was dispatched. */
module Dom {
  import opened Wrappers
  import opened Strings

  /** An element's position in document order. */
  type NodeId = nat

  /** One element. `tagName` is upper-case, as the DOM reports it for HTML
      elements. `matchedSelectors` is the set of CSS selector strings (the
      adapters' button selectors and the user's custom lists) that the element
      satisfies; selector syntax is not modelled. */
  datatype Element = Element(
    tagName: string,
    attributes: map<string, string>,
    classList: seq<string>,
    isContentEditable: bool,
    isHTMLElement: bool,
    matchedSelectors: set<string>,
    parent: Option<NodeId>)
  {
    /** getAttribute(name) */
    function GetAttribute(name: string): Option<string> {
      if name in attributes then Some(attributes[name]) else None
    }

    predicate HasRole(role: string) {
      GetAttribute("role") == Some(role)
    }

    predicate HasClass(c: string) {
      c in classList
    }

    /** The `className` string: the class list joined by spaces. */
    function ClassName(): string {
      Join(classList, " ")
    }
  }

  /** A document: its elements in document order. A parent precedes its
      children, so every parent link points to a smaller position. */
  type Document = seq<Element>

  /** `n` is null or an element of `doc`. */
  predicate IsNode(doc: Document, n: Option<NodeId>) {
    n.Some? ==> n.value < |doc|
  }

  /** parentElement. A link that does not point to an earlier element is not a
      tree edge and reads as no parent. */
  function ParentElement(doc: Document, n: NodeId): (p: Option<NodeId>)
    requires n < |doc|
    ensures p.Some? ==> p.value < n
    ensures p.Some? <==> doc[n].parent.Some? && doc[n].parent.value < n
  {
    if doc[n].parent.Some? && doc[n].parent.value < n then doc[n].parent else None
  }

  /** `a` is `n` itself or one of its ancestors. */
  predicate IsInclusiveAncestor(doc: Document, a: NodeId, n: NodeId)
    requires n < |doc|
    ensures IsInclusiveAncestor(doc, a, n) ==> a <= n
    decreases n
  {
    a == n || (ParentElement(doc, n).Some? && IsInclusiveAncestor(doc, a, ParentElement(doc, n).value))
  }

  /** `d` is a proper descendant of `c`. */
  predicate IsDescendant(doc: Document, d: NodeId, c: NodeId)
    requires d < |doc|
  {
    d != c && IsInclusiveAncestor(doc, c, d)
  }

  /** closest(test): the nearest element, starting with `n` itself and walking
      up the parent chain, that passes `test`. */
  function Closest(doc: Document, n: NodeId, test: Element -> bool): (r: Option<NodeId>)
    requires n < |doc|
    ensures r.Some? ==> r.value <= n && IsInclusiveAncestor(doc, r.value, n) && test(doc[r.value])
    ensures r.Some? ==> forall a: NodeId :: IsInclusiveAncestor(doc, a, n) && r.value < a ==> !test(doc[a])
    ensures r.None? ==> forall a: NodeId :: IsInclusiveAncestor(doc, a, n) ==> !test(doc[a])
    decreases n
  {
    if test(doc[n]) then Some(n)
    else match ParentElement(doc, n)
      case None => None
      case Some(p) => Closest(doc, p, test)
  }

  /** The nearest inclusive ancestor of `n` that passes `test` exists and has
      `prop`: what `closest(test)` followed by a test of `prop` decides, stated
      over the ancestor chain. */
  ghost predicate NearestHas(doc: Document, n: NodeId, test: Element -> bool, prop: Element -> bool)
    requires n < |doc|
  {
    exists a: NodeId :: IsInclusiveAncestor(doc, a, n) && test(doc[a]) && prop(doc[a]) &&
      forall b: NodeId :: IsInclusiveAncestor(doc, b, n) && a < b ==> !test(doc[b])
  }

  lemma ClosestIsNearest(doc: Document, n: NodeId, test: Element -> bool, prop: Element -> bool)
    requires n < |doc|
    ensures (Closest(doc, n, test).Some? && prop(doc[Closest(doc, n, test).value])) <==> NearestHas(doc, n, test, prop)
  {
    var r := Closest(doc, n, test);
    if NearestHas(doc, n, test, prop) {
      var a: NodeId :| IsInclusiveAncestor(doc, a, n) && test(doc[a]) && prop(doc[a]) &&
        forall b: NodeId :: IsInclusiveAncestor(doc, b, n) && a < b ==> !test(doc[b]);
      assert r.Some?;
      assert r.value == a;
    }
  }

  predicate IsContentEditable(e: Element) {
    e.isContentEditable
  }

  /** querySelector(sel) on container `c`: the first proper descendant of `c` in
      document order that matches `sel`. */
  function QuerySelector(doc: Document, c: NodeId, sel: string): (r: Option<NodeId>)
    requires c < |doc|
    ensures r.Some? ==> r.value < |doc| && IsDescendant(doc, r.value, c) && sel in doc[r.value].matchedSelectors
    ensures r.Some? ==> forall d: NodeId :: r.value > d && IsDescendant(doc, d, c) ==> sel !in doc[d].matchedSelectors
    ensures r.None? ==> forall d: NodeId :: d < |doc| && IsDescendant(doc, d, c) ==> sel !in doc[d].matchedSelectors
  {
    ScanFrom(doc, c, sel, c + 1)
  }

  /** The first proper descendant of `c` at position `i` or later matching `sel`. */
  function ScanFrom(doc: Document, c: NodeId, sel: string, i: nat): (r: Option<NodeId>)
    requires c < |doc|
    ensures r.Some? ==> i <= r.value < |doc| && IsDescendant(doc, r.value, c) && sel in doc[r.value].matchedSelectors
    ensures r.Some? ==> forall d: NodeId :: i <= d < r.value && IsDescendant(doc, d, c) ==> sel !in doc[d].matchedSelectors
    ensures r.None? ==> forall d: NodeId :: i <= d < |doc| && IsDescendant(doc, d, c) ==> sel !in doc[d].matchedSelectors
    decreases |doc| - i
  {
    if i >= |doc| then None
    else if IsDescendant(doc, i, c) && sel in doc[i].matchedSelectors then Some(i)
    else ScanFrom(doc, c, sel, i + 1)
  }

  /** element.matches(sels.join(',')): the element satisfies one of the selectors. */
  predicate MatchesAny(doc: Document, n: NodeId, sels: seq<string>)
    requires n < |doc|
  {
    exists i :: 0 <= i < |sels| && sels[i] in doc[n].matchedSelectors
  }

  predicate IsForm(e: Element) {
    e.tagName == "FORM"
  }

  /** The parts of the browser the adapters consult besides the document. */
  datatype Window = Window(
    hasRequestSubmit: bool,      // typeof form.requestSubmit === 'function'
    execCommandSucceeds: bool,   // the result of document.execCommand('insertText', ...)
    hasSelectionRange: bool)     // a selection with at least one range exists

  datatype KeyEventType = KeyDown | KeyPress | KeyUp

  datatype MouseEventType = MouseDown | MouseUp

  /** One observable step an adapter or the dispatch controller takes. The
      synthetic events are always untrusted and bubbling. */
  datatype Effect =
    | KeyboardEventDispatched(target: NodeId, eventType: KeyEventType, key: string, shiftKey: bool)
    | InputEventDispatched(target: NodeId)
    | MouseEventDispatched(target: NodeId, mouseType: MouseEventType)
    | Clicked(target: NodeId)
    | FormRequestSubmitted(form: NodeId)
    | FormSubmitted(form: NodeId)
    | DocumentEventDispatched(name: string)
    | InsertTextCommand(text: string)
    | TextNodeInsertedAtSelection(text: string)
    | DefaultPrevented
    | PropagationStopped

  /** The order in which a synthetic key press is replayed. */
  const KeySequence: seq<KeyEventType> := [KeyDown, KeyPress, KeyUp]

  /** keydown, keypress, keyup for Enter (with or without Shift) on `target`. */
  function EnterSequence(target: NodeId, shiftKey: bool): seq<Effect> {
    seq(|KeySequence|, i requires 0 <= i < |KeySequence| =>
      KeyboardEventDispatched(target, KeySequence[i], "Enter", shiftKey))
  }

  lemma EnterSequenceShape(target: NodeId, shiftKey: bool)
    ensures EnterSequence(target, shiftKey) == [
      KeyboardEventDispatched(target, KeyDown, "Enter", shiftKey),
      KeyboardEventDispatched(target, KeyPress, "Enter", shiftKey),
      KeyboardEventDispatched(target, KeyUp, "Enter", shiftKey)]
  {
  }

  /** Everything dispatched on the page, in order. It only ever grows. */
  class EventLog {
    var entries: seq<Effect>

    constructor ()
      ensures entries == []
    {
      entries := [];
    }

    method Append(e: Effect)
      modifies this
      ensures entries == old(entries) + [e]
    {
      entries := entries + [e];
    }

    /** The `for (const eventType of events) target.dispatchEvent(...)` loop. */
    method DispatchEnterSequence(target: NodeId, shiftKey: bool)
      modifies this
      ensures entries == old(entries) + EnterSequence(target, shiftKey)
    {
      for i := 0 to |KeySequence|
        invariant entries == old(entries) + EnterSequence(target, shiftKey)[..i]
      {
        Append(KeyboardEventDispatched(target, KeySequence[i], "Enter", shiftKey));
        assert EnterSequence(target, shiftKey)[..i + 1]
          == EnterSequence(target, shiftKey)[..i] + [EnterSequence(target, shiftKey)[i]];
      }
      assert EnterSequence(target, shiftKey)[..|KeySequence|] == EnterSequence(target, shiftKey);
    }
  }

  /** `value` with the range [start, end) replaced by one line break. */
  function NewlineInserted(value: string, start: nat, end: nat): (r: string)
    requires start <= end <= |value|
    ensures |r| == |value| - (end - start) + 1
    ensures r[..start] == value[..start] && r[start] == '\n' && r[start + 1..] == value[end..]
  {
    value[..start] + "\n" + value[end..]
  }

  /** An HTMLTextAreaElement's text and selection. */
  class TextArea {
    var value: string
    var selectionStart: nat
    var selectionEnd: nat

    /** The browser keeps the selection ordered and inside the text. */
    ghost predicate Valid()
      reads this
    {
      selectionStart <= selectionEnd <= |value|
    }

    constructor (text: string, caret: nat)
      requires caret <= |text|
      ensures Valid() && value == text && selectionStart == caret && selectionEnd == caret
    {
      value := text;
      selectionStart, selectionEnd := caret, caret;
    }

    /** setRangeText('\n', selectionStart, selectionEnd, 'end'): the selection is
        replaced by a line break and the caret lands right after it. */
    method InsertLineBreak()
      requires Valid()
      modifies this
      ensures Valid()
      ensures value == NewlineInserted(old(value), old(selectionStart), old(selectionEnd))
      ensures selectionStart == selectionEnd == old(selectionStart) + 1
    {
      value := value[..selectionStart] + "\n" + value[selectionEnd..];
      selectionStart := selectionStart + 1;
      selectionEnd := selectionStart;
    }
  }

  /** The documented example: "test" with the caret at the end becomes "test\n". */
  lemma NewlineAtEnd()
    ensures NewlineInserted("test", 4, 4) == "test\n"
  {
  }
}
