/** The button lookups the adapters share: try an ordered list of selectors in
    one container, and climb a bounded number of ancestor levels doing that. */
module Lookup {
  import opened Wrappers
  import opened Dom
  import opened Types

  /** The element matches the site's customExcludes list. */
  predicate Excluded(doc: Document, n: NodeId, config: Option<DomainConfig>)
    requires n < |doc|
  {
    config.Some? && config.value.customExcludes.Some? && MatchesAny(doc, n, config.value.customExcludes.value)
  }

  /** The element matches the site's customTargets list. */
  predicate Targeted(doc: Document, n: NodeId, config: Option<DomainConfig>)
    requires n < |doc|
  {
    config.Some? && config.value.customTargets.Some? && MatchesAny(doc, n, config.value.customTargets.value)
  }

  /** `c.querySelector(sels[from]) || c.querySelector(sels[from + 1]) || ...`:
      the hit of the first selector, in list order, that has one. */
  function FirstQuery(doc: Document, c: NodeId, sels: seq<string>, from: nat := 0): (r: Option<NodeId>)
    requires c < |doc|
    ensures IsNode(doc, r)
    decreases |sels| - from
  {
    if from >= |sels| then None
    else match QuerySelector(doc, c, sels[from])
      case Some(b) => Some(b)
      case None => FirstQuery(doc, c, sels, from + 1)
  }

  /** FirstQuery returns the hit of the first selector from `from` on that has
      one, and null only when none of them has a hit. */
  lemma {:induction false} FirstQuerySpec(doc: Document, c: NodeId, sels: seq<string>, from: nat)
    requires c < |doc|
    ensures FirstQuery(doc, c, sels, from).Some? ==>
      exists i :: from <= i < |sels| && QuerySelector(doc, c, sels[i]) == FirstQuery(doc, c, sels, from) &&
        forall j :: from <= j < i ==> QuerySelector(doc, c, sels[j]).None?
    ensures FirstQuery(doc, c, sels, from).None? ==>
      forall j :: from <= j < |sels| ==> QuerySelector(doc, c, sels[j]).None?
    decreases |sels| - from
  {
    if from < |sels| && QuerySelector(doc, c, sels[from]).None? {
      FirstQuerySpec(doc, c, sels, from + 1);
      if FirstQuery(doc, c, sels, from + 1).Some? {
        var i :| from + 1 <= i < |sels| && QuerySelector(doc, c, sels[i]) == FirstQuery(doc, c, sels, from + 1) &&
          forall j :: from + 1 <= j < i ==> QuerySelector(doc, c, sels[j]).None?;
        assert forall j :: from <= j < i ==> QuerySelector(doc, c, sels[j]).None?;
      }
    }
  }

  /** The container `k` parent steps above `c` (null once the chain runs out). */
  function Up(doc: Document, c: Option<NodeId>, k: nat): (r: Option<NodeId>)
    requires IsNode(doc, c)
    ensures IsNode(doc, r)
    decreases k
  {
    if k == 0 || c.None? then c else Up(doc, ParentElement(doc, c.value), k - 1)
  }

  /** What the selector list finds in the container `k` levels above `c`. */
  function LevelHit(doc: Document, c: Option<NodeId>, sels: seq<string>, k: nat): (r: Option<NodeId>)
    requires IsNode(doc, c)
    ensures IsNode(doc, r)
  {
    match Up(doc, c, k)
    case None => None
    case Some(a) => FirstQuery(doc, a, sels)
  }

  /** Level `k` yields a hit that is an HTMLElement (a clickable button). */
  predicate HtmlHit(doc: Document, c: Option<NodeId>, sels: seq<string>, k: nat)
    requires IsNode(doc, c)
  {
    LevelHit(doc, c, sels, k).Some? && doc[LevelHit(doc, c, sels, k).value].isHTMLElement
  }

  /** The default adapter's climb: at most `levels` containers starting with
      `c`; the first container where any selector hits ends the search, whatever
      kind of element the hit is. */
  function SearchUp(doc: Document, c: Option<NodeId>, levels: nat, sels: seq<string>): (r: Option<NodeId>)
    requires IsNode(doc, c)
    ensures IsNode(doc, r)
    decreases levels
  {
    if levels == 0 || c.None? then None
    else match FirstQuery(doc, c.value, sels)
      case Some(b) => Some(b)
      case None => SearchUp(doc, ParentElement(doc, c.value), levels - 1, sels)
  }

  /** The site adapters' climb: at most `levels` containers starting with `c`;
      a level ends the search only when its hit is an HTMLElement, otherwise the
      climb goes on to the parent. */
  function SearchUpHtml(doc: Document, c: Option<NodeId>, levels: nat, sels: seq<string>): (r: Option<NodeId>)
    requires IsNode(doc, c)
    ensures IsNode(doc, r)
    ensures r.Some? ==> doc[r.value].isHTMLElement
    decreases levels
  {
    if levels == 0 || c.None? then None
    else
      var hit := FirstQuery(doc, c.value, sels);
      if hit.Some? && doc[hit.value].isHTMLElement then hit
      else SearchUpHtml(doc, ParentElement(doc, c.value), levels - 1, sels)
  }

  lemma UpFromParent(doc: Document, n: NodeId, k: nat)
    requires n < |doc|
    ensures Up(doc, Some(n), k + 1) == Up(doc, ParentElement(doc, n), k)
  {
  }

  lemma {:induction false} UpFromNull(doc: Document, k: nat)
    ensures Up(doc, None, k) == None
  {
  }

  /** SearchUp returns the hit of the lowest level that has one, and that
      level is below the bound. */
  lemma {:induction false} SearchUpFound(doc: Document, c: Option<NodeId>, levels: nat, sels: seq<string>)
    requires IsNode(doc, c)
    requires SearchUp(doc, c, levels, sels).Some?
    ensures exists k :: 0 <= k < levels && LevelHit(doc, c, sels, k) == SearchUp(doc, c, levels, sels) &&
                        (forall j :: 0 <= j < k ==> LevelHit(doc, c, sels, j).None?)
    decreases levels
  {
    var n := c.value;
    var p := ParentElement(doc, n);
    assert LevelHit(doc, c, sels, 0) == FirstQuery(doc, n, sels);
    if FirstQuery(doc, n, sels).None? {
      assert SearchUp(doc, c, levels, sels) == SearchUp(doc, p, levels - 1, sels);
      SearchUpFound(doc, p, levels - 1, sels);
      var k :| 0 <= k < levels - 1 && LevelHit(doc, p, sels, k) == SearchUp(doc, p, levels - 1, sels) &&
        (forall j :: 0 <= j < k ==> LevelHit(doc, p, sels, j).None?);
      LevelFromParent(doc, n, sels, k);
      forall j | 0 < j < k + 1 ensures LevelHit(doc, c, sels, j).None? {
        LevelFromParent(doc, n, sels, j - 1);
      }
      assert 0 <= k + 1 < levels && LevelHit(doc, c, sels, k + 1) == SearchUp(doc, c, levels, sels);
    }
  }

  /** When SearchUp returns null, no level below the bound has a hit. */
  lemma {:induction false} SearchUpNone(doc: Document, c: Option<NodeId>, levels: nat, sels: seq<string>)
    requires IsNode(doc, c)
    requires SearchUp(doc, c, levels, sels).None?
    ensures forall k :: 0 <= k < levels ==> LevelHit(doc, c, sels, k).None?
    decreases levels
  {
    if levels == 0 {
    } else if c.None? {
      forall k | 0 <= k < levels ensures LevelHit(doc, c, sels, k).None? {
        UpFromNull(doc, k);
      }
    } else {
      var n := c.value;
      var p := ParentElement(doc, n);
      assert LevelHit(doc, c, sels, 0) == FirstQuery(doc, n, sels);
      SearchUpNone(doc, p, levels - 1, sels);
      forall k | 0 < k < levels ensures LevelHit(doc, c, sels, k).None? {
        LevelFromParent(doc, n, sels, k - 1);
      }
    }
  }

  /** One level higher from `n` is the same level from its parent. */
  lemma LevelFromParent(doc: Document, n: NodeId, sels: seq<string>, k: nat)
    requires n < |doc|
    ensures LevelHit(doc, Some(n), sels, k + 1) == LevelHit(doc, ParentElement(doc, n), sels, k)
    ensures HtmlHit(doc, Some(n), sels, k + 1) == HtmlHit(doc, ParentElement(doc, n), sels, k)
  {
    UpFromParent(doc, n, k);
  }

  /** SearchUpHtml returns the hit of the lowest level whose hit is an
      HTMLElement, and that level is below the bound. */
  lemma {:induction false} SearchUpHtmlFound(doc: Document, c: Option<NodeId>, levels: nat, sels: seq<string>)
    requires IsNode(doc, c)
    requires SearchUpHtml(doc, c, levels, sels).Some?
    ensures exists k :: 0 <= k < levels && LevelHit(doc, c, sels, k) == SearchUpHtml(doc, c, levels, sels) &&
                        (forall j :: 0 <= j < k ==> !HtmlHit(doc, c, sels, j))
    decreases levels, 1
  {
    var n := c.value;
    var p := ParentElement(doc, n);
    if HtmlHit(doc, c, sels, 0) {
      assert LevelHit(doc, c, sels, 0) == SearchUpHtml(doc, c, levels, sels);
    } else {
      LevelAbove(doc, c, levels, sels);
    }
  }

  /** The inductive step of SearchUpHtmlFound, when level 0 has no HTMLElement hit. */
  lemma {:induction false} LevelAbove(doc: Document, c: Option<NodeId>, levels: nat, sels: seq<string>)
    requires IsNode(doc, c)
    requires SearchUpHtml(doc, c, levels, sels).Some? && !HtmlHit(doc, c, sels, 0)
    ensures exists k :: 0 <= k < levels && LevelHit(doc, c, sels, k) == SearchUpHtml(doc, c, levels, sels) &&
                        (forall j :: 0 <= j < k ==> !HtmlHit(doc, c, sels, j))
    decreases levels, 0
  {
    var n := c.value;
    var p := ParentElement(doc, n);
    assert LevelHit(doc, c, sels, 0) == FirstQuery(doc, n, sels);
    assert SearchUpHtml(doc, c, levels, sels) == SearchUpHtml(doc, p, levels - 1, sels);
    SearchUpHtmlFound(doc, p, levels - 1, sels);
    var k :| 0 <= k < levels - 1 && LevelHit(doc, p, sels, k) == SearchUpHtml(doc, p, levels - 1, sels) &&
      (forall j :: 0 <= j < k ==> !HtmlHit(doc, p, sels, j));
    LevelFromParent(doc, n, sels, k);
    forall j | 0 < j < k + 1 ensures !HtmlHit(doc, c, sels, j) {
      LevelFromParent(doc, n, sels, j - 1);
    }
    assert 0 <= k + 1 < levels && LevelHit(doc, c, sels, k + 1) == SearchUpHtml(doc, c, levels, sels);
  }

  /** When SearchUpHtml returns null, no level below the bound has an
      HTMLElement hit. */
  lemma {:induction false} SearchUpHtmlNone(doc: Document, c: Option<NodeId>, levels: nat, sels: seq<string>)
    requires IsNode(doc, c)
    requires SearchUpHtml(doc, c, levels, sels).None?
    ensures forall k :: 0 <= k < levels ==> !HtmlHit(doc, c, sels, k)
    decreases levels
  {
    if levels == 0 {
    } else if c.None? {
      forall k | 0 <= k < levels ensures !HtmlHit(doc, c, sels, k) {
        UpFromNull(doc, k);
      }
    } else {
      var n := c.value;
      var p := ParentElement(doc, n);
      assert LevelHit(doc, c, sels, 0) == FirstQuery(doc, n, sels);
      SearchUpHtmlNone(doc, p, levels - 1, sels);
      forall k | 0 < k < levels ensures !HtmlHit(doc, c, sels, k) {
        LevelFromParent(doc, n, sels, k - 1);
      }
    }
  }

  /** Conversely, when no level below the bound has an HTMLElement hit,
      SearchUpHtml returns null. */
  lemma {:induction false} NoHtmlHitGivesNone(doc: Document, c: Option<NodeId>, levels: nat, sels: seq<string>)
    requires IsNode(doc, c)
    requires forall k :: 0 <= k < levels ==> !HtmlHit(doc, c, sels, k)
    ensures SearchUpHtml(doc, c, levels, sels).None?
    decreases levels
  {
    if levels > 0 && c.Some? {
      var n := c.value;
      var p := ParentElement(doc, n);
      assert !HtmlHit(doc, c, sels, 0);
      assert LevelHit(doc, c, sels, 0) == FirstQuery(doc, n, sels);
      forall k | 0 <= k < levels - 1 ensures !HtmlHit(doc, p, sels, k) {
        LevelFromParent(doc, n, sels, k);
        assert !HtmlHit(doc, c, sels, k + 1);
      }
      NoHtmlHitGivesNone(doc, p, levels - 1, sels);
    }
  }

  /** The default adapter's nested search loop: for each of at most `levels`
      containers, try the selectors in order and stop at the first hit. */
  method FindFirstHit(doc: Document, start: Option<NodeId>, levels: nat, sels: seq<string>) returns (button: Option<NodeId>)
    requires IsNode(doc, start)
    ensures button == SearchUp(doc, start, levels, sels)
  {
    var container := start;
    button := None;
    var i := 0;
    while i < levels && container.Some?
      invariant 0 <= i <= levels && IsNode(doc, container) && button.None?
      invariant SearchUp(doc, start, levels, sels) == SearchUp(doc, container, levels - i, sels)
      decreases levels - i
    {
      var j := 0;
      while j < |sels|
        invariant 0 <= j <= |sels| && button.None?
        invariant FirstQuery(doc, container.value, sels) == FirstQuery(doc, container.value, sels, j)
      {
        button := QuerySelector(doc, container.value, sels[j]);
        if button.Some? {
          break;
        }
        j := j + 1;
      }
      if button.Some? {
        break;
      }
      container := ParentElement(doc, container.value);
      i := i + 1;
    }
  }

  /** The site adapters' climb loop: at each of at most `levels` containers take
      the first selector's hit and return it if it is an HTMLElement. */
  method FindHtmlButton(doc: Document, start: Option<NodeId>, levels: nat, sels: seq<string>) returns (button: Option<NodeId>)
    requires IsNode(doc, start)
    ensures button == SearchUpHtml(doc, start, levels, sels)
  {
    var container := start;
    var i := 0;
    while i < levels && container.Some?
      invariant 0 <= i <= levels && IsNode(doc, container)
      invariant SearchUpHtml(doc, start, levels, sels) == SearchUpHtml(doc, container, levels - i, sels)
      decreases levels - i
    {
      var hit := FirstQuery(doc, container.value, sels);
      if hit.Some? && doc[hit.value].isHTMLElement {
        return hit;
      }
      container := ParentElement(doc, container.value);
      i := i + 1;
    }
    return None;
  }
}
