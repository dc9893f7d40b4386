/** utils/key-handler.ts: the decision whether a keydown is a send, a soft line
    break, or none of the extension's business. */
module KeyHandler {
  import opened Types

  datatype KeyAction = Send | Newline | Pass

  /** The listener stage that observed the event. */
  datatype Phase = Capture | Bubble

  /** The fields of a KeyboardEvent the resolver reads. */
  datatype KeyEvent = KeyEvent(
    key: string,
    shiftKey: bool,
    ctrlKey: bool,
    metaKey: bool,
    altKey: bool,
    isTrusted: bool,
    isComposing: bool)

  /** The platform's send chord: Cmd+Enter on macOS, Ctrl+Enter elsewhere. */
  predicate IsSendCombo(event: KeyEvent, isMac: bool) {
    event.key == "Enter" && (if isMac then event.metaKey else event.ctrlKey)
  }

  /** Enter with no modifier key held at all. */
  predicate IsPlainEnter(event: KeyEvent) {
    event.key == "Enter" && !event.shiftKey && !event.ctrlKey && !event.metaKey && !event.altKey
  }

  /** A real (trusted), non-IME Enter that carries neither Shift nor Alt: the only
      events the resolver ever acts on. */
  predicate Interceptable(event: KeyEvent) {
    event.isTrusted && !event.isComposing && event.key == "Enter" && !event.shiftKey && !event.altKey
  }

  predicate AnyModifier(event: KeyEvent) {
    event.shiftKey || event.ctrlKey || event.metaKey || event.altKey
  }

  /** resolveKeyAction. The contract is the whole decision table, convention by
      phase, stated over the three predicates above. */
  function ResolveKeyAction(
    event: KeyEvent,
    nativeSendKey: NativeSendKey,
    isMac: bool,
    phase: Phase,
    defaultPrevented: bool): (action: KeyAction)
    // gates that hold for every convention and phase
    ensures !event.isTrusted || event.isComposing ==> action == Pass
    ensures event.key != "Enter" ==> action == Pass
    ensures event.shiftKey || event.altKey ==> action == Pass
    ensures action == Newline ==> phase == Capture && event.isTrusted && !AnyModifier(event)
    // Enter-to-send sites act only in the capture phase
    ensures nativeSendKey == EnterSends && phase == Bubble ==> action == Pass
    ensures nativeSendKey == EnterSends && phase == Capture ==>
      (action == Send <==> Interceptable(event) && IsSendCombo(event, isMac)) &&
      (action == Newline <==> Interceptable(event) && IsPlainEnter(event))
    // Ctrl+Enter sites: newline in capture, send in bubble unless already handled
    ensures nativeSendKey == CtrlEnterSends && phase == Capture ==>
      action != Send && (action == Newline <==> Interceptable(event) && IsPlainEnter(event))
    ensures nativeSendKey == CtrlEnterSends && phase == Bubble ==>
      action != Newline &&
      (action == Send <==> Interceptable(event) && IsSendCombo(event, isMac) && !defaultPrevented)
  {
    if !event.isTrusted then Pass
    else if event.isComposing then Pass
    else if event.key != "Enter" then Pass
    else
      var isSendKey := IsSendCombo(event, isMac);
      var isPlainEnter := IsPlainEnter(event);
      if event.shiftKey || event.altKey then Pass
      else if nativeSendKey == EnterSends then
        if phase != Capture then Pass
        else if isSendKey then Send
        else if isPlainEnter then Newline
        else Pass
      else if phase == Capture then
        if isPlainEnter then Newline else Pass
      else if isSendKey then
        if defaultPrevented then Pass else Send
      else Pass
  }

  /** A Send is always the platform chord on a trusted, non-composing Enter. */
  lemma SendIsSendCombo(event: KeyEvent, nativeSendKey: NativeSendKey, isMac: bool, phase: Phase, defaultPrevented: bool)
    requires ResolveKeyAction(event, nativeSendKey, isMac, phase, defaultPrevented) == Send
    ensures Interceptable(event) && IsSendCombo(event, isMac)
    ensures nativeSendKey == CtrlEnterSends ==> phase == Bubble && !defaultPrevented
    ensures nativeSendKey == EnterSends ==> phase == Capture
  {
  }

  /** Ctrl+Enter on a Mac is neither chord on an Enter-to-send site: it is passed on. */
  lemma MacCtrlEnterPasses(event: KeyEvent)
    requires event.key == "Enter" && event.ctrlKey && !event.metaKey
    ensures ResolveKeyAction(event, EnterSends, true, Capture, false) == Pass
  {
  }

  /** The literal scenarios of the resolver's documented behaviour. */
  lemma Scenarios()
    ensures ResolveKeyAction(KeyEvent("Enter", false, false, false, false, true, false), EnterSends, false, Capture, false) == Newline
    ensures ResolveKeyAction(KeyEvent("Enter", false, false, true, false, true, false), EnterSends, true, Capture, false) == Send
    ensures ResolveKeyAction(KeyEvent("Enter", true, false, false, false, true, false), EnterSends, false, Capture, false) == Pass
    ensures ResolveKeyAction(KeyEvent("Enter", false, true, false, false, true, false), CtrlEnterSends, false, Bubble, false) == Send
    ensures ResolveKeyAction(KeyEvent("Enter", false, false, false, false, true, false), CtrlEnterSends, false, Capture, false) == Newline
    ensures ResolveKeyAction(KeyEvent("Enter", false, false, true, false, true, false), CtrlEnterSends, true, Bubble, true) == Pass
    ensures ResolveKeyAction(KeyEvent("Enter", false, false, true, false, true, false), CtrlEnterSends, true, Capture, false) == Pass
    ensures ResolveKeyAction(KeyEvent("Enter", false, false, false, false, true, true), CtrlEnterSends, true, Capture, false) == Pass
  {
  }
}
