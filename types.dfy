/** The shared data contracts of utils/types.ts. */
module Types {
  import opened Wrappers

  /** How a site's own editor sends a message: plain Enter, or Ctrl/Cmd+Enter. */
  datatype NativeSendKey = EnterSends | CtrlEnterSends

  /** Where the capture-phase keydown listener is registered. */
  datatype ListenerTarget = WindowTarget | DocumentTarget

  /** Blacklist: enabled unless listed as disabled; whitelist: disabled unless listed. */
  datatype ActivationMode = Blacklist | Whitelist

  /** The per-origin settings the content script acts on. The selector lists are
      CSS selector strings typed by the user. */
  datatype DomainConfig = DomainConfig(
    enabled: bool,
    customTargets: Option<seq<string>>,
    customExcludes: Option<seq<string>>)
}
