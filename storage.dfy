/** Per-origin settings in the browser's synced storage (utils/storage.ts): the
    default lists, origin normalisation, reads with their fallbacks, writes under
    both the bare and the `www.` origin, the options page's views, the "what's new"
    version check and the one-off clean-up migration. */
module Storage {
  import opened Wrappers
  import opened Strings
  import opened Types

  /** The key under which the whole schema lives in `storage.sync`. */
  const StorageKey := "ctrl_enter_sender_config"

  const DefaultDisabledDomains: seq<string> := ["x.com", "twitter.com", "google.com", "docs.google.com"]

  const DefaultWhitelistDomains: seq<string> := [
    "chatgpt.com", "claude.ai", "gemini.google.com", "grok.com", "chat.deepseek.com", "z.ai",
    "chat.z.ai", "perplexity.ai", "web.telegram.org", "app.slack.com", "discord.com",
    "teams.live.com", "wechat.com"]

  // ---------------------------------------------------------------------------
  // Origins
  // ---------------------------------------------------------------------------

  /** An origin string. `Url` is one that `new URL` accepts, split into its
      protocol (with the colon, as in "https:"), hostname and port ("" for the
      default port); two `Url`s are the same string exactly when their parts
      agree. `Unparsable` is any other text. */
  datatype Origin = Url(protocol: string, hostname: string, port: string) | Unparsable(text: string)

  /** `hostname.replace(/^www\./, '')`: one leading "www." is removed. */
  function StripWww(h: string): (r: string)
    ensures StartsWith(h, "www.") ==> "www." + r == h
    ensures !StartsWith(h, "www.") ==> r == h
  {
    if StartsWith(h, "www.") then assert h == h[..4] + h[4..]; h[4..] else h
  }

  /** The hostname the default lists are matched against; "" when the origin
      does not parse. */
  function HostnameFromOrigin(origin: Origin): string {
    match origin
    case Url(_, h, _) => StripWww(h)
    case Unparsable(_) => ""
  }

  /** `protocol//hostname` without the port and without a leading "www.";
      unparsable text is kept as it is. */
  function GetNormalizedOrigin(origin: Origin): (n: Origin)
    ensures origin.Url? ==> n.Url? && n.protocol == origin.protocol && n.port == ""
    ensures origin.Url? ==> n.hostname == HostnameFromOrigin(origin)
    ensures origin.Unparsable? ==> n == origin
  {
    match origin
    case Url(p, h, _) => Url(p, StripWww(h), "")
    case Unparsable(_) => origin
  }

  /** The keys a setting for `normalized` is stored under: the origin itself and,
      unless its hostname already starts with "www.", the `www.` variant. */
  function GetBothOrigins(normalized: Origin): (keys: seq<Origin>)
    ensures 1 <= |keys| <= 2
    ensures normalized.Url? ==> keys[0] == Url(normalized.protocol, normalized.hostname, "")
    ensures normalized.Url? ==> (|keys| == 2 <==> !StartsWith(normalized.hostname, "www."))
    ensures normalized.Url? && |keys| == 2 ==> keys[1] == Url(normalized.protocol, "www." + normalized.hostname, "")
    ensures normalized.Unparsable? ==> keys == [normalized]
    ensures normalized.Url? ==> forall k :: k in keys ==> k.Url? && k.port == ""
  {
    match normalized
    case Url(p, h, _) =>
      [Url(p, h, "")] + (if !StartsWith(h, "www.") then [Url(p, "www." + h, "")] else [])
    case Unparsable(_) => [normalized]
  }

  /** The bare and the `www.` form of a site, on any port, normalise to the same
      origin. */
  lemma WwwVariantsCollapse(p: string, h: string, port1: string, port2: string)
    requires !StartsWith(h, "www.")
    ensures GetNormalizedOrigin(Url(p, "www." + h, port1)) == GetNormalizedOrigin(Url(p, h, port2))
  {
    assert ("www." + h)[..4] == "www.";
    assert ("www." + h)[4..] == h;
  }

  /** Every key a setting is written under normalises back to the origin it was
      written for, as long as normalising does not leave a second "www.". */
  lemma BothOriginsNormaliseBack(origin: Origin)
    requires origin.Url? ==> !StartsWith(GetNormalizedOrigin(origin).hostname, "www.")
    ensures forall k :: k in GetBothOrigins(GetNormalizedOrigin(origin)) ==>
      GetNormalizedOrigin(k) == GetNormalizedOrigin(origin)
  {
    var n := GetNormalizedOrigin(origin);
    if origin.Url? {
      WwwVariantsCollapse(n.protocol, n.hostname, "", "");
    }
  }

  /** Normalising twice is normalising once, except for a hostname with two
      leading "www." prefixes. */
  lemma NormaliseIdempotent(origin: Origin)
    requires origin.Url? ==> !StartsWith(StripWww(origin.hostname), "www.")
    ensures GetNormalizedOrigin(GetNormalizedOrigin(origin)) == GetNormalizedOrigin(origin)
  {
  }

  /** "www.www.example.com" normalises to "www.example.com", which normalises
      again to "example.com". */
  lemma DoubleWwwNormalisesTwice()
    ensures GetNormalizedOrigin(Url("https:", "www.www.example.com", "")) == Url("https:", "www.example.com", "")
    ensures GetNormalizedOrigin(Url("https:", "www.example.com", "")) == Url("https:", "example.com", "")
  {
    assert StartsWith("www.www.example.com", "www.");
    assert "www.www.example.com"[4..] == "www.example.com";
    assert StartsWith("www.example.com", "www.");
    assert "www.example.com"[4..] == "example.com";
  }

  // ---------------------------------------------------------------------------
  // The default lists
  // ---------------------------------------------------------------------------

  /** The hostname is the domain or one of its subdomains. */
  predicate DomainMatches(hostname: string, domain: string) {
    hostname == domain || EndsWith(hostname, "." + domain)
  }

  /** One entry of the disabled list; "google.com" only matches itself, so that
      Google's other services stay enabled. */
  predicate DisabledBy(hostname: string, domain: string) {
    if domain == "google.com" then hostname == domain else DomainMatches(hostname, domain)
  }

  predicate IsDefaultDisabledDomain(origin: Origin) {
    var h := HostnameFromOrigin(origin);
    exists i :: 0 <= i < |DefaultDisabledDomains| && DisabledBy(h, DefaultDisabledDomains[i])
  }

  /** The disabled list spelled out: x.com, twitter.com and docs.google.com with
      their subdomains, google.com by itself. */
  lemma DefaultDisabledUnrolled(origin: Origin)
    ensures IsDefaultDisabledDomain(origin) <==>
      var h := HostnameFromOrigin(origin);
      DomainMatches(h, "x.com") || DomainMatches(h, "twitter.com") || h == "google.com" ||
      DomainMatches(h, "docs.google.com")
  {
    var h := HostnameFromOrigin(origin);
    var d := DefaultDisabledDomains;
    assert DisabledBy(h, d[0]) == DomainMatches(h, "x.com");
    assert DisabledBy(h, d[1]) == DomainMatches(h, "twitter.com");
    assert DisabledBy(h, d[2]) == (h == "google.com");
    assert DisabledBy(h, d[3]) == DomainMatches(h, "docs.google.com");
    if IsDefaultDisabledDomain(origin) {
      var i :| 0 <= i < |d| && DisabledBy(h, d[i]);
      assert i == 0 || i == 1 || i == 2 || i == 3;
    }
  }

  /** `hostname` is neither `domain` nor, by the character before a matching
      tail, one of its subdomains. */
  lemma NotDomainMatch(hostname: string, domain: string)
    requires hostname != domain
    requires |domain| + 1 <= |hostname| ==> hostname[|hostname| - |domain| - 1] != '.'
    ensures !DomainMatches(hostname, domain)
  {
    NotEndsWith(hostname, "." + domain, 0);
  }

  /** A hostname written with or without one leading "www." */
  lemma HostnameOfListed(p: string, h: string, d: string)
    requires h == d || h == "www." + d
    requires |d| > 1 && (d[0] != 'w' || d[1] != 'w')
    ensures HostnameFromOrigin(Url(p, h, "")) == d
  {
    NotStartsWith(d, "www.", if d[0] != 'w' then 0 else 1);
    if h != d {
      assert h[..4] == "www." && h[4..] == d;
    }
  }

  predicate IsDefaultWhitelistedDomain(origin: Origin) {
    var h := HostnameFromOrigin(origin);
    exists i :: 0 <= i < |DefaultWhitelistDomains| && DomainMatches(h, DefaultWhitelistDomains[i])
  }

  /** x.com is disabled by default. */
  lemma XComDisabled()
    ensures IsDefaultDisabledDomain(Url("https:", "x.com", ""))
  {
    DisabledListed("x.com", "x.com", 0);
  }

  /** google.com behind "www." is disabled too. */
  lemma GoogleDisabled()
    ensures IsDefaultDisabledDomain(Url("https:", "www.google.com", ""))
  {
    DisabledListed("www.google.com", "google.com", 2);
  }

  /** Google Docs is disabled, although Google's other subdomains are not. */
  lemma DocsDisabled()
    ensures IsDefaultDisabledDomain(Url("https:", "docs.google.com", ""))
  {
    DisabledListed("docs.google.com", "docs.google.com", 3);
  }

  /** A hostname without "www." that is not google.com and matches none of
      the other disabled domains is not disabled, on any port. */
  lemma NotDisabledHost(p: string, h: string, port: string)
    requires !StartsWith(h, "www.")
    requires h != "google.com" && !DomainMatches(h, "x.com") && !DomainMatches(h, "twitter.com")
    requires !DomainMatches(h, "docs.google.com")
    ensures !IsDefaultDisabledDomain(Url(p, h, port))
  {
    DefaultDisabledUnrolled(Url(p, h, port));
  }

  /** Gemini, a subdomain of google.com, is not disabled by default. */
  lemma GeminiNotDisabled()
    ensures !IsDefaultDisabledDomain(Url("https:", "gemini.google.com", ""))
  {
    var g := "gemini.google.com";
    NotStartsWith(g, "www.", 0);
    NotDomainMatch(g, "x.com");
    NotDomainMatch(g, "twitter.com");
    NotDomainMatch(g, "docs.google.com");
    NotDisabledHost("https:", g, "");
  }

  /** Nor is an unrelated site. */
  lemma ExampleNotDisabled()
    ensures !IsDefaultDisabledDomain(Url("https:", "example.com", ""))
  {
    var e := "example.com";
    NotStartsWith(e, "www.", 0);
    NotDomainMatch(e, "x.com");
    NotDomainMatch(e, "twitter.com");
    NotDomainMatch(e, "docs.google.com");
    NotDisabledHost("https:", e, "");
  }

  /** chatgpt.com and, through its `www.` form, perplexity.ai are whitelisted. */
  lemma DefaultWhitelistExamples()
    ensures IsDefaultWhitelistedDomain(Url("https:", "chatgpt.com", ""))
    ensures IsDefaultWhitelistedDomain(Url("https:", "www.perplexity.ai", ""))
  {
    WhitelistListed("chatgpt.com", "chatgpt.com", 0);
    WhitelistListed("www.perplexity.ai", "perplexity.ai", 7);
  }

  /** A hostname without "www.", equal to no whitelisted domain and without a
      '.' where a whitelisted domain's leading dot would be, is not whitelisted. */
  lemma NotWhitelistedHost(p: string, h: string, port: string)
    requires !StartsWith(h, "www.")
    requires forall i :: 0 <= i < |DefaultWhitelistDomains| ==> h != DefaultWhitelistDomains[i]
    requires forall i :: 0 <= i < |DefaultWhitelistDomains| && |DefaultWhitelistDomains[i]| + 1 <= |h| ==>
      h[|h| - |DefaultWhitelistDomains[i]| - 1] != '.'
    ensures !IsDefaultWhitelistedDomain(Url(p, h, port))
  {
    forall i | 0 <= i < |DefaultWhitelistDomains| ensures !DomainMatches(h, DefaultWhitelistDomains[i]) {
      NotDomainMatch(h, DefaultWhitelistDomains[i]);
    }
  }

  /** An unrelated site is not whitelisted. */
  lemma ExampleNotWhitelisted()
    ensures !IsDefaultWhitelistedDomain(Url("https:", "example.com", ""))
  {
    NotStartsWith("example.com", "www.", 0);
    NotWhitelistedHost("https:", "example.com", "");
  }

  // ---------------------------------------------------------------------------
  // The stored schema
  // ---------------------------------------------------------------------------

  /** A property of a stored JSON object: absent, `null`, or a value. */
  datatype Field<T> = Missing | Null | Present(value: T)

  /** A per-origin object as found in storage. `extraKeys` are the names of any
      further properties an older version left behind. */
  datatype StoredConfig = StoredConfig(
    enabled: Field<bool>,
    customTargets: Field<seq<string>>,
    customExcludes: Field<seq<string>>,
    extraKeys: set<string>)

  /** The object stored under `StorageKey`. */
  datatype Schema = Schema(activationMode: Option<ActivationMode>, domains: map<Origin, StoredConfig>)

  /** `data[STORAGE_KEY] || { domains: {} }` */
  function SchemaOrEmpty(store: Option<Schema>): Schema {
    if store.Some? then store.value else Schema(None, map[])
  }

  /** `activationMode || 'blacklist'` */
  function Mode(store: Option<Schema>): ActivationMode {
    if store.Some? && store.value.activationMode == Some(Whitelist) then Whitelist else Blacklist
  }

  /** The settings read back from a stored object: `enabled` keeps its
      truthiness, a list is kept when it is present. */
  function Cleaned(saved: StoredConfig): DomainConfig {
    DomainConfig(
      saved.enabled == Present(true),
      if saved.customTargets.Present? then Some(saved.customTargets.value) else None,
      if saved.customExcludes.Present? then Some(saved.customExcludes.value) else None)
  }

  /** The object `setDomainConfig` writes for a setting: the lists only when
      given. */
  function StoredOf(config: DomainConfig): StoredConfig {
    StoredConfig(
      Present(config.enabled),
      if config.customTargets.Some? then Present(config.customTargets.value) else Missing,
      if config.customExcludes.Some? then Present(config.customExcludes.value) else Missing,
      {})
  }

  /** The setting an origin has when nothing is saved for it. */
  function DefaultConfig(mode: ActivationMode, origin: Origin): (config: DomainConfig)
    ensures config.customTargets.None? && config.customExcludes.None?
    ensures mode == Whitelist ==> (config.enabled <==> IsDefaultWhitelistedDomain(origin))
    ensures mode == Blacklist ==> (config.enabled <==> !IsDefaultDisabledDomain(origin))
  {
    if mode == Whitelist then DomainConfig(IsDefaultWhitelistedDomain(origin), None, None)
    else DomainConfig(!IsDefaultDisabledDomain(origin), None, None)
  }

  /** `getDomainConfig` as written: the saved object is looked up under the
      origin exactly as given, port included. */
  function GetDomainConfigAsWritten(store: Option<Schema>, origin: Origin): (config: DomainConfig)
    ensures store.Some? && origin in store.value.domains ==> config == Cleaned(store.value.domains[origin])
    ensures !(store.Some? && origin in store.value.domains) ==> config == DefaultConfig(Mode(store), origin)
  {
    if store.Some? && origin in store.value.domains then Cleaned(store.value.domains[origin])
    else DefaultConfig(Mode(store), origin)
  }

  /** `getDomainConfig` reading the key `setDomainConfig` writes: the
      normalised origin. This is the corrected lookup: the lemmas about
      reading a setting back are stated over it. */
  function GetDomainConfig(store: Option<Schema>, origin: Origin): (config: DomainConfig)
    ensures var key := GetNormalizedOrigin(origin);
      store.Some? && key in store.value.domains ==> config == Cleaned(store.value.domains[key])
    ensures var key := GetNormalizedOrigin(origin);
      !(store.Some? && key in store.value.domains) ==> config == DefaultConfig(Mode(store), origin)
  {
    var key := GetNormalizedOrigin(origin);
    if store.Some? && key in store.value.domains then Cleaned(store.value.domains[key])
    else DefaultConfig(Mode(store), origin)
  }

  /** Each key in turn set to `v`. */
  function PutAll(d: map<Origin, StoredConfig>, keys: seq<Origin>, v: StoredConfig): map<Origin, StoredConfig>
    decreases |keys|
  {
    if keys == [] then d else PutAll(d[keys[0] := v], keys[1..], v)
  }

  /** After `PutAll` every given key holds `v` and every other entry is as it
      was. */
  lemma {:induction false} PutAllSpec(d: map<Origin, StoredConfig>, keys: seq<Origin>, v: StoredConfig)
    ensures forall k :: k in keys ==> k in PutAll(d, keys, v) && PutAll(d, keys, v)[k] == v
    ensures forall k :: k !in keys ==>
      (k in PutAll(d, keys, v) <==> k in d) && (k in d ==> PutAll(d, keys, v)[k] == d[k])
    decreases |keys|
  {
    if keys != [] {
      PutAllSpec(d[keys[0] := v], keys[1..], v);
      assert forall k :: k in keys ==> k == keys[0] || k in keys[1..];
    }
  }

  /** The schema `setDomainConfig` writes: the setting under both keys of the
      normalised origin, every other entry and the mode as they were. */
  function WithDomainConfig(store: Option<Schema>, origin: Origin, config: DomainConfig): (s: Schema)
    ensures s.activationMode == SchemaOrEmpty(store).activationMode
    ensures forall k :: k in GetBothOrigins(GetNormalizedOrigin(origin)) ==>
      k in s.domains && s.domains[k] == StoredOf(config)
    ensures forall k :: k !in GetBothOrigins(GetNormalizedOrigin(origin)) ==>
      (k in s.domains <==> k in SchemaOrEmpty(store).domains) &&
      (k in s.domains ==> s.domains[k] == SchemaOrEmpty(store).domains[k])
  {
    var s := SchemaOrEmpty(store);
    var keys := GetBothOrigins(GetNormalizedOrigin(origin));
    PutAllSpec(s.domains, keys, StoredOf(config));
    Schema(s.activationMode, PutAll(s.domains, keys, StoredOf(config)))
  }

  /** A setting is read back as it was given, under the origin it was set for. */
  lemma SetThenGet(store: Option<Schema>, origin: Origin, config: DomainConfig)
    ensures GetDomainConfig(Some(WithDomainConfig(store, origin, config)), origin) == config
  {
    var keys := GetBothOrigins(GetNormalizedOrigin(origin));
    assert GetNormalizedOrigin(origin) in keys;
  }

  /** ... and under the other form of the same site, `www.` or bare, on any
      port. */
  lemma SetThenGetWwwVariant(store: Option<Schema>, p: string, h: string, port1: string, port2: string,
                             config: DomainConfig)
    requires !StartsWith(h, "www.")
    ensures GetDomainConfig(Some(WithDomainConfig(store, Url(p, h, port1), config)), Url(p, "www." + h, port2)) == config
  {
    WwwVariantsCollapse(p, h, port2, port1);
    SetThenGet(store, Url(p, h, port1), config);
  }

  /** Setting one site leaves what every other site reads unchanged. */
  lemma SetLeavesOtherSites(store: Option<Schema>, origin: Origin, config: DomainConfig, other: Origin)
    requires GetNormalizedOrigin(other) !in GetBothOrigins(GetNormalizedOrigin(origin))
    ensures GetDomainConfig(Some(WithDomainConfig(store, origin, config)), other) == GetDomainConfig(store, other)
  {
  }

  /** The lookup as written does read a setting back for a page on the
      default port, unless its hostname has two leading "www." prefixes. */
  lemma SetThenGetAsWritten(store: Option<Schema>, origin: Origin, config: DomainConfig)
    requires origin.Url? ==> origin.port == "" && !StartsWith(StripWww(origin.hostname), "www.")
    ensures GetDomainConfigAsWritten(Some(WithDomainConfig(store, origin, config)), origin) == config
  {
    var keys := GetBothOrigins(GetNormalizedOrigin(origin));
    if origin.Url? && StartsWith(origin.hostname, "www.") {
      var h := StripWww(origin.hostname);
      assert "www." + h == origin.hostname;
      assert keys[1] == origin;
    }
    assert origin in keys;
  }

  /** The origin of a page served on a non-default port: `http://localhost:3000`. */
  const LocalDevOrigin := Url("http:", "localhost", "3000")

  /** As written, a setting made for a page on a non-default port is stored
      under the port-less origin and never read back: disabling the extension on
      `http://localhost:3000` leaves it enabled there. */
  lemma PortSettingNotReadBackAsWritten()
    ensures GetDomainConfigAsWritten(Some(WithDomainConfig(None, LocalDevOrigin, DomainConfig(false, None, None))), LocalDevOrigin)
      == DomainConfig(true, None, None)
  {
    var s := WithDomainConfig(None, LocalDevOrigin, DomainConfig(false, None, None));
    var keys := GetBothOrigins(GetNormalizedOrigin(LocalDevOrigin));
    assert LocalDevOrigin !in keys;
    assert LocalDevOrigin !in s.domains;
    var h := "localhost";
    NotStartsWith(h, "www.", 0);
    NotDomainMatch(h, "x.com");
    NotDomainMatch(h, "twitter.com");
    NotDomainMatch(h, "docs.google.com");
    NotDisabledHost("http:", h, "3000");
  }

  /** ... while the normalised lookup reads it back. */
  lemma PortSettingReadBack()
    ensures GetDomainConfig(Some(WithDomainConfig(None, LocalDevOrigin, DomainConfig(false, None, None))), LocalDevOrigin)
      == DomainConfig(false, None, None)
  {
    SetThenGet(None, LocalDevOrigin, DomainConfig(false, None, None));
  }

  /** A saved `{enabled: false}` is returned as saved, in either mode. */
  lemma SavedSettingWins(mode: Option<ActivationMode>, origin: Origin)
    requires origin == GetNormalizedOrigin(origin)
    ensures GetDomainConfig(Some(Schema(mode, map[origin := StoredConfig(Present(false), Missing, Missing, {})])), origin)
      == DomainConfig(false, None, None)
  {
  }

  // ---------------------------------------------------------------------------
  // The options page's views
  // ---------------------------------------------------------------------------

  /** `groupDomainsByNormalizedOrigin` over the keys in the order given: the
      first key that normalises to an origin supplies its entry. */
  function Grouped(domains: map<Origin, StoredConfig>, keys: seq<Origin>): map<Origin, StoredConfig>
    requires forall i :: 0 <= i < |keys| ==> keys[i] in domains
  {
    if keys == [] then map[]
    else
      var g := Grouped(domains, keys[..|keys| - 1]);
      var n := GetNormalizedOrigin(keys[|keys| - 1]);
      if n in g then g else g[n := domains[keys[|keys| - 1]]]
  }

  /** The first index at which a key normalises to `n`. */
  predicate FirstWithNormalForm(keys: seq<Origin>, n: Origin, j: int) {
    0 <= j < |keys| && GetNormalizedOrigin(keys[j]) == n &&
    forall i :: 0 <= i < j ==> GetNormalizedOrigin(keys[i]) != n
  }

  /** The grouped view has one entry per normal form of the keys. */
  lemma {:induction false} GroupedKeys(domains: map<Origin, StoredConfig>, keys: seq<Origin>, n: Origin)
    requires forall i :: 0 <= i < |keys| ==> keys[i] in domains
    ensures n in Grouped(domains, keys) <==> exists j :: 0 <= j < |keys| && GetNormalizedOrigin(keys[j]) == n
    decreases |keys|
  {
    if keys != [] {
      var init := keys[..|keys| - 1];
      GroupedKeys(domains, init, n);
      if n in Grouped(domains, init) {
        var j :| 0 <= j < |init| && GetNormalizedOrigin(init[j]) == n;
        assert keys[j] == init[j];
      } else if exists j :: 0 <= j < |keys| && GetNormalizedOrigin(keys[j]) == n {
        var j :| 0 <= j < |keys| && GetNormalizedOrigin(keys[j]) == n;
        if j < |init| {
          assert init[j] == keys[j];
        }
      }
    }
  }

  /** Over the full key list of `domains`, as `Object.keys` gives it, the
      grouped view has exactly one entry per normal form of a stored origin. */
  lemma GroupedIsNormalisedKeys(domains: map<Origin, StoredConfig>, keys: seq<Origin>, n: Origin)
    requires forall i :: 0 <= i < |keys| ==> keys[i] in domains
    requires forall k :: k in domains ==> k in keys
    ensures n in Grouped(domains, keys) <==> exists k :: k in domains && GetNormalizedOrigin(k) == n
  {
    GroupedKeys(domains, keys, n);
    if exists k :: k in domains && GetNormalizedOrigin(k) == n {
      var k :| k in domains && GetNormalizedOrigin(k) == n;
      var j :| 0 <= j < |keys| && keys[j] == k;
    }
  }

  /** Each entry of the grouped view is taken from the first key with that
      normal form. */
  lemma {:induction false} GroupedFirstWins(domains: map<Origin, StoredConfig>, keys: seq<Origin>, n: Origin)
    requires forall i :: 0 <= i < |keys| ==> keys[i] in domains
    ensures forall j :: FirstWithNormalForm(keys, n, j) ==>
      n in Grouped(domains, keys) && Grouped(domains, keys)[n] == domains[keys[j]]
    decreases |keys|
  {
    if keys != [] {
      var init := keys[..|keys| - 1];
      GroupedFirstWins(domains, init, n);
      GroupedKeys(domains, keys, n);
      forall j | FirstWithNormalForm(keys, n, j)
        ensures n in Grouped(domains, keys) && Grouped(domains, keys)[n] == domains[keys[j]]
      {
        if j < |init| {
          assert FirstWithNormalForm(init, n, j);
          GroupedKeys(domains, init, n);
        } else {
          GroupedKeys(domains, init, n);
          assert forall i :: 0 <= i < |init| ==> GetNormalizedOrigin(init[i]) != n;
        }
      }
    }
  }

  /** The entries `getAllConfigs` adds in `mode` for origins that have none. */
  function DefaultEntry(mode: ActivationMode): StoredConfig {
    StoredConfig(Present(mode == Whitelist), Missing, Missing, {})
  }

  /** The origin is on the mode's default list. */
  predicate IsListedDefault(mode: ActivationMode, origin: Origin) {
    if mode == Blacklist then IsDefaultDisabledDomain(origin) else IsDefaultWhitelistedDomain(origin)
  }

  /** The origins `getAllConfigs` shows for the default entries of the list. */
  const DefaultDisabledOrigins: seq<Origin> := [
    Url("https:", "x.com", ""), Url("https:", "www.x.com", ""),
    Url("https:", "twitter.com", ""), Url("https:", "www.twitter.com", ""),
    Url("https:", "google.com", ""), Url("https:", "www.google.com", ""),
    Url("https:", "docs.google.com", "")]

  const DefaultWhitelistOrigins: seq<Origin> := [
    Url("https:", "chatgpt.com", ""), Url("https:", "claude.ai", ""),
    Url("https:", "gemini.google.com", ""), Url("https:", "grok.com", ""),
    Url("https:", "chat.deepseek.com", ""), Url("https:", "z.ai", ""),
    Url("https:", "chat.z.ai", ""), Url("https:", "www.perplexity.ai", ""),
    Url("https:", "web.telegram.org", ""), Url("https:", "app.slack.com", ""),
    Url("https:", "discord.com", ""), Url("https:", "teams.live.com", ""),
    Url("https:", "www.wechat.com", "")]

  function DefaultOrigins(mode: ActivationMode): seq<Origin> {
    if mode == Blacklist then DefaultDisabledOrigins else DefaultWhitelistOrigins
  }

  /** The saved entries after `getAllConfigs`' loop over `origins`: each listed
      origin without an entry gets the default one. */
  function WithDefaults(domains: map<Origin, StoredConfig>, origins: seq<Origin>, mode: ActivationMode)
    : map<Origin, StoredConfig>
    decreases |origins|
  {
    if origins == [] then domains
    else
      var d := WithDefaults(domains, origins[..|origins| - 1], mode);
      var o := origins[|origins| - 1];
      if o !in d && IsListedDefault(mode, o) then d[o := DefaultEntry(mode)] else d
  }

  /** The loop keeps the saved entries, adds the default entry for each listed
      origin without one, and adds nothing else. */
  lemma {:induction false} WithDefaultsSpec(domains: map<Origin, StoredConfig>, origins: seq<Origin>, mode: ActivationMode)
    ensures forall k :: k in domains ==>
      k in WithDefaults(domains, origins, mode) && WithDefaults(domains, origins, mode)[k] == domains[k]
    ensures forall k :: k in origins && IsListedDefault(mode, k) && k !in domains ==>
      k in WithDefaults(domains, origins, mode) && WithDefaults(domains, origins, mode)[k] == DefaultEntry(mode)
    ensures forall k :: k in WithDefaults(domains, origins, mode) ==>
      k in domains || (k in origins && IsListedDefault(mode, k))
    decreases |origins|
  {
    if origins != [] {
      var init := origins[..|origins| - 1];
      WithDefaultsSpec(domains, init, mode);
      assert forall k :: k in origins ==> k in init || k == origins[|origins| - 1];
      assert forall k :: k in init ==> k in origins;
    }
  }

  /** `getAllConfigs`' loop: each origin of the list that has no entry and
      passes the mode's list check gets the default entry. */
  method AddDefaults(domains: map<Origin, StoredConfig>, origins: seq<Origin>, mode: ActivationMode)
    returns (all: map<Origin, StoredConfig>)
    ensures all == WithDefaults(domains, origins, mode)
  {
    all := domains;
    for i := 0 to |origins|
      invariant all == WithDefaults(domains, origins[..i], mode)
    {
      assert origins[..i + 1][..i] == origins[..i];
      if origins[i] !in all && IsListedDefault(mode, origins[i]) {
        all := all[origins[i] := DefaultEntry(mode)];
      }
    }
    assert origins[..|origins|] == origins;
  }

  /** What `getAllConfigs` returns for a stored schema. */
  function AllConfigsOf(store: Option<Schema>): Schema {
    var s := SchemaOrEmpty(store);
    Schema(Some(Mode(store)), WithDefaults(s.domains, DefaultOrigins(Mode(store)), Mode(store)))
  }

  /** An origin on `https:` whose hostname is the `j`-th disabled domain, with or
      without "www.", is disabled by default. */
  lemma DisabledListed(h: string, d: string, j: int)
    requires 0 <= j < |DefaultDisabledDomains| && DefaultDisabledDomains[j] == d
    requires h == d || h == "www." + d
    requires |d| > 1 && (d[0] != 'w' || d[1] != 'w')
    ensures IsDefaultDisabledDomain(Url("https:", h, ""))
  {
    HostnameOfListed("https:", h, d);
    assert DisabledBy(d, DefaultDisabledDomains[j]);
  }

  /** The same for the whitelist. */
  lemma WhitelistListed(h: string, d: string, j: int)
    requires 0 <= j < |DefaultWhitelistDomains| && DefaultWhitelistDomains[j] == d
    requires h == d || h == "www." + d
    requires |d| > 1 && (d[0] != 'w' || d[1] != 'w')
    ensures IsDefaultWhitelistedDomain(Url("https:", h, ""))
  {
    HostnameOfListed("https:", h, d);
    assert DomainMatches(d, DefaultWhitelistDomains[j]);
  }

  /** The guard of `getAllConfigs` holds for every origin it lists. */
  lemma DefaultOriginsAreListed(mode: ActivationMode)
    ensures forall i :: 0 <= i < |DefaultOrigins(mode)| ==> IsListedDefault(mode, DefaultOrigins(mode)[i])
  {
    if mode == Blacklist {
      DisabledOriginsListed();
    } else {
      WhitelistOriginsListed();
    }
  }

  lemma DisabledOriginsListed()
    ensures forall i :: 0 <= i < |DefaultDisabledOrigins| ==> IsDefaultDisabledDomain(DefaultDisabledOrigins[i])
  {
    forall i | 0 <= i < |DefaultDisabledOrigins| ensures IsDefaultDisabledDomain(DefaultDisabledOrigins[i]) {
      if i == 0 {
        DisabledListed("x.com", "x.com", 0);
      } else if i == 1 {
        DisabledListed("www.x.com", "x.com", 0);
      } else if i == 2 {
        DisabledListed("twitter.com", "twitter.com", 1);
      } else if i == 3 {
        DisabledListed("www.twitter.com", "twitter.com", 1);
      } else if i == 4 {
        DisabledListed("google.com", "google.com", 2);
      } else if i == 5 {
        DisabledListed("www.google.com", "google.com", 2);
      } else if i == 6 {
        DisabledListed("docs.google.com", "docs.google.com", 3);
      }
    }
  }

  lemma WhitelistOriginsListed()
    ensures forall i :: 0 <= i < |DefaultWhitelistOrigins| ==> IsDefaultWhitelistedDomain(DefaultWhitelistOrigins[i])
  {
    WhitelistOriginsListedLow();
    WhitelistOriginsListedHigh();
  }

  lemma WhitelistOriginsListedLow()
    ensures forall i :: 0 <= i < 7 ==> IsDefaultWhitelistedDomain(DefaultWhitelistOrigins[i])
  {
    forall i | 0 <= i < 7 ensures IsDefaultWhitelistedDomain(DefaultWhitelistOrigins[i]) {
      if i == 0 {
        WhitelistListed("chatgpt.com", "chatgpt.com", 0);
      } else if i == 1 {
        WhitelistListed("claude.ai", "claude.ai", 1);
      } else if i == 2 {
        WhitelistListed("gemini.google.com", "gemini.google.com", 2);
      } else if i == 3 {
        WhitelistListed("grok.com", "grok.com", 3);
      } else if i == 4 {
        WhitelistListed("chat.deepseek.com", "chat.deepseek.com", 4);
      } else if i == 5 {
        WhitelistListed("z.ai", "z.ai", 5);
      } else if i == 6 {
        WhitelistListed("chat.z.ai", "chat.z.ai", 6);
      }
    }
  }

  lemma WhitelistOriginsListedHigh()
    ensures forall i :: 7 <= i < 13 ==> IsDefaultWhitelistedDomain(DefaultWhitelistOrigins[i])
  {
    forall i | 7 <= i < 13 ensures IsDefaultWhitelistedDomain(DefaultWhitelistOrigins[i]) {
      if i == 7 {
        WhitelistListed("www.perplexity.ai", "perplexity.ai", 7);
      } else if i == 8 {
        WhitelistListed("web.telegram.org", "web.telegram.org", 8);
      } else if i == 9 {
        WhitelistListed("app.slack.com", "app.slack.com", 9);
      } else if i == 10 {
        WhitelistListed("discord.com", "discord.com", 10);
      } else if i == 11 {
        WhitelistListed("teams.live.com", "teams.live.com", 11);
      } else if i == 12 {
        WhitelistListed("www.wechat.com", "wechat.com", 12);
      }
    }
  }

  /** `getAllConfigs` keeps every saved entry and shows an entry for every
      origin of the mode's default list: the saved one, or the default. */
  lemma AllConfigsShowsDefaults(store: Option<Schema>)
    ensures var all := AllConfigsOf(store);
      all.activationMode == Some(Mode(store)) &&
      (forall k :: k in SchemaOrEmpty(store).domains ==> k in all.domains && all.domains[k] == SchemaOrEmpty(store).domains[k]) &&
      (forall o :: o in DefaultOrigins(Mode(store)) && o !in SchemaOrEmpty(store).domains ==>
        o in all.domains && all.domains[o] == DefaultEntry(Mode(store))) &&
      (forall k :: k in all.domains ==> k in SchemaOrEmpty(store).domains || k in DefaultOrigins(Mode(store)))
  {
    DefaultOriginsAreListed(Mode(store));
    WithDefaultsSpec(SchemaOrEmpty(store).domains, DefaultOrigins(Mode(store)), Mode(store));
  }

  // ---------------------------------------------------------------------------
  // The one-off migration
  // ---------------------------------------------------------------------------

  /** The property names of a stored object. */
  function OriginalKeys(c: StoredConfig): set<string> {
    (if c.enabled.Missing? then {} else {"enabled"}) +
    (if c.customTargets.Missing? then {} else {"customTargets"}) +
    (if c.customExcludes.Missing? then {} else {"customExcludes"}) +
    ExtraKeys(c)
  }

  /** The names beyond the three the schema knows. */
  function ExtraKeys(c: StoredConfig): set<string> {
    c.extraKeys - {"enabled", "customTargets", "customExcludes"}
  }

  /** The cleaned object: `enabled ?? true`, the lists kept when truthy, nothing
      else. */
  function MigratedConfig(c: StoredConfig): StoredConfig {
    StoredConfig(
      Present(if c.enabled.Present? then c.enabled.value else true),
      if c.customTargets.Present? then c.customTargets else Missing,
      if c.customExcludes.Present? then c.customExcludes else Missing,
      {})
  }

  /** The migration's change test: the cleaned object has a different number of
      keys, or lacks one of the original's. */
  predicate KeysChanged(c: StoredConfig) {
    var before := OriginalKeys(c);
    var after := CleanKeys(c);
    |before| != |after| || exists k :: k in before && k !in after
  }

  /** The property names of the cleaned object. */
  function CleanKeys(c: StoredConfig): set<string> {
    {"enabled"} +
    (if c.customTargets.Present? then {"customTargets"} else {}) +
    (if c.customExcludes.Present? then {"customExcludes"} else {})
  }

  /** A stored object counts as changed exactly when `enabled` is absent, a list
      is `null`, or it has properties the schema does not know. A `null`
      `enabled` alone does not count: the key stays. */
  lemma KeysChangedIff(c: StoredConfig)
    ensures KeysChanged(c) <==>
      c.enabled.Missing? || c.customTargets.Null? || c.customExcludes.Null? || ExtraKeys(c) != {}
  {
    if c.enabled.Missing? {
      AddedEnabledChanges(c);
    } else if c.customTargets.Null? {
      DroppedKeyChanges(c, "customTargets");
    } else if c.customExcludes.Null? {
      DroppedKeyChanges(c, "customExcludes");
    } else if ExtraKeys(c) != {} {
      var x :| x in ExtraKeys(c);
      DroppedKeyChanges(c, x);
    } else {
      assert OriginalKeys(c) == CleanKeys(c);
    }
  }

  /** A property of the stored object that the cleaned one lacks is a change. */
  lemma DroppedKeyChanges(c: StoredConfig, k: string)
    requires k in OriginalKeys(c) && k !in CleanKeys(c)
    ensures KeysChanged(c)
  {
  }

  /** A missing `enabled` is added back, which is a change. */
  lemma AddedEnabledChanges(c: StoredConfig)
    requires c.enabled.Missing?
    ensures KeysChanged(c)
  {
    var before := OriginalKeys(c);
    var after := CleanKeys(c);
    assert "enabled" in after && "enabled" !in before;
    if before <= after {
      assert before < after;
    }
  }

  /** Cleaning a cleaned object changes nothing and is not reported. */
  lemma MigratedConfigIsClean(c: StoredConfig)
    ensures MigratedConfig(MigratedConfig(c)) == MigratedConfig(c)
    ensures !KeysChanged(MigratedConfig(c))
  {
    KeysChangedIff(MigratedConfig(c));
  }

  /** Cleaning keeps what is read back wherever `enabled` was saved; an object
      without a usable `enabled`, read as disabled before, is enabled after. */
  lemma MigrationEffectOnReads(c: StoredConfig)
    ensures c.enabled.Present? ==> Cleaned(MigratedConfig(c)) == Cleaned(c)
    ensures !c.enabled.Present? ==> !Cleaned(c).enabled && Cleaned(MigratedConfig(c)).enabled
  {
  }

  function MigratedDomains(d: map<Origin, StoredConfig>): map<Origin, StoredConfig> {
    map k | k in d :: MigratedConfig(d[k])
  }

  predicate NeedsRewrite(d: map<Origin, StoredConfig>) {
    ChangedAmong(d, d.Keys)
  }

  /** Some entry among `ks` counts as changed. */
  predicate ChangedAmong(d: map<Origin, StoredConfig>, ks: set<Origin>) {
    exists k :: k in ks && k in d && KeysChanged(d[k])
  }

  lemma ChangedAmongAdd(d: map<Origin, StoredConfig>, ks: set<Origin>, o: Origin)
    requires o in d
    ensures ChangedAmong(d, ks + {o}) <==> ChangedAmong(d, ks) || KeysChanged(d[o])
  {
  }

  /** The migration as written: when anything changed it stores
      `{ domains: cleaned }`, which loses the activation mode. */
  function MigratedSchemaAsWritten(store: Option<Schema>): (r: Option<Schema>)
    ensures r != store ==>
      r.Some? && r.value.activationMode.None? && Mode(r) == Blacklist &&
      r.value.domains.Keys == SchemaOrEmpty(store).domains.Keys
  {
    var s := SchemaOrEmpty(store);
    if NeedsRewrite(s.domains) then Some(Schema(None, MigratedDomains(s.domains))) else store
  }

  /** The corrected migration, keeping the activation mode; the lemmas about
      one and two migrations are stated over it. */
  function MigratedSchema(store: Option<Schema>): (r: Option<Schema>)
    ensures Mode(r) == Mode(store)
    ensures r != store ==> r.Some? && r.value.domains.Keys == SchemaOrEmpty(store).domains.Keys
  {
    var s := SchemaOrEmpty(store);
    if NeedsRewrite(s.domains) then Some(Schema(s.activationMode, MigratedDomains(s.domains))) else store
  }

  /** A whitelist-mode user whose saved entry lacks `enabled`. */
  const WhitelistUser := Some(Schema(Some(Whitelist),
    map[Url("https:", "chatgpt.com", "") := StoredConfig(Missing, Missing, Missing, {})]))

  /** As written, the migration turns that user's mode back to blacklist, which
      enables the extension on every site without an entry. */
  lemma MigrationDropsModeAsWritten()
    ensures Mode(WhitelistUser) == Whitelist
    ensures Mode(MigratedSchemaAsWritten(WhitelistUser)) == Blacklist
    ensures !GetDomainConfig(WhitelistUser, Url("https:", "example.com", "")).enabled
    ensures GetDomainConfig(MigratedSchemaAsWritten(WhitelistUser), Url("https:", "example.com", "")).enabled
  {
    var k := Url("https:", "chatgpt.com", "");
    assert KeysChanged(WhitelistUser.value.domains[k]) by {
      KeysChangedIff(WhitelistUser.value.domains[k]);
    }
    var e := Url("https:", "example.com", "");
    NotStartsWith("example.com", "www.", 0);
    assert GetNormalizedOrigin(e) == e;
    ExampleNotDisabled();
    ExampleNotWhitelisted();
  }

  /** As written, too, a second migration changes nothing: the first one
      leaves only clean entries. */
  lemma MigrationAsWrittenSettles(store: Option<Schema>)
    ensures MigratedSchemaAsWritten(MigratedSchemaAsWritten(store)) == MigratedSchemaAsWritten(store)
  {
    var s := SchemaOrEmpty(store);
    if NeedsRewrite(s.domains) {
      var d := MigratedDomains(s.domains);
      forall k | k in d ensures !KeysChanged(d[k]) {
        MigratedConfigIsClean(s.domains[k]);
      }
    }
  }

  /** Migrating a second time changes nothing. */
  lemma MigrationIdempotent(store: Option<Schema>)
    ensures MigratedSchema(MigratedSchema(store)) == MigratedSchema(store)
  {
    var s := SchemaOrEmpty(store);
    if NeedsRewrite(s.domains) {
      var d := MigratedDomains(s.domains);
      forall k | k in d ensures !KeysChanged(d[k]) {
        MigratedConfigIsClean(s.domains[k]);
      }
    }
  }

  // ---------------------------------------------------------------------------
  // The "what's new" check
  // ---------------------------------------------------------------------------

  /** `getLastVersion()` returns `data || null`: an empty string counts as none. */
  predicate Truthy(v: Option<string>) {
    v.Some? && v.value != ""
  }

  /** `shouldShowWhatsNew`: whether to show the notice, and the last version
      stored afterwards. */
  function WhatsNew(last: Option<string>, current: string): (bool, Option<string>) {
    if !Truthy(last) then (false, Some(current))
    else if last.value != current then (true, Some(current))
    else (false, last)
  }

  /** The notice is shown exactly on a version change after a first run, the
      current version is recorded either way, and asking again for the same
      version shows nothing. */
  lemma WhatsNewOncePerUpdate(last: Option<string>, current: string)
    ensures WhatsNew(last, current).0 <==> Truthy(last) && last.value != current
    ensures WhatsNew(last, current).1 == Some(current)
    ensures !WhatsNew(WhatsNew(last, current).1, current).0
  {
  }

  // ---------------------------------------------------------------------------
  // The storage areas
  // ---------------------------------------------------------------------------

  /** The extension's storage: the synced schema and the two version cells kept
      in local storage. */
  class ExtensionStorage {
    var sync: Option<Schema>
    var lastVersion: Option<string>
    var migrationVersion: Option<string>

    constructor(sync: Option<Schema>, lastVersion: Option<string>, migrationVersion: Option<string>)
      ensures this.sync == sync && this.lastVersion == lastVersion && this.migrationVersion == migrationVersion
    {
      this.sync := sync;
      this.lastVersion := lastVersion;
      this.migrationVersion := migrationVersion;
    }

    /** `setDomainConfig`: writes the setting under each key of the normalised
        origin in turn. */
    method SetDomainConfig(origin: Origin, config: DomainConfig)
      modifies this
      ensures sync == Some(WithDomainConfig(old(sync), origin, config))
      ensures lastVersion == old(lastVersion) && migrationVersion == old(migrationVersion)
    {
      var schema := SchemaOrEmpty(sync);
      var bothOrigins := GetBothOrigins(GetNormalizedOrigin(origin));
      var cleanConfig := StoredOf(config);
      var domains := schema.domains;
      for i := 0 to |bothOrigins|
        invariant PutAll(domains, bothOrigins[i..], cleanConfig) == PutAll(schema.domains, bothOrigins, cleanConfig)
      {
        assert bothOrigins[i..][1..] == bothOrigins[i + 1..];
        domains := domains[bothOrigins[i] := cleanConfig];
      }
      sync := Some(Schema(schema.activationMode, domains));
    }

    /** `getAllConfigs`: the saved entries plus defaults, without writing. */
    method GetAllConfigs() returns (all: Schema)
      ensures all == AllConfigsOf(sync)
    {
      var schema := SchemaOrEmpty(sync);
      var mode := if schema.activationMode == Some(Whitelist) then Whitelist else Blacklist;
      var allDomains := AddDefaults(schema.domains, DefaultOrigins(mode), mode);
      all := Schema(Some(mode), allDomains);
    }

    /** `shouldShowWhatsNew`. */
    method ShouldShowWhatsNew(currentVersion: string) returns (show: bool)
      modifies this
      ensures (show, lastVersion) == WhatsNew(old(lastVersion), currentVersion)
      ensures sync == old(sync) && migrationVersion == old(migrationVersion)
    {
      var last := lastVersion;
      if !(last.Some? && last.value != "") {
        lastVersion := Some(currentVersion);
        return false;
      }
      if last.value != currentVersion {
        lastVersion := Some(currentVersion);
        return true;
      }
      return false;
    }

    /** `migrateStorage` for the manifest version `currentVersion`: when an
        entry changed, the cleaned entries are written as `{ domains: cleaned }`,
        without the activation mode. */
    method MigrateStorage(currentVersion: string)
      modifies this
      ensures old(migrationVersion) == Some(currentVersion) && currentVersion != "" ==>
        sync == old(sync) && migrationVersion == old(migrationVersion)
      ensures !(old(migrationVersion) == Some(currentVersion) && currentVersion != "") ==>
        sync == MigratedSchemaAsWritten(old(sync)) && migrationVersion == Some(currentVersion)
      ensures lastVersion == old(lastVersion)
    {
      var lastMigrationVersion := if migrationVersion.Some? && migrationVersion.value != "" then migrationVersion else None;
      if lastMigrationVersion == Some(currentVersion) {
        return;
      }
      var schema := SchemaOrEmpty(sync);
      var cleaned, hasChanges := CleanDomains(schema.domains);
      assert cleaned == MigratedDomains(schema.domains);
      if hasChanges {
        sync := Some(Schema(None, cleaned));
      }
      migrationVersion := Some(currentVersion);
    }
  }

  /** The entries outside `todo` are cleaned. */
  ghost predicate CleanedSoFar(domains: map<Origin, StoredConfig>, todo: set<Origin>, cleaned: map<Origin, StoredConfig>) {
    todo <= domains.Keys && cleaned.Keys == domains.Keys - todo &&
    forall k :: k in cleaned ==> cleaned[k] == MigratedConfig(domains[k])
  }

  lemma CleanedStep(domains: map<Origin, StoredConfig>, todo: set<Origin>, cleaned: map<Origin, StoredConfig>, origin: Origin)
    requires CleanedSoFar(domains, todo, cleaned) && origin in todo
    ensures CleanedSoFar(domains, todo - {origin}, cleaned[origin := MigratedConfig(domains[origin])])
  {
  }

  lemma ChangedStep(domains: map<Origin, StoredConfig>, todo: set<Origin>, origin: Origin)
    requires todo <= domains.Keys && origin in todo
    ensures ChangedAmong(domains, domains.Keys - (todo - {origin})) ==
      (ChangedAmong(domains, domains.Keys - todo) || KeysChanged(domains[origin]))
  {
    assert domains.Keys - (todo - {origin}) == (domains.Keys - todo) + {origin};
    ChangedAmongAdd(domains, domains.Keys - todo, origin);
  }

  /** The loop of `migrateStorage`: every entry cleaned, and whether any of
      them counts as changed. */
  method CleanDomains(domains: map<Origin, StoredConfig>) returns (cleaned: map<Origin, StoredConfig>, hasChanges: bool)
    ensures cleaned.Keys == domains.Keys
    ensures forall k :: k in cleaned ==> cleaned[k] == MigratedConfig(domains[k])
    ensures hasChanges == NeedsRewrite(domains)
  {
    hasChanges := false;
    cleaned := map[];
    var todo := domains.Keys;
    while todo != {}
      invariant CleanedSoFar(domains, todo, cleaned)
      invariant hasChanges == ChangedAmong(domains, domains.Keys - todo)
      decreases |todo|
    {
      var origin :| origin in todo;
      var config := domains[origin];
      CleanedStep(domains, todo, cleaned, origin);
      ChangedStep(domains, todo, origin);
      hasChanges := hasChanges || KeysChanged(config);
      cleaned := cleaned[origin := MigratedConfig(config)];
      todo := todo - {origin};
    }
  }
}
