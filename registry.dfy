/**
 * The tool registry of src/registry.rs: which of a tool's backends the current settings
 * allow, its default backend, and whether a plugin remote may be used without confirmation.
 *
 * The generated registry table, the settings, the host platform and the URL parser are
 * parameters: `registry`, `Settings`, `hostOs` and `parse`.
 */
module Registry {
  import opened Wrappers
  import opened Seqs
  import opened Text

  /** One entry of the generated registry table. */
  datatype RegistryTool = RegistryTool(
    short: string,
    backends: seq<string>,          // full backend names `kind:locator`, default first
    aliases: seq<string>,
    test: Option<(string, string)>,
    os: seq<string>)                // empty: every operating system

  /** The settings and compile-time platform flags the backend filter reads. */
  datatype Settings = Settings(
    disableBackends: seq<string>,
    experimental: bool,
    isWindows: bool,                // cfg!(windows)
    isUnix: bool)                   // cfg!(unix)

  /** `BackendArg::new(short, Some(full))`, kept as the pair it is built from. */
  datatype BackendArg = BackendArg(short: string, full: string)

  /** What `Url::parse` yields, as far as this code looks at it. */
  datatype Url = Url(
    scheme: string,
    username: string,
    password: Option<string>,
    host: Option<string>,
    path: string,
    query: Option<string>,
    fragment: Option<string>)

  datatype UrlError =
    | ParseError      // `Url::parse` failed
    | MissingHost     // `host_str()` is `None`; the source panics on its `unwrap()`

  /** Sentinel that stands for a remote that did not normalize. */
  const InvalidUrl: string := "INVALID_URL"

  /** Normalized remotes in the vetted plugin organization. */
  const MisePluginsPrefix: string := "github.com/mise-plugins/"

  // ---------------------------------------------------------------------------------------------
  // Allowed backend kinds

  /**
   * The backend kinds `backends()` accepts: every kind of the `BackendType` enumeration
   * (`universe`), less the disabled ones, less `asdf` on Windows and `aqua` on Unix
   * when experimental features are off.
   */
  function BackendTypes(universe: set<string>, settings: Settings): (kinds: set<string>)
    ensures kinds <= universe
    ensures forall k :: k in kinds <==>
      && k in universe
      && k !in settings.disableBackends
      && !(settings.isWindows && k == "asdf")
      && !(settings.isUnix && !settings.experimental && k == "aqua")
  {
    var platform := (if settings.isWindows then {"asdf"} else {})
                    + (if settings.isUnix && !settings.experimental then {"aqua"} else {});
    set k | k in universe && k !in settings.disableBackends && k !in platform
  }

  /** The one-time initializer of the memoized kind set: start from all kinds and remove. */
  method InitBackendTypes(universe: set<string>, settings: Settings) returns (kinds: set<string>)
    ensures kinds == BackendTypes(universe, settings)
  {
    kinds := universe;
    for i := 0 to |settings.disableBackends|
      invariant forall k :: k in kinds <==> k in universe && k !in settings.disableBackends[..i]
    {
      kinds := kinds - {settings.disableBackends[i]};
    }
    assert settings.disableBackends[..|settings.disableBackends|] == settings.disableBackends;
    if settings.isWindows {
      kinds := kinds - {"asdf"};
    }
    if settings.isUnix && !settings.experimental {
      kinds := kinds - {"aqua"};
    }
  }

  // ---------------------------------------------------------------------------------------------
  // Filtering a tool's backends

  /** `full.split(':').next()`: the text before the first ':', or all of `full`. */
  function Kind(full: string): (kind: string)
    ensures StartsWith(full, kind)
    ensures ':' !in kind
    ensures |kind| < |full| ==> full[|kind|] == ':'
  {
    if full == [] || full[0] == ':' then [] else [full[0]] + Kind(full[1..])
  }

  /** A name that starts with `kind:` has that kind, when `kind` holds no ':'. */
  lemma {:induction false} KindOfPrefixed(full: string, kind: string)
    requires ':' !in kind
    requires StartsWith(full, kind + ":")
    ensures Kind(full) == kind
  {
    if kind != [] {
      assert full[0] == kind[0];
      assert (kind + ":")[1..] == kind[1..] + ":";
      assert full[1..][..|kind[1..] + ":"|] == full[..|kind + ":"|][1..];
      KindOfPrefixed(full[1..], kind[1..]);
      assert [kind[0]] + kind[1..] == kind;
    }
  }

  /** The test `backends()` applies to each full backend name. */
  function AllowedBy(kinds: set<string>): string -> bool {
    full => Kind(full) in kinds
  }

  /**
   * `RegistryTool::backends`: the tool's backends whose kind is allowed, in their declared
   * order, each as often as it is declared.
   */
  function Backends(tool: RegistryTool, kinds: set<string>): (r: seq<string>)
    ensures forall b :: b in r <==> b in tool.backends && Kind(b) in kinds
  {
    Filter(tool.backends, AllowedBy(kinds))
  }

  /**
   * `backends()` is an order-preserving subsequence of the declared backends, and keeps each
   * allowed one as often as it is declared.
   */
  lemma BackendsKeepOrder(tool: RegistryTool, kinds: set<string>)
    ensures IsSubsequence(Backends(tool, kinds), tool.backends)
    ensures forall b :: multiset(Backends(tool, kinds))[b] ==
                        if Kind(b) in kinds then multiset(tool.backends)[b] else 0
  {
    FilterSubsequence(tool.backends, AllowedBy(kinds));
    FilterCounts(tool.backends, AllowedBy(kinds));
  }

  /** A disabled kind never survives the filter. */
  lemma DisabledKindDropped(tool: RegistryTool, universe: set<string>, settings: Settings, b: string)
    requires Kind(b) in settings.disableBackends
    ensures b !in Backends(tool, BackendTypes(universe, settings))
  {
  }

  /** A declared backend of a known kind survives unless disabled or excluded by the platform. */
  lemma EnabledKindKept(tool: RegistryTool, universe: set<string>, settings: Settings, b: string)
    requires b in tool.backends && Kind(b) in universe
    requires Kind(b) !in settings.disableBackends
    requires !(settings.isWindows && Kind(b) == "asdf")
    requires !(settings.isUnix && !settings.experimental && Kind(b) == "aqua")
    ensures b in Backends(tool, BackendTypes(universe, settings))
  {
  }

  /** On Windows no `asdf` backend is ever returned. */
  lemma WindowsHasNoAsdf(tool: RegistryTool, universe: set<string>, settings: Settings)
    requires settings.isWindows
    ensures forall b :: b in Backends(tool, BackendTypes(universe, settings)) ==> Kind(b) != "asdf"
  {
  }

  /** On Unix with experimental features off no `aqua` backend is ever returned. */
  lemma UnixStableHasNoAqua(tool: RegistryTool, universe: set<string>, settings: Settings)
    requires settings.isUnix && !settings.experimental
    ensures forall b :: b in Backends(tool, BackendTypes(universe, settings)) ==> Kind(b) != "aqua"
  {
  }

  /** `RegistryTool::is_supported_os`: no restriction, or the host is listed. */
  function IsSupportedOs(tool: RegistryTool, hostOs: string): (supported: bool)
    ensures supported <==> tool.os == [] || exists i :: 0 <= i < |tool.os| && tool.os[i] == hostOs
  {
    |tool.os| == 0 || hostOs in tool.os
  }

  /**
   * `RegistryTool::ba`: the tool's short name paired with its first allowed backend, which is
   * the first declared backend whose kind is allowed; `None` when no backend is allowed.
   */
  function Ba(tool: RegistryTool, kinds: set<string>): (r: Option<BackendArg>)
    ensures r.None? <==> Backends(tool, kinds) == []
    ensures r.None? <==> forall b :: b in tool.backends ==> Kind(b) !in kinds
    ensures r.Some? ==> r.value.short == tool.short
    ensures r.Some? ==> exists i :: 0 <= i < |tool.backends| && tool.backends[i] == r.value.full
                                    && Kind(r.value.full) in kinds
                                    && forall j :: 0 <= j < i ==> Kind(tool.backends[j]) !in kinds
  {
    var allowed := Backends(tool, kinds);
    if allowed == [] then None
    else
      FilterHead(tool.backends, AllowedBy(kinds));
      Some(BackendArg(tool.short, allowed[0]))
  }

  // ---------------------------------------------------------------------------------------------
  // Remotes and the trust rule

  /**
   * What the URL parser guarantees for the special scheme `https`: a parsed URL has a host and
   * its path starts with '/'.
   */
  ghost predicate SpecialSchemeParsing(parse: string -> Option<Url>) {
    forall s :: StartsWith(s, "https://") && parse(s).Some? ==>
      parse(s).value.host.Some? && StartsWith(parse(s).value.path, "/")
  }

  /**
   * `normalize_remote`: host followed by path with every trailing `.git` removed; scheme,
   * credentials, query and fragment play no part.
   */
  function NormalizeRemote(parse: string -> Option<Url>, remote: string): (r: Result<string, UrlError>)
    ensures r == Err(ParseError) <==> parse(remote).None?
    ensures r == Err(MissingHost) <==> parse(remote).Some? && parse(remote).value.host.None?
  {
    match parse(remote)
    case None => Err(ParseError)
    case Some(url) =>
      if url.host.None? then Err(MissingHost)
      else Ok(url.host.value + TrimEndMatches(url.path, ".git"))
  }

  /**
   * A normalized remote is the host followed by a prefix of the path that does not end in
   * `.git`, the rest of the path being copies of `.git`.
   */
  lemma NormalizeRemoteShape(parse: string -> Option<Url>, remote: string)
    requires NormalizeRemote(parse, remote).Ok?
    ensures var url, r := parse(remote).value, NormalizeRemote(parse, remote).value;
            var host := url.host.value;
            && StartsWith(r, host)
            && !EndsWith(r[|host|..], ".git")
            && StartsWith(url.path, r[|host|..])
            && url.path == r[|host|..] + Repeat(".git", TrimmedCopies(url.path, ".git"))
  {
    var url := parse(remote).value;
    TrimEndMatchesRemovesCopies(url.path, ".git");
    assert NormalizeRemote(parse, remote).value[|url.host.value|..] == TrimEndMatches(url.path, ".git");
  }

  /**
   * Scheme, credentials, query and fragment play no part, and neither does one trailing `.git`:
   * `https://github.com/a/b.git` and `ssh://user@github.com/a/b?x#y` name the same remote.
   */
  lemma NormalizeIgnoresAllButHostAndPath(parse: string -> Option<Url>, a: string, b: string, u: Url, v: Url)
    requires parse(a) == Some(u) && parse(b) == Some(v)
    requires u.host == v.host
    requires u.path == v.path + ".git" || u.path == v.path
    ensures NormalizeRemote(parse, a) == NormalizeRemote(parse, b)
  {
    TrimEndMatchesAppend(v.path, ".git");
  }

  /** Normalizing twice changes nothing more when the parser reads a normalized remote back as is. */
  lemma NormalizeRemoteIdempotent(parse: string -> Option<Url>, remote: string, again: string, host: string)
    requires NormalizeRemote(parse, remote).Ok?
    requires host == parse(remote).value.host.value
    requires parse(again).Some? && parse(again).value.host == Some(host)
    requires parse(again).value.path == NormalizeRemote(parse, remote).value[|host|..]
    ensures NormalizeRemote(parse, again) == NormalizeRemote(parse, remote)
  {
    NormalizeRemoteShape(parse, remote);
    var path := parse(again).value.path;
    TrimEndMatchesIdempotent(parse(remote).value.path, ".git");
    assert NormalizeRemote(parse, remote).value == host + path;
  }

  /** `full_to_url`'s locator: what follows the first ':', or all of `full` when there is none. */
  function Locator(full: string): (loc: string)
    ensures ':' in full ==> full == Kind(full) + ":" + loc
    ensures ':' !in full ==> loc == full
  {
    var kind := Kind(full);
    if |kind| < |full| then
      assert full == kind + ":" + full[|kind| + 1..] by {
        assert full[..|kind|] == kind;
      }
      full[|kind| + 1..]
    else
      full
  }

  /** The locator of `kind:loc` is `loc`, when `kind` holds no ':'. */
  lemma LocatorOf(kind: string, loc: string)
    requires ':' !in kind
    ensures Kind(kind + ":" + loc) == kind
    ensures Locator(kind + ":" + loc) == loc
  {
    assert StartsWith(kind + ":" + loc, kind + ":") by {
      assert (kind + ":" + loc)[..|kind + ":"|] == kind + ":";
    }
    KindOfPrefixed(kind + ":" + loc, kind);
  }

  /**
   * `full_to_url`: an `https://` locator is used verbatim, any other names a GitHub
   * repository.
   */
  function FullToUrl(full: string): (url: string)
    ensures StartsWith(url, "https://")
    ensures StartsWith(Locator(full), "https://") ==> url == Locator(full)
    ensures !StartsWith(Locator(full), "https://") ==>
              url == "https://github.com/" + Locator(full) + ".git"
  {
    var loc := Locator(full);
    if StartsWith(loc, "https://") then loc
    else
      assert ("https://github.com/" + loc + ".git")[..8] == "https://";
      "https://github.com/" + loc + ".git"
  }

  /** `normalize_remote(remote).unwrap_or("INVALID_URL")` */
  function NormalizedRemote(parse: string -> Option<Url>, remote: string): (r: string)
    ensures NormalizeRemote(parse, remote).Ok? ==> r == NormalizeRemote(parse, remote).value
    ensures NormalizeRemote(parse, remote).Err? ==> r == InvalidUrl
  {
    match NormalizeRemote(parse, remote)
    case Ok(s) => s
    case Err(_) => InvalidUrl
  }

  /** The normalized canonical URL of a full backend name, `""` when it does not normalize. */
  function CanonicalRemote(parse: string -> Option<Url>, full: string): (r: string)
    ensures NormalizeRemote(parse, FullToUrl(full)).Ok? ==> r == NormalizeRemote(parse, FullToUrl(full)).value
    ensures NormalizeRemote(parse, FullToUrl(full)).Err? ==> r == []
  {
    match NormalizeRemote(parse, FullToUrl(full))
    case Ok(s) => s
    case Err(_) => ""
  }

  /**
   * `is_trusted_plugin`: a remote is flagged only when it is the registry's own canonical
   * remote for `name` and lies outside `github.com/mise-plugins/`.
   */
  function IsTrustedPlugin(registry: map<string, RegistryTool>, kinds: set<string>,
                           parse: string -> Option<Url>, name: string, remote: string): (trusted: bool)
    ensures !trusted <==>
      && name in registry
      && Ba(registry[name], kinds).Some?
      && CanonicalRemote(parse, Ba(registry[name], kinds).value.full) == NormalizedRemote(parse, remote)
      && !StartsWith(NormalizedRemote(parse, remote), MisePluginsPrefix)
  {
    var normalized := NormalizedRemote(parse, remote);
    var isShorthand := name in registry && Backends(registry[name], kinds) != []
                       && CanonicalRemote(parse, Backends(registry[name], kinds)[0]) == normalized;
    var isMiseUrl := StartsWith(normalized, MisePluginsPrefix);
    !isShorthand || isMiseUrl
  }

  /** A name the registry does not know never blocks a remote. */
  lemma UnknownNameTrusted(registry: map<string, RegistryTool>, kinds: set<string>,
                           parse: string -> Option<Url>, name: string, remote: string)
    requires name !in registry
    ensures IsTrustedPlugin(registry, kinds, parse, name, remote)
  {
  }

  /** A tool none of whose backends is allowed never blocks a remote. */
  lemma NoAllowedBackendTrusted(registry: map<string, RegistryTool>, kinds: set<string>,
                                parse: string -> Option<Url>, name: string, remote: string)
    requires name in registry
    requires forall b :: b in registry[name].backends ==> Kind(b) !in kinds
    ensures IsTrustedPlugin(registry, kinds, parse, name, remote)
  {
  }

  /** A remote inside `github.com/mise-plugins/` is always trusted. */
  lemma MisePluginsRemoteTrusted(registry: map<string, RegistryTool>, kinds: set<string>,
                                 parse: string -> Option<Url>, name: string, remote: string)
    requires NormalizeRemote(parse, remote).Ok?
    requires StartsWith(NormalizeRemote(parse, remote).value, MisePluginsPrefix)
    ensures IsTrustedPlugin(registry, kinds, parse, name, remote)
  {
  }

  /** A remote other than the tool's canonical one is not this check's concern. */
  lemma OtherRemoteTrusted(registry: map<string, RegistryTool>, kinds: set<string>,
                           parse: string -> Option<Url>, name: string, remote: string)
    requires name in registry && Backends(registry[name], kinds) != []
    requires CanonicalRemote(parse, Backends(registry[name], kinds)[0]) != NormalizedRemote(parse, remote)
    ensures IsTrustedPlugin(registry, kinds, parse, name, remote)
  {
  }

  /** Trimming `.git` from a path that starts with '/' leaves a path that starts with '/'. */
  lemma {:induction false} TrimmedPathRooted(path: string)
    requires StartsWith(path, "/")
    ensures TrimEndMatches(path, ".git") != [] && TrimEndMatches(path, ".git")[0] == '/'
  {
    if TrimEndMatches(path, ".git") == [] {
      // The path would consist of copies of ".git" only, yet it starts with '/'.
      TrimEndMatchesRemovesCopies(path, ".git");
      RepeatHead(".git", TrimmedCopies(path, ".git"));
      assert false;
    }
  }

  /** The canonical URL of any backend normalizes to a string containing '/', or to `""`. */
  lemma CanonicalRemoteHasSlash(parse: string -> Option<Url>, full: string)
    requires SpecialSchemeParsing(parse)
    ensures CanonicalRemote(parse, full) == [] || '/' in CanonicalRemote(parse, full)
  {
    var url := FullToUrl(full);
    if parse(url).Some? {
      var u := parse(url).value;
      TrimmedPathRooted(u.path);
      var path := TrimEndMatches(u.path, ".git");
      assert (u.host.value + path)[|u.host.value|] == '/';
    }
  }

  /** An unparseable remote is trusted: the sentinel never equals a canonical remote. */
  lemma MalformedRemoteTrusted(registry: map<string, RegistryTool>, kinds: set<string>,
                               parse: string -> Option<Url>, name: string, remote: string)
    requires SpecialSchemeParsing(parse)
    requires NormalizeRemote(parse, remote).Err?
    ensures IsTrustedPlugin(registry, kinds, parse, name, remote)
  {
    if name in registry && Backends(registry[name], kinds) != [] {
      CanonicalRemoteHasSlash(parse, Backends(registry[name], kinds)[0]);
      assert '/' !in InvalidUrl;
    }
  }
}
