# mise tool registry: backend filtering, trust check and `mise registry` listing

This project models two pieces of mise's tool registry in Dafny and proves properties of them.

- `src/registry.rs`. A registry entry (`RegistryTool`) lists full backend names of the form
  `kind:locator`, default first. `backends()` keeps those whose kind is allowed. The allowed
  kinds are every `BackendType` kind, minus the disabled ones, minus `asdf` on Windows, and minus
  `aqua` on Unix when experimental features are off. The module also models `is_supported_os`,
  `ba` (the default backend), `full_to_url` and `normalize_remote`. Its main rule is
  `is_trusted_plugin`: a plugin remote is flagged only when it is the registry's own canonical
  remote for that name and lies outside `github.com/mise-plugins/`.
- `src/cli/registry.rs`. `mise registry <name>` prints one tool's allowed backends.
  `mise registry [--backend kind]` builds `(short, full)` rows from the registry, drops rows
  whose `full` is empty, adds `core:<short>` rows for the core plugins, and sorts by `short`.

Files:

- `registry.dfy` (module `Registry`) models `src/registry.rs`.
- `cli_registry.dfy` (module `CliRegistry`) models `src/cli/registry.rs`. `Run` is a method
  because the source extends a mutable `data` vector.
- `registry_examples.dfy` holds concrete trust cases on a one-tool registry.
- `seqs.dfy`, `text.dfy` and `wrappers.dfy` are the iterator, string and Option/Result helpers
  the two modules share.

The lazily built kind set `BACKEND_TYPES` is a value. The function
`Registry.BackendTypes` defines it. The method `Registry.InitBackendTypes` builds it with the
source's removal loop. Every filtering function takes that value as its `kinds` parameter.
The generated `REGISTRY` table, `CORE_PLUGINS`, the settings, the `cfg!` platform flags, the
host OS name and `Url::parse` are parameters too.

## Model

| member | source | states |
|---|---|---|
| `Registry.BackendTypes` | src/registry.rs:27-41 | a kind is allowed iff it is a known kind, is not disabled, is not `asdf` on Windows and is not `aqua` on Unix without experimental features |
| `Registry.InitBackendTypes` | src/registry.rs:27-41 | the one-time initializer (start from all kinds, remove each disabled one in a loop, then the platform exclusions) builds exactly `BackendTypes` |
| `Registry.Kind` | src/registry.rs:45-47 | the kind is the prefix of the full name before its first `:`, or the whole name if there is none |
| `Registry.KindOfPrefixed` | src/registry.rs:45-47 | a full name starting with `kind:` has that kind, for a kind without `:` |
| `Seqs.Filter` | src/registry.rs:42-50 | `filter(..).collect()` holds exactly the elements of its input that pass the test, and is no longer than its input |
| `Seqs.FilterSubsequence` | src/registry.rs:42-50 | what the filter keeps is an order-preserving subsequence of its input |
| `Seqs.FilterCounts` | src/registry.rs:42-50 | the filter keeps each passing element as often as it occurs and drops every other element |
| `Seqs.FilterHead` | src/registry.rs:58-59 | the first element kept by a filter is the first element of the input that passes |
| `Registry.Backends` | src/registry.rs:42-50 | a backend is in `backends()` iff it is declared and its kind is allowed |
| `Registry.BackendsKeepOrder` | src/registry.rs:42-50 | `backends()` is an order-preserving subsequence of the declared backends, nothing reordered or duplicated, and keeps each allowed backend as often as it is declared |
| `Registry.DisabledKindDropped` | src/registry.rs:31-33 | a backend whose kind is disabled never survives the filter |
| `Registry.EnabledKindKept` | src/registry.rs:28-48 | a declared backend of a known kind survives unless it is disabled or excluded by the platform, so enabling a kind again or turning experimental on restores it |
| `Registry.WindowsHasNoAsdf` | src/registry.rs:34-36 | on Windows no `asdf` backend is returned, whatever the other settings |
| `Registry.UnixStableHasNoAqua` | src/registry.rs:37-39 | on Unix with experimental features off no `aqua` backend is returned |
| `Registry.IsSupportedOs` | src/registry.rs:53-55 | a tool supports the host iff its OS list is empty or names the host |
| `Registry.Ba` | src/registry.rs:57-61 | `ba()` is `None` iff no declared backend is allowed; otherwise it pairs the tool's short name with the first declared backend whose kind is allowed |
| `Registry.NormalizeRemote` | src/registry.rs:76-81 | a parse failure is an error, a hostless URL is an error (the source panics there), anything else is normalized |
| `Registry.NormalizeRemoteShape` | src/registry.rs:76-81 | a normalized remote is the host followed by a prefix of the path that does not end in `.git`; the removed rest of the path is copies of `.git` |
| `Registry.NormalizeIgnoresAllButHostAndPath` | src/registry.rs:76-81 | URLs with the same host and the same path, up to one trailing `.git`, normalize alike whatever their scheme, credentials, query and fragment |
| `Registry.NormalizeRemoteIdempotent` | src/registry.rs:79 | normalizing again a URL made of a normalized host and path gives the same result |
| `Text.TrimEndMatches` | src/registry.rs:79 | `trim_end_matches` returns a prefix of its input that no longer ends with the pattern |
| `Text.TrimEndMatchesRemovesCopies` | src/registry.rs:79 | the input is the trimmed result followed by copies of the pattern, so every repeated trailing `.git` is removed |
| `Text.TrimEndMatchesIdempotent` | src/registry.rs:79 | trimming twice is trimming once |
| `Text.TrimEndMatchesAppend` | src/registry.rs:79 | a path with one more `.git` appended trims to the same result |
| `Registry.Locator` | src/registry.rs:84 | `split_once(':')` yields the text after the first `:` as the locator, or the whole name when it has no `:` |
| `Registry.LocatorOf` | src/registry.rs:84 | `kind:loc` splits back into `kind` and `loc` |
| `Registry.FullToUrl` | src/registry.rs:83-90 | the canonical URL always starts with `https://`; an `https://` locator is kept verbatim, any other becomes `https://github.com/<locator>.git` |
| `Registry.NormalizedRemote` | src/registry.rs:65 | `unwrap_or("INVALID_URL")`: the normalized remote when it normalizes, the `INVALID_URL` sentinel otherwise |
| `Registry.CanonicalRemote` | src/registry.rs:68-70 | `map(full_to_url)` then `unwrap_or_default()`: the normalized canonical URL of a backend, `""` when it does not normalize |
| `Registry.IsTrustedPlugin` | src/registry.rs:64-74 | a remote is untrusted iff all of these hold: the name is registered, it has a default backend, that backend's normalized canonical URL equals the normalized remote, and the remote is outside `github.com/mise-plugins/` |
| `Registry.UnknownNameTrusted` | src/registry.rs:66-70 | a name absent from the registry never blocks a remote |
| `Registry.NoAllowedBackendTrusted` | src/registry.rs:66-70 | a tool with no allowed backend never blocks a remote |
| `Registry.MisePluginsRemoteTrusted` | src/registry.rs:71-73 | a remote that normalizes into `github.com/mise-plugins/` is always trusted |
| `Registry.OtherRemoteTrusted` | src/registry.rs:66-73 | a remote other than the tool's canonical one is trusted |
| `Registry.CanonicalRemoteHasSlash` | src/registry.rs:69-70 | with a parser that gives `https` URLs a host and a rooted path, a canonical remote normalizes to `""` or to a string containing `/` |
| `Registry.MalformedRemoteTrusted` | src/registry.rs:65-73 | a remote that does not normalize is trusted: the `INVALID_URL` sentinel can never equal a canonical remote |
| `RegistryExamples.PoetryMisePluginsTrusted` | src/registry.rs:64-74 | `poetry` with remote `https://github.com/mise-plugins/mise-poetry` is trusted |
| `RegistryExamples.UnparseableRemoteTrusted` | src/registry.rs:64-74 | `poetry` with remote `not a url` is trusted |
| `RegistryExamples.AsdfCanonicalUrl` | src/registry.rs:57-61 | for `asdf:<loc>` with any locator not starting with `https://`, `ba()` is that backend and its canonical URL is `https://github.com/<loc>.git` |
| `RegistryExamples.AsdfCanonicalRemote` | src/registry.rs:65-70 | for any such locator, the canonical URL `https://github.com/<loc>.git` and the remote `https://github.com/<loc>` both normalize to `github.com/<loc>` with trailing `.git` copies removed |
| `RegistryExamples.AsdfShorthandFlagged` | src/registry.rs:64-74 | for any such locator, the registry's own canonical remote of an `asdf:<loc>` tool is not trusted when it normalizes outside `github.com/mise-plugins/` |
| `RegistryExamples.PoetryOtherOrgFlagged` | src/registry.rs:64-74 | `poetry` registered as `asdf:other-org/mise-poetry`, with remote `https://github.com/other-org/mise-poetry`, is not trusted |
| `CliRegistry.Lookup` | src/cli/registry.rs:38-43 | a named lookup succeeds iff the name is registered; otherwise it fails with `tool not found in registry: <name>` |
| `CliRegistry.LookupListsBackends` | src/cli/registry.rs:39-40 | for a registered tool with at least one allowed backend, none of which holds a space, the printed line splits on spaces back into `backends()` |
| `Text.Join` | src/cli/registry.rs:47-48 | a join with a non-empty separator is empty iff there are no parts, or a single empty part |
| `Text.SplitJoin` | src/cli/registry.rs:40 | splitting undoes `join` for a non-empty list of parts, none of which contains the separator |
| `CliRegistry.HasKindPrefix` | src/cli/registry.rs:31 | the test `full.starts_with("<backend>:")` on a full backend name |
| `CliRegistry.FilterBackend` | src/cli/registry.rs:27-37 | without `--backend` a row uses the raw declared backends; with `--backend k` it holds exactly the declared backends that are allowed and start with `k:` |
| `CliRegistry.FilterBackendKeepsOrder` | src/cli/registry.rs:28-33 | with `--backend k` the row keeps the order of `backends()` |
| `CliRegistry.FilterBackendOfKind` | src/cli/registry.rs:28-33 | under `--backend k`, every backend shown has kind `k`, and `k` is allowed |
| `CliRegistry.FilterBackendIsOneFilter` | src/cli/registry.rs:28-33 | the settings filter followed by the `k:` filter is one filter of the declared backends by both tests |
| `CliRegistry.RegistryRow` | src/cli/registry.rs:47 | a registry row has the key as `short`, and its `full` is empty iff no backend is shown or the only one shown is empty |
| `CliRegistry.KeyRows` | src/cli/registry.rs:45-47 | the `map` stage yields one row per registry key, in iteration order |
| `CliRegistry.RegistryRows` | src/cli/registry.rs:45-49 | a registry row is listed iff its key is in the registry and its `full` is non-empty; rows are not repeated |
| `CliRegistry.RegistryRowDropped` | src/cli/registry.rs:47-48 | when no declared backend is the empty string, a row is dropped exactly when its backend list is empty |
| `CliRegistry.IncludesCore` | src/cli/registry.rs:50 | core rows are added when there is no `--backend` or it is `core` |
| `CliRegistry.CoreRows` | src/cli/registry.rs:51-53 | the core rows are exactly `(short, "core:" + short)` for the core plugin keys |
| `Text.LexLessEq` | src/cli/registry.rs:58 | the order `String::cmp` compares `short` names by: lexicographic by character |
| `Text.LexLessEqRefl` | src/cli/registry.rs:58 | every name is at most itself |
| `Text.LexLessEqTotal` | src/cli/registry.rs:58 | any two names are comparable |
| `Text.LexLessEqTrans` | src/cli/registry.rs:58 | the order is transitive |
| `Text.LexLessEqAntisym` | src/cli/registry.rs:58 | two names each at most the other are equal, so rows with different names never tie |
| `CliRegistry.SortByShort` | src/cli/registry.rs:56-59 | the result is sorted by `short` and is a permutation of the input |
| `CliRegistry.InsertAdjacentSorted` | src/cli/registry.rs:56-59 | inserting a row into rows whose neighbours are ordered by `short` keeps the neighbours ordered |
| `CliRegistry.AdjacentSortedIsSorted` | src/cli/registry.rs:56-59 | rows whose neighbours are ordered by `short` are ordered throughout, because string order is transitive |
| `CliRegistry.SortStable` | src/cli/registry.rs:56-59 | rows with the same `short` keep their relative order |
| `CliRegistry.NamedMembers` | src/cli/registry.rs:56-59 | the rows picked for a short name are exactly the rows with that name |
| `CliRegistry.SortedHeadLeast` | src/cli/registry.rs:56-59 | the first row of a sorted sequence has the least short name |
| `CliRegistry.SortedNamedDetermined` | src/cli/registry.rs:56-59 | two sorted sequences that agree, for every short name, on the order of the rows with that name are equal |
| `CliRegistry.SortByShortUnique` | src/cli/registry.rs:56-59 | a stable sort by `short` has exactly one possible result: any sorted sequence that keeps each name's rows in input order is `SortByShort`'s |
| `CliRegistry.SortStableAppend` | src/cli/registry.rs:54-59 | after sorting the registry rows extended by the core rows, each name's registry rows come first, in order, then its core rows |
| `CliRegistry.AssembledRowsListed` | src/cli/registry.rs:45-59 | any permutation of the assembled rows holds exactly the registry rows with a non-empty `full`, plus the core rows when they are included |
| `CliRegistry.Run` | src/cli/registry.rs:26-65 | a named lookup prints the allowed backends joined by spaces or fails with not-found, and ignores `--backend`; the listing is sorted by `short`, is a permutation of the registry rows plus the core rows (added only without `--backend` or with `--backend core`), and holds exactly the listed rows; rows with the same `short` appear registry rows first, each group in its input order, which with `SortByShortUnique` fixes the listing completely |

## Left out

- The generated `REGISTRY` table (src/registry.rs:12) is not modelled as data. It is a `map` parameter. Its BTreeMap iteration order is a `keys` parameter that enumerates the map once. `CORE_PLUGINS` is a `coreKeys` parameter.
- `SETTINGS`, `cfg!(windows)`, `cfg!(unix)` and `std::env::consts::OS` are inputs: `Settings` and `hostOs`.
- The `BackendType` enumeration is a set of kind names (`universe`). A `--backend` value is its kind name.
- `once_cell::Lazy` and its one-time synchronized initialization are not modelled. The kind set is a value built once by `InitBackendTypes` and passed to the filtering functions.
- `Url::parse` is a parameter `parse`. `MalformedRemoteTrusted` assumes (`SpecialSchemeParsing`) that an `https` URL that parses has a host and a path starting with `/`, which the WHATWG URL standard guarantees for special schemes.
- Registry.NormalizeRemote: the source panics in `host_str().unwrap()` on a parsed URL without a host. The model returns `Err(MissingHost)`, and `IsTrustedPlugin` then trusts that remote like an unparseable one.
- `BackendArg::new` is not modelled. `ba()` returns the `(short, full)` pair it is built from.
- The `aliases` and `test` fields are carried in `RegistryTool` but nothing in this core reads them.
- Printing, `tabled` rendering, clap argument parsing, the help text and the snapshot test are not modelled. `Run` returns the line or the rows it would print.
- Strings are sequences of Unicode characters. Rust compares `String`s by UTF-8 bytes. That is the same order as comparing by code point, which is what `LexLessEq` does.

## Behaviour worth noting

- A remote that does not parse is trusted: `is_shorthand` is false for it, so `is_trusted_plugin` returns true (`MalformedRemoteTrusted`, `UnparseableRemoteTrusted`).
- Without `--backend`, a listing row shows the tool's raw `backends` field, not `backends()`. A tool whose backends are all disabled is still listed (`FilterBackend`).
- A named lookup ignores `--backend`. It prints `backends()` whatever kind was given (`Run`).
