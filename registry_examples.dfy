/**
 * The trust rule on a one-tool registry, with the URL parser pinned down only on the strings
 * each case needs.
 */
module RegistryExamples {
  import opened Wrappers
  import opened Text
  import opened Registry

  /** A registry holding `poetry` with one backend. */
  function PoetryRegistry(full: string): map<string, RegistryTool> {
    map["poetry" := RegistryTool("poetry", [full], [], None, [])]
  }

  /** How the parser reads `https://github.com<path>`. */
  function GitHubUrl(path: string): Url {
    Url("https", "", None, Some("github.com"), path, None, None)
  }

  /** A GitHub URL whose path has no trailing `.git` normalizes to host and path. */
  lemma GitHubRemote(parse: string -> Option<Url>, remote: string, path: string)
    requires parse(remote) == Some(GitHubUrl(path))
    requires !EndsWith(path, ".git")
    ensures NormalizeRemote(parse, remote) == Ok("github.com" + path)
  {
  }

  /** The normalized remote of the vetted poetry plugin lies in the vetted organization. */
  lemma MisePoetryInVettedOrg()
    ensures StartsWith("github.com" + "/mise-plugins/mise-poetry", MisePluginsPrefix)
  {
    var r := "github.com" + "/mise-plugins/mise-poetry";
    assert r[..|MisePluginsPrefix|] == "github.com" + "/mise-plugins/";
  }

  /** The remote in the vetted organization is trusted. */
  lemma PoetryMisePluginsTrusted(parse: string -> Option<Url>)
    requires parse("https://github.com/mise-plugins/mise-poetry") == Some(GitHubUrl("/mise-plugins/mise-poetry"))
    ensures IsTrustedPlugin(PoetryRegistry("asdf:mise-plugins/mise-poetry"), {"asdf"}, parse,
                            "poetry", "https://github.com/mise-plugins/mise-poetry")
  {
    var path := "/mise-plugins/mise-poetry";
    assert !EndsWith(path, ".git") by {
      assert path[|path| - 1] != ".git"[3];
    }
    GitHubRemote(parse, "https://github.com/mise-plugins/mise-poetry", path);
    MisePoetryInVettedOrg();
    MisePluginsRemoteTrusted(PoetryRegistry("asdf:mise-plugins/mise-poetry"), {"asdf"}, parse,
                             "poetry", "https://github.com/mise-plugins/mise-poetry");
  }

  /** The default backend of `asdf:<loc>` and its canonical URL, for any locator not already a URL. */
  lemma AsdfCanonicalUrl(loc: string)
    requires !StartsWith(loc, "https://")
    ensures Ba(PoetryRegistry("asdf:" + loc)["poetry"], {"asdf"}) == Some(BackendArg("poetry", "asdf:" + loc))
    ensures FullToUrl("asdf:" + loc) == "https://github.com/" + loc + ".git"
  {
    LocatorOf("asdf", loc);
    assert "asdf:" + loc == "asdf" + ":" + loc;
  }

  /**
   * The canonical URL of `asdf:<loc>` and the remote `https://github.com/<loc>` both normalize
   * to `github.com/<loc>` with trailing `.git` copies removed.
   */
  lemma AsdfCanonicalRemote(parse: string -> Option<Url>, loc: string)
    requires !StartsWith(loc, "https://")
    requires parse("https://github.com/" + loc) == Some(GitHubUrl("/" + loc))
    requires parse("https://github.com/" + loc + ".git") == Some(GitHubUrl("/" + loc + ".git"))
    ensures NormalizedRemote(parse, "https://github.com/" + loc) == "github.com" + TrimEndMatches("/" + loc, ".git")
    ensures CanonicalRemote(parse, "asdf:" + loc) == NormalizedRemote(parse, "https://github.com/" + loc)
  {
    AsdfCanonicalUrl(loc);
    TrimEndMatchesAppend("/" + loc, ".git");
  }

  /**
   * The registry's own canonical remote for a tool outside the vetted organization is flagged:
   * `is_trusted_plugin` returns false.
   */
  lemma AsdfShorthandFlagged(parse: string -> Option<Url>, loc: string)
    requires !StartsWith(loc, "https://")
    requires parse("https://github.com/" + loc) == Some(GitHubUrl("/" + loc))
    requires parse("https://github.com/" + loc + ".git") == Some(GitHubUrl("/" + loc + ".git"))
    requires !StartsWith("github.com" + TrimEndMatches("/" + loc, ".git"), MisePluginsPrefix)
    ensures !IsTrustedPlugin(PoetryRegistry("asdf:" + loc), {"asdf"}, parse, "poetry", "https://github.com/" + loc)
  {
    var registry := PoetryRegistry("asdf:" + loc);
    AsdfCanonicalUrl(loc);
    AsdfCanonicalRemote(parse, loc);
    assert Ba(registry["poetry"], {"asdf"}).value.full == "asdf:" + loc;
  }

  /** `other-org/mise-poetry` has no `.git` to trim and lies outside the vetted organization. */
  lemma OtherOrgNotVetted()
    ensures !StartsWith("github.com" + TrimEndMatches("/" + "other-org/mise-poetry", ".git"), MisePluginsPrefix)
  {
    var path := "/" + "other-org/mise-poetry";
    assert !EndsWith(path, ".git") by {
      assert path[|path| - 1] != ".git"[3];
    }
    assert ("github.com" + path)[11] != MisePluginsPrefix[11];
  }

  /** The poetry plugin from another organization, at the registry's canonical remote, is flagged. */
  lemma PoetryOtherOrgFlagged(parse: string -> Option<Url>)
    requires parse("https://github.com/" + "other-org/mise-poetry") == Some(GitHubUrl("/other-org/mise-poetry"))
    requires parse("https://github.com/" + "other-org/mise-poetry" + ".git")
             == Some(GitHubUrl("/other-org/mise-poetry" + ".git"))
    ensures !IsTrustedPlugin(PoetryRegistry("asdf:" + "other-org/mise-poetry"), {"asdf"}, parse,
                             "poetry", "https://github.com/" + "other-org/mise-poetry")
  {
    var loc := "other-org/mise-poetry";
    assert "/other-org/mise-poetry" == "/" + loc;
    assert !StartsWith(loc, "https://") by {
      assert loc[0] != "https://"[0];
    }
    OtherOrgNotVetted();
    AsdfShorthandFlagged(parse, loc);
  }

  /** A remote that does not parse is trusted, for a name the registry knows. */
  lemma UnparseableRemoteTrusted(parse: string -> Option<Url>)
    requires SpecialSchemeParsing(parse)
    requires parse("not a url").None?
    ensures IsTrustedPlugin(PoetryRegistry("asdf:mise-plugins/mise-poetry"), {"asdf"}, parse, "poetry", "not a url")
  {
    MalformedRemoteTrusted(PoetryRegistry("asdf:mise-plugins/mise-poetry"), {"asdf"}, parse, "poetry", "not a url");
  }
}
