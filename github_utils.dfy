/** The token check and the path authorizer of the GitHub tools
    (app/api/tools/utils/github.ts): a constant allow-list of repositories,
    each with its readable paths and its public branches. */
module GithubUtils {

  import opened Text
  import opened Outcome

  const TokenMissingMessage := "GITHUB_TOKEN environment variable is not configured"

  /** `validateGitHubToken()`, with the environment variable `GITHUB_TOKEN`
      passed in (`None` when it is unset). */
  function ValidateGitHubToken(envToken: Option<string>): (r: Result<string>)
    ensures r.Ok? <==> envToken.Some? && envToken.value != ""
    ensures r.Ok? ==> r.value == envToken.value
    ensures r.Err? ==> r.message == TokenMissingMessage
  {
    if envToken.None? || envToken.value == "" then Err(TokenMissingMessage) else Ok(envToken.value)
  }

  /** One allow-list entry: path entries (a trailing `/` marks a directory
      prefix, anything else an exact file) and the readable branches. */
  datatype RepoConfig = RepoConfig(allowedPaths: seq<string>, publicBranches: seq<string>)

  /** `ALLOWED_REPOS`, keyed by `owner/repo`. */
  const AllowedRepos: map<string, RepoConfig> := map[
    "OpenAgentsInc/snowball" := RepoConfig(
      ["README.md", "package.json", "docs/", "components/", "app/", "tools/"],
      ["main"])
  ]

  /** The test applied to one allow-list entry. */
  predicate EntryAllows(entry: string, path: string) {
    if EndsWith(entry, "/") then StartsWith(path, entry) else path == entry
  }

  /** `entries.some(entry => ...)`, scanning the list from the front. */
  function SomeEntryAllows(entries: seq<string>, path: string): (r: bool)
    ensures r <==> exists i :: 0 <= i < |entries| && EntryAllows(entries[i], path)
  {
    if |entries| == 0 then false
    else EntryAllows(entries[0], path) || SomeEntryAllows(entries[1..], path)
  }

  function RepoKey(owner: string, repo: string): string {
    owner + "/" + repo
  }

  /** `isAllowedPath(owner, repo, filepath, branch)`: refused for an empty
      path, an `owner/repo` absent from the allow-list or a branch it does not
      list; otherwise allowed exactly when some entry allows the path. */
  function IsAllowedPath(owner: string, repo: string, filepath: string, branch: string): (r: bool)
    ensures filepath == "" ==> !r
    ensures RepoKey(owner, repo) !in AllowedRepos ==> !r
    ensures RepoKey(owner, repo) in AllowedRepos && branch !in AllowedRepos[RepoKey(owner, repo)].publicBranches ==> !r
    ensures r <==> filepath != "" && RepoKey(owner, repo) in AllowedRepos
                   && branch in AllowedRepos[RepoKey(owner, repo)].publicBranches
                   && exists e :: e in AllowedRepos[RepoKey(owner, repo)].allowedPaths && EntryAllows(e, filepath)
  {
    if filepath == "" then false
    else
      var key := RepoKey(owner, repo);
      if key !in AllowedRepos then false
      else if branch !in AllowedRepos[key].publicBranches then false
      else SomeEntryAllows(AllowedRepos[key].allowedPaths, filepath)
  }

  /** `owner/repo` splits at its only `/`: the one key of the allow-list
      determines both the owner and the repository. */
  lemma SnowballKeySplit(owner: string, repo: string)
    requires RepoKey(owner, repo) == "OpenAgentsInc/snowball"
    ensures owner == "OpenAgentsInc" && repo == "snowball"
  {
    var key := "OpenAgentsInc/snowball";
    assert RepoKey(owner, repo)[|owner|] == '/';
    assert forall i :: 0 <= i < |key| && key[i] == '/' ==> i == 13;
    assert |owner| == 13;
    assert owner == RepoKey(owner, repo)[..13];
    assert repo == RepoKey(owner, repo)[14..];
  }

  /** Only `OpenAgentsInc/snowball` on `main`, with a non-empty path, can ever
      be allowed. */
  lemma AllowedOnlyOnSnowballMain(owner: string, repo: string, filepath: string, branch: string)
    requires IsAllowedPath(owner, repo, filepath, branch)
    ensures owner == "OpenAgentsInc" && repo == "snowball" && branch == "main" && filepath != ""
  {
    assert RepoKey(owner, repo) in AllowedRepos;
    SnowballKeySplit(owner, repo);
  }

  /** The allow-list of `OpenAgentsInc/snowball` on `main`, written out: two
      exact files and four directory prefixes, matched literally (no
      path-segment check). */
  predicate SnowballReadable(path: string) {
    || path == "README.md"
    || path == "package.json"
    || StartsWith(path, "docs/")
    || StartsWith(path, "components/")
    || StartsWith(path, "app/")
    || StartsWith(path, "tools/")
  }

  lemma SnowballMainRule(filepath: string)
    ensures IsAllowedPath("OpenAgentsInc", "snowball", filepath, "main") <==> SnowballReadable(filepath)
  {
    var entries := ["README.md", "package.json", "docs/", "components/", "app/", "tools/"];
    assert RepoKey("OpenAgentsInc", "snowball") == "OpenAgentsInc/snowball";
    assert AllowedRepos[RepoKey("OpenAgentsInc", "snowball")].allowedPaths == entries;
    assert "main" in AllowedRepos[RepoKey("OpenAgentsInc", "snowball")].publicBranches;
    assert EntryAllows(entries[0], filepath) <==> filepath == "README.md";
    assert EntryAllows(entries[1], filepath) <==> filepath == "package.json";
    assert EntryAllows(entries[2], filepath) <==> StartsWith(filepath, "docs/");
    assert EntryAllows(entries[3], filepath) <==> StartsWith(filepath, "components/");
    assert EntryAllows(entries[4], filepath) <==> StartsWith(filepath, "app/");
    assert EntryAllows(entries[5], filepath) <==> StartsWith(filepath, "tools/");
    if SnowballReadable(filepath) {
      assert filepath != "";
      assert exists i :: 0 <= i < 6 && EntryAllows(entries[i], filepath);
    }
    if IsAllowedPath("OpenAgentsInc", "snowball", filepath, "main") {
      assert SomeEntryAllows(entries, filepath);
      var i :| 0 <= i < 6 && EntryAllows(entries[i], filepath);
      assert i == 0 || i == 1 || i == 2 || i == 3 || i == 4 || i == 5;
    }
  }

  /** A directory entry matches by literal prefix: `docs/guide.md` is
      readable. */
  lemma PrefixEntryAllows()
    ensures IsAllowedPath("OpenAgentsInc", "snowball", "docs/guide.md", "main")
  {
    SnowballMainRule("docs/guide.md");
    assert "docs/guide.md"[..5] == "docs/";
  }

  /** The prefix is not path-segment aware, but it is literal: `docsx/guide.md`
      is refused, and so is the bare directory name `docs`. */
  lemma PrefixEntryIsLiteral()
    ensures !IsAllowedPath("OpenAgentsInc", "snowball", "docsx/guide.md", "main")
    ensures !IsAllowedPath("OpenAgentsInc", "snowball", "docs", "main")
  {
    DocsxNotReadable();
    SnowballMainRule("docsx/guide.md");
    SnowballMainRule("docs");
    NotStartsWithAt("docs", "app/", 0);
  }

  lemma DocsxNotReadable()
    ensures !SnowballReadable("docsx/guide.md")
  {
    NotStartsWithAt("docsx/guide.md", "docs/", 4);
    NotStartsWithAt("docsx/guide.md", "components/", 0);
    NotStartsWithAt("docsx/guide.md", "app/", 0);
    NotStartsWithAt("docsx/guide.md", "tools/", 0);
  }

  /** An exact entry matches itself, on a public branch only. */
  lemma ExactEntryAllows()
    ensures IsAllowedPath("OpenAgentsInc", "snowball", "README.md", "main")
    ensures !IsAllowedPath("OpenAgentsInc", "snowball", "README.md", "dev")
  {
    SnowballMainRule("README.md");
    assert RepoKey("OpenAgentsInc", "snowball") == "OpenAgentsInc/snowball";
    assert "dev" !in AllowedRepos["OpenAgentsInc/snowball"].publicBranches;
  }

  /** A path under no entry is refused. */
  lemma PathOutsideListRefused()
    ensures !IsAllowedPath("OpenAgentsInc", "snowball", "src/x", "main")
  {
    SnowballMainRule("src/x");
    NotStartsWithAt("src/x", "docs/", 0);
    NotStartsWithAt("src/x", "components/", 0);
    NotStartsWithAt("src/x", "app/", 0);
    NotStartsWithAt("src/x", "tools/", 0);
  }
}
