/** The client-side stores (stores/repo-store.ts): the selected repository
    with its access token, which is persisted, and the code pane, which is
    not. Each zustand action becomes a method that updates the fields it
    names and nothing else; `persist`'s storage and the React bindings are
    not modelled. */
module RepoStores {

  import opened Outcome
  import opened Http

  const RepositoryNotSetMessage := "Repository not set"

  /** `process.env.NEXT_PUBLIC_GITHUB_TOKEN || null`: an unset or empty
      variable gives no token. */
  function InitialToken(envToken: Option<string>): (r: Option<string>)
    ensures r.Some? <==> envToken.Some? && envToken.value != ""
    ensures r.Some? ==> r == envToken
  {
    if envToken.Some? && envToken.value != "" then envToken else None
  }

  /** The request `fetchFromGitHub` sends: the raw-content `Accept` header,
      plus `Authorization` only for a truthy token. */
  function StoreRequest(owner: string, repo: string, path: string, ref: string, token: Option<string>): (r: Request)
    ensures r.url == ContentsUrl(owner, repo, path, ref)
    ensures HeaderValue(r.headers, "Accept") == Some("application/vnd.github.v3.raw")
    ensures HeaderValue(r.headers, "Authorization").Some? <==> token.Some? && token.value != ""
    ensures token.Some? && token.value != "" ==> HeaderValue(r.headers, "Authorization") == Some("Bearer " + token.value)
  {
    var headers := [("Accept", "application/vnd.github.v3.raw")];
    if token.Some? && token.value != "" then
      Request(ContentsUrl(owner, repo, path, ref), headers + [("Authorization", "Bearer " + token.value)])
    else Request(ContentsUrl(owner, repo, path, ref), headers)
  }

  /** How `fetchFromGitHub` settles on the reply: a non-ok status rejects
      with its status text, an ok one resolves to the body. */
  function StoreFetchResult(response: Response<string>): (r: Result<string>)
    ensures r.Ok? <==> response.Reply? && IsOk(response.status)
    ensures r.Ok? ==> r.value == response.body
    ensures response.Reply? && !IsOk(response.status) ==> r == Err("GitHub API error: " + response.statusText)
  {
    match response
    case NetworkError(m) => Err(m)
    case Reply(status, statusText, body) =>
      if !IsOk(status) then Err("GitHub API error: " + statusText) else Ok(body)
  }

  /** The part of the store that `partialize` hands to storage. */
  datatype PersistedRepo = PersistedRepo(owner: string, name: string, branch: string, githubToken: Option<string>)

  /** `useRepoStore` */
  class RepoStore {
    /** `initialRepoState.githubToken`, read once from the environment. */
    const initialToken: Option<string>
    var owner: string
    var name: string
    var branch: string
    var githubToken: Option<string>

    /** The store's fields equal `initialRepoState`. */
    predicate IsInitial()
      reads this
    {
      owner == "" && name == "" && branch == "main" && githubToken == initialToken
    }

    constructor (envToken: Option<string>)
      ensures initialToken == InitialToken(envToken)
      ensures IsInitial()
    {
      initialToken := InitialToken(envToken);
      owner, name, branch := "", "", "main";
      githubToken := InitialToken(envToken);
    }

    /** `partialize`: exactly owner, name, branch and token. */
    function Persisted(): (p: PersistedRepo)
      reads this
      ensures p.owner == owner && p.name == name && p.branch == branch && p.githubToken == githubToken
    {
      PersistedRepo(owner, name, branch, githubToken)
    }

    /** `setRepo(owner, name, branch)`: the token is kept. */
    method SetRepo(newOwner: string, newName: string, newBranch: string)
      modifies this
      ensures owner == newOwner && name == newName && branch == newBranch
      ensures githubToken == old(githubToken)
    {
      owner, name, branch := newOwner, newName, newBranch;
    }

    /** `setGithubToken(token)`: only the token changes. */
    method SetGithubToken(token: string)
      modifies this
      ensures githubToken == Some(token)
      ensures owner == old(owner) && name == old(name) && branch == old(branch)
    {
      githubToken := Some(token);
    }

    /** `clearRepo()`: every field, the token included, goes back to
      `initialRepoState`. */
    method ClearRepo()
      modifies this
      ensures IsInitial()
    {
      owner, name, branch, githubToken := "", "", "main", initialToken;
    }

    /** `fetchFileContent(filepath)` with the upstream response as input.
        Without an owner or a name it rejects before any request is made
        (`request` is `None`); otherwise it sends the request built from the
        store's fields and settles on the reply. The store is not changed. */
    method FetchFileContent(filepath: string, response: Response<string>) returns (request: Option<Request>, r: Result<string>)
      ensures owner == "" || name == "" ==> request == None && r == Err(RepositoryNotSetMessage)
      ensures owner != "" && name != "" ==>
        && request == Some(StoreRequest(owner, name, filepath, branch, githubToken))
        && r == StoreFetchResult(response)
    {
      if owner == "" || name == "" {
        request, r := None, Err(RepositoryNotSetMessage);
      } else {
        request := Some(StoreRequest(owner, name, filepath, branch, githubToken));
        r := StoreFetchResult(response);
      }
    }
  }

  /** `useCodePaneStore`: not persisted. */
  class CodePaneStore {
    var isCodePaneVisible: bool
    var codeContent: Option<string>

    constructor ()
      ensures !isCodePaneVisible && codeContent == None
    {
      isCodePaneVisible, codeContent := false, None;
    }

    /** `toggleCodePane()`: flips visibility, keeps the content. */
    method ToggleCodePane()
      modifies this
      ensures isCodePaneVisible == !old(isCodePaneVisible)
      ensures codeContent == old(codeContent)
    {
      isCodePaneVisible := !isCodePaneVisible;
    }

    /** `setCodeContent(content)`: replaces the content, keeps visibility. */
    method SetCodeContent(content: Option<string>)
      modifies this
      ensures codeContent == content
      ensures isCodePaneVisible == old(isCodePaneVisible)
    {
      codeContent := content;
    }
  }

  /** A session against the stores: what a caller can rely on from the
      actions' contracts alone. */
  method StoreSession(envToken: Option<string>, response: Response<string>) returns (persisted: PersistedRepo)
    ensures persisted == PersistedRepo("", "", "main", InitialToken(envToken))
  {
    var repo := new RepoStore(envToken);
    var request, r := repo.FetchFileContent("README.md", response);
    assert request == None && r == Err(RepositoryNotSetMessage);
    repo.SetRepo("OpenAgentsInc", "snowball", "main");
    repo.SetGithubToken("t");
    request, r := repo.FetchFileContent("README.md", response);
    assert request.Some? && HeaderValue(request.value.headers, "Authorization") == Some("Bearer " + "t");
    repo.ClearRepo();
    persisted := repo.Persisted();

    var pane := new CodePaneStore();
    pane.SetCodeContent(Some("x"));
    pane.ToggleCodePane();
    pane.ToggleCodePane();
    assert !pane.isCodePaneVisible && pane.codeContent == Some("x");
  }
}
