/** The `view_file` content handler
    (app/api/tools/handlers/github/view_file.ts): a fixed chain of guards
    (token, non-empty path, allow-list), then one authenticated fetch of the
    raw file, then a status-to-error map inside a `try` whose `catch`
    rewrites messages by substring. The fetch is not modelled: its response
    is an input, used only when the guards let the request through. */
module ViewFile {

  import opened Text
  import opened Outcome
  import opened Http
  import opened GithubUtils
  import opened HandlerErrors

  const FileMissingMessage := "Please specify which file you want to read"
  const FileNotAccessibleMessage := "This file is not publicly accessible"

  /** `I couldn't find that file. Are you sure '<path>' exists in
      <owner>/<repo> on branch '<branch>'?` */
  function CouldNotFindFile(t: GithubTarget): string {
    "I couldn't find that file. Are you sure '" + t.path + "' exists in " + t.owner + "/" + t.repo
      + " on branch '" + t.branch + "'?"
  }

  /** The raw-content request sent with the validated token. */
  function FileRequest(token: string, t: GithubTarget): Request {
    Request(ContentsUrl(t.owner, t.repo, t.path, t.branch),
            [("Accept", "application/vnd.github.v3.raw"),
             ("Authorization", "Bearer " + token),
             ("X-GitHub-Api-Version", "2022-11-28")])
  }

  /** The request the handler sends, or `None` when a guard throws before the
      `fetch`. */
  function FileFetch(envToken: Option<string>, t: GithubTarget): (r: Option<Request>)
    ensures r.Some? <==> ValidateGitHubToken(envToken).Ok? && IsAllowedPath(t.owner, t.repo, t.path, t.branch)
    ensures r.Some? ==> r.value.url == ContentsUrl(t.owner, t.repo, t.path, t.branch)
                        && HeaderValue(r.value.headers, "Authorization") == Some("Bearer " + envToken.value)
                        && HeaderValue(r.value.headers, "Accept") == Some("application/vnd.github.v3.raw")
  {
    var token := ValidateGitHubToken(envToken);
    if token.Err? || t.path == "" || !IsAllowedPath(t.owner, t.repo, t.path, t.branch) then None
    else Some(FileRequest(token.value, t))
  }

  /** The message thrown inside the `try` for a reply: auth first, then 404,
      then any other non-ok status; `None` for an ok reply. */
  function FileStatusError(t: GithubTarget, status: nat, statusText: string): Option<string> {
    if status == 401 || status == 403 then Some(AuthFailedMessage)
    else if status == 404 then Some("File not found: " + t.path)
    else if !IsOk(status) then Some(ApiErrorMessage(status, statusText))
    else None
  }

  /** `view_file(params)` with the environment token and the upstream
      response as inputs. */
  function ViewFile(envToken: Option<string>, t: GithubTarget, response: Response<string>): (r: Result<string>)
    ensures FileFetch(envToken, t).None? ==>
      r.Err? && (r.message == TokenMissingMessage || r.message == FileMissingMessage || r.message == FileNotAccessibleMessage)
    ensures r.Ok? ==> FileFetch(envToken, t).Some? && response.Reply? && IsOk(response.status) && r.value == response.body
  {
    var token := ValidateGitHubToken(envToken);
    if token.Err? then Err(token.message)
    else if t.path == "" then Err(FileMissingMessage)
    else if !IsAllowedPath(t.owner, t.repo, t.path, t.branch) then Err(FileNotAccessibleMessage)
    else
      match response
      case NetworkError(m) => Err(Rewrite(m, CouldNotFindFile(t)))
      case Reply(status, statusText, body) =>
        match FileStatusError(t, status, statusText)
        case Some(m) => Err(Rewrite(m, CouldNotFindFile(t)))
        case None => Ok(body)
  }

  /** The guards, in order: a missing token (thrown outside the `try`, so not
      rewritten), then an empty path, then a refused path. */
  lemma ViewFileGuards(envToken: Option<string>, t: GithubTarget, response: Response<string>)
    ensures ValidateGitHubToken(envToken).Err? ==> ViewFile(envToken, t, response) == Err(TokenMissingMessage)
    ensures ValidateGitHubToken(envToken).Ok? && t.path == "" ==> ViewFile(envToken, t, response) == Err(FileMissingMessage)
    ensures ValidateGitHubToken(envToken).Ok? && t.path != "" && !IsAllowedPath(t.owner, t.repo, t.path, t.branch) ==>
              ViewFile(envToken, t, response) == Err(FileNotAccessibleMessage)
  {
  }

  /** When no request is sent, the outcome does not depend on the upstream
      response at all. */
  lemma ViewFileNoFetchWhenRefused(envToken: Option<string>, t: GithubTarget, r1: Response<string>, r2: Response<string>)
    requires FileFetch(envToken, t).None?
    ensures ViewFile(envToken, t, r1) == ViewFile(envToken, t, r2)
    ensures ViewFile(envToken, t, r1).Err?
  {
  }

  /** The outcome of a reply to a request the guards let through: 401 and
      403 end as the apology, 404 as the "couldn't find" message (unless the
      echoed path contains `authentication failed`), any other non-ok status
      as the API error rethrown unchanged (unless the status text contains
      one of the two substrings), and an ok reply as the body unchanged. */
  lemma ViewFileReplyOutcome(envToken: Option<string>, t: GithubTarget, status: nat, statusText: string, body: string)
    requires FileFetch(envToken, t).Some?
    ensures var r := ViewFile(envToken, t, Reply(status, statusText, body));
      && (status == 401 || status == 403 ==> r == Err(AuthApology))
      && (status == 404 ==>
            r == Err(if Contains(t.path, "authentication failed") then AuthApology else CouldNotFindFile(t)))
      && (status != 401 && status != 403 && status != 404 && !IsOk(status) ==>
            r == Err(if Contains(statusText, "authentication failed") then AuthApology
                     else if Contains(statusText, "not found") then CouldNotFindFile(t)
                     else ApiErrorMessage(status, statusText)))
      && (IsOk(status) ==> r == Ok(body))
  {
    if status == 401 || status == 403 {
      AuthFailedBecomesApology(CouldNotFindFile(t));
    } else if status == 404 {
      NotFoundBecomesCouldNotFind("File not found: ", t.path, CouldNotFindFile(t));
    } else if !IsOk(status) {
      ApiErrorRewrite(status, statusText, CouldNotFindFile(t));
    }
  }

  /** A rejected `fetch` is rethrown through the same `catch`. */
  lemma ViewFileRejectedFetch(envToken: Option<string>, t: GithubTarget, m: string)
    requires FileFetch(envToken, t).Some?
    ensures ViewFile(envToken, t, NetworkError(m)) == Err(Rewrite(m, CouldNotFindFile(t)))
    ensures ViewFile(envToken, t, NetworkError(m)) != Err(m) ==> Contains(m, "authentication failed") || Contains(m, "not found")
  {
  }

  /** File text is returned only for an allowed path, with a configured
      token, from an ok reply, and it is the body unchanged. */
  lemma ViewFileOkOnlyWhenAuthorized(envToken: Option<string>, t: GithubTarget, response: Response<string>)
    requires ViewFile(envToken, t, response).Ok?
    ensures IsAllowedPath(t.owner, t.repo, t.path, t.branch)
    ensures t.owner == "OpenAgentsInc" && t.repo == "snowball" && t.branch == "main"
    ensures ValidateGitHubToken(envToken).Ok?
    ensures response.Reply? && IsOk(response.status)
    ensures ViewFile(envToken, t, response).value == response.body
  {
    AllowedOnlyOnSnowballMain(t.owner, t.repo, t.path, t.branch);
  }

  /** The "couldn't find" message echoes the path, `owner/repo` and the
      branch. */
  lemma CouldNotFindFileEchoes(t: GithubTarget)
    ensures Contains(CouldNotFindFile(t), t.path)
    ensures Contains(CouldNotFindFile(t), t.owner + "/" + t.repo)
    ensures Contains(CouldNotFindFile(t), t.branch)
  {
    EchoesPieces("I couldn't find that file. Are you sure '", t.path, "' exists in ", t.owner, "/", t.repo,
                 " on branch '", t.branch, "'?");
  }
}
