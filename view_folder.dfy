/** The `view_folder` content handler
    (app/api/tools/handlers/github/view_folder.ts): the same guard chain and
    error handling as `view_file`, but the reply is a JSON listing reduced to
    four fields per entry, in upstream order. */
module ViewFolder {

  import opened Text
  import opened Outcome
  import opened JsValue
  import opened Http
  import opened GithubUtils
  import opened HandlerErrors

  const FolderMissingMessage := "Please specify which folder you want to view"
  const FolderNotAccessibleMessage := "This folder is not publicly accessible"

  /** The body of an upstream reply as `response.json()` sees it: an array of
      entry objects, or a text that is not such an array (the rejection
      message of `json()` or the `TypeError` of `map`). */
  datatype FolderBody = Entries(items: seq<Record>) | NotAListing(message: string)

  /** One formatted entry: exactly `name`, `type`, `path` and `size`. */
  datatype ListingEntry = ListingEntry(name: Value, entryType: Value, path: Value, size: Value)

  /** The arrow function given to `contents.map`. */
  function FormatEntry(item: Record): (e: ListingEntry)
    ensures e.name == Get(item, "name") && e.entryType == Get(item, "type")
    ensures e.path == Get(item, "path") && e.size == Get(item, "size")
  {
    ListingEntry(Get(item, "name"), Get(item, "type"), Get(item, "path"), Get(item, "size"))
  }

  /** Every other key of an upstream entry is dropped: changing it does not
      change the formatted entry. */
  lemma FormatEntryDropsOtherKeys(item: Record, k: string, v: Value)
    requires k != "name" && k != "type" && k != "path" && k != "size"
    ensures FormatEntry(item[k := v]) == FormatEntry(item)
  {
  }

  /** `contents.map(FormatEntry)`: same length, same order, each element the
      four fields of the matching upstream entry. */
  function FormatContents(items: seq<Record>): (r: seq<ListingEntry>)
    ensures |r| == |items|
    ensures forall i :: 0 <= i < |items| ==>
      r[i].name == Get(items[i], "name") && r[i].entryType == Get(items[i], "type")
      && r[i].path == Get(items[i], "path") && r[i].size == Get(items[i], "size")
  {
    if |items| == 0 then [] else [FormatEntry(items[0])] + FormatContents(items[1..])
  }

  /** Formatting a concatenation is concatenating the formatted parts: the
      projection never reorders, drops or merges entries. */
  lemma {:induction false} FormatContentsAppend(a: seq<Record>, b: seq<Record>)
    ensures FormatContents(a + b) == FormatContents(a) + FormatContents(b)
  {
    var whole := FormatContents(a + b);
    var parts := FormatContents(a) + FormatContents(b);
    forall i | 0 <= i < |whole| ensures whole[i] == parts[i] {
      if i < |a| {
        assert (a + b)[i] == a[i];
      } else {
        assert (a + b)[i] == b[i - |a|];
      }
    }
  }

  /** `I couldn't find that folder. Are you sure '<path>' exists in
      <owner>/<repo> on branch '<branch>'?` */
  function CouldNotFindFolder(t: GithubTarget): string {
    "I couldn't find that folder. Are you sure '" + t.path + "' exists in " + t.owner + "/" + t.repo
      + " on branch '" + t.branch + "'?"
  }

  /** The "couldn't find" message echoes the path, `owner/repo` and the
      branch. */
  lemma CouldNotFindFolderEchoes(t: GithubTarget)
    ensures Contains(CouldNotFindFolder(t), t.path)
    ensures Contains(CouldNotFindFolder(t), t.owner + "/" + t.repo)
    ensures Contains(CouldNotFindFolder(t), t.branch)
  {
    EchoesPieces("I couldn't find that folder. Are you sure '", t.path, "' exists in ", t.owner, "/", t.repo,
                 " on branch '", t.branch, "'?");
  }

  /** The JSON-listing request sent with the validated token. */
  function FolderRequest(token: string, t: GithubTarget): Request {
    Request(ContentsUrl(t.owner, t.repo, t.path, t.branch),
            [("Accept", "application/vnd.github.v3+json"),
             ("Authorization", "Bearer " + token),
             ("X-GitHub-Api-Version", "2022-11-28")])
  }

  /** The request the handler sends, or `None` when a guard throws before the
      `fetch`. */
  function FolderFetch(envToken: Option<string>, t: GithubTarget): (r: Option<Request>)
    ensures r.Some? <==> ValidateGitHubToken(envToken).Ok? && IsAllowedPath(t.owner, t.repo, t.path, t.branch)
    ensures r.Some? ==> r.value.url == ContentsUrl(t.owner, t.repo, t.path, t.branch)
                        && HeaderValue(r.value.headers, "Authorization") == Some("Bearer " + envToken.value)
                        && HeaderValue(r.value.headers, "Accept") == Some("application/vnd.github.v3+json")
  {
    var token := ValidateGitHubToken(envToken);
    if token.Err? || t.path == "" || !IsAllowedPath(t.owner, t.repo, t.path, t.branch) then None
    else Some(FolderRequest(token.value, t))
  }

  /** The message thrown inside the `try` for a reply: auth first, then 404,
      then any other non-ok status; `None` for an ok reply. */
  function FolderStatusError(t: GithubTarget, status: nat, statusText: string): Option<string> {
    if status == 401 || status == 403 then Some(AuthFailedMessage)
    else if status == 404 then Some("Folder not found: " + t.path)
    else if !IsOk(status) then Some(ApiErrorMessage(status, statusText))
    else None
  }

  /** `view_folder(params)` with the environment token and the upstream
      response as inputs. */
  function ViewFolder(envToken: Option<string>, t: GithubTarget, response: Response<FolderBody>): (r: Result<seq<ListingEntry>>)
    ensures FolderFetch(envToken, t).None? ==>
      r.Err? && (r.message == TokenMissingMessage || r.message == FolderMissingMessage || r.message == FolderNotAccessibleMessage)
    ensures r.Ok? ==> && FolderFetch(envToken, t).Some? && response.Reply? && IsOk(response.status)
                      && response.body.Entries? && r.value == FormatContents(response.body.items)
  {
    var token := ValidateGitHubToken(envToken);
    if token.Err? then Err(token.message)
    else if t.path == "" then Err(FolderMissingMessage)
    else if !IsAllowedPath(t.owner, t.repo, t.path, t.branch) then Err(FolderNotAccessibleMessage)
    else
      match response
      case NetworkError(m) => Err(Rewrite(m, CouldNotFindFolder(t)))
      case Reply(status, statusText, body) =>
        match FolderStatusError(t, status, statusText)
        case Some(m) => Err(Rewrite(m, CouldNotFindFolder(t)))
        case None =>
          match body
          case Entries(items) => Ok(FormatContents(items))
          case NotAListing(m) => Err(Rewrite(m, CouldNotFindFolder(t)))
  }

  /** The guards, in order: a missing token (not rewritten), then an empty
      folder path, then a refused path. */
  lemma ViewFolderGuards(envToken: Option<string>, t: GithubTarget, response: Response<FolderBody>)
    ensures ValidateGitHubToken(envToken).Err? ==> ViewFolder(envToken, t, response) == Err(TokenMissingMessage)
    ensures ValidateGitHubToken(envToken).Ok? && t.path == "" ==> ViewFolder(envToken, t, response) == Err(FolderMissingMessage)
    ensures ValidateGitHubToken(envToken).Ok? && t.path != "" && !IsAllowedPath(t.owner, t.repo, t.path, t.branch) ==>
              ViewFolder(envToken, t, response) == Err(FolderNotAccessibleMessage)
  {
  }

  /** When no request is sent, the outcome does not depend on the upstream
      response at all. */
  lemma ViewFolderNoFetchWhenRefused(envToken: Option<string>, t: GithubTarget, r1: Response<FolderBody>, r2: Response<FolderBody>)
    requires FolderFetch(envToken, t).None?
    ensures ViewFolder(envToken, t, r1) == ViewFolder(envToken, t, r2)
    ensures ViewFolder(envToken, t, r1).Err?
  {
  }

  /** The outcome of a reply to a request the guards let through: 401 and
      403 end as the apology, 404 as the "couldn't find" message (unless the
      echoed path contains `authentication failed`), any other non-ok status
      as the API error, rethrown unchanged unless its status text contains
      one of the two substrings, and an ok listing as its formatted
      entries. */
  lemma ViewFolderReplyOutcome(envToken: Option<string>, t: GithubTarget, status: nat, statusText: string, body: FolderBody)
    requires FolderFetch(envToken, t).Some?
    ensures var r := ViewFolder(envToken, t, Reply(status, statusText, body));
      && (status == 401 || status == 403 ==> r == Err(AuthApology))
      && (status == 404 ==>
            r == Err(if Contains(t.path, "authentication failed") then AuthApology else CouldNotFindFolder(t)))
      && (status != 401 && status != 403 && status != 404 && !IsOk(status) ==>
            r == Err(if Contains(statusText, "authentication failed") then AuthApology
                     else if Contains(statusText, "not found") then CouldNotFindFolder(t)
                     else ApiErrorMessage(status, statusText)))
      && (IsOk(status) && body.Entries? ==> r == Ok(FormatContents(body.items)))
      && (IsOk(status) && body.NotAListing? ==> r == Err(Rewrite(body.message, CouldNotFindFolder(t))))
  {
    if status == 401 || status == 403 {
      assert FolderStatusError(t, status, statusText) == Some(AuthFailedMessage);
      AuthFailedBecomesApology(CouldNotFindFolder(t));
    } else if status == 404 {
      assert FolderStatusError(t, status, statusText) == Some("Folder not found: " + t.path);
      NotFoundBecomesCouldNotFind("Folder not found: ", t.path, CouldNotFindFolder(t));
    } else if !IsOk(status) {
      assert FolderStatusError(t, status, statusText) == Some(ApiErrorMessage(status, statusText));
      ApiErrorRewrite(status, statusText, CouldNotFindFolder(t));
    } else {
      assert FolderStatusError(t, status, statusText) == None;
    }
  }

  /** A listing is returned only for an allowed path, with a configured
      token, from an ok reply carrying an array, and it has one formatted
      entry per upstream entry, in upstream order. */
  lemma ViewFolderOkOnlyWhenAuthorized(envToken: Option<string>, t: GithubTarget, response: Response<FolderBody>)
    requires ViewFolder(envToken, t, response).Ok?
    ensures IsAllowedPath(t.owner, t.repo, t.path, t.branch)
    ensures t.owner == "OpenAgentsInc" && t.repo == "snowball" && t.branch == "main"
    ensures ValidateGitHubToken(envToken).Ok?
    ensures response.Reply? && IsOk(response.status) && response.body.Entries?
    ensures var listing := ViewFolder(envToken, t, response).value;
      |listing| == |response.body.items|
      && forall i :: 0 <= i < |listing| ==> listing[i] == FormatEntry(response.body.items[i])
  {
    AllowedOnlyOnSnowballMain(t.owner, t.repo, t.path, t.branch);
  }

  /** A rejected `fetch` is rethrown through the same `catch`. */
  lemma ViewFolderRejectedFetch(envToken: Option<string>, t: GithubTarget, m: string)
    requires FolderFetch(envToken, t).Some?
    ensures ViewFolder(envToken, t, NetworkError(m)) == Err(Rewrite(m, CouldNotFindFolder(t)))
    ensures ViewFolder(envToken, t, NetworkError(m)) != Err(m) ==> Contains(m, "authentication failed") || Contains(m, "not found")
  {
  }
}
