/** The deterministic intent resolver of the GitHub tools
    (app/api/tools/intents/github.ts): an ordered list of intent patterns,
    each with a parameter extractor that prefers the request context, falls
    back to phrase patterns over the intent text, and fills in the default
    owner, repository and branch.

    The regular-expression engine is not modelled. A phrase pattern is a
    function from the intent to its first capture group (`None` when the
    pattern does not match); only the order in which the patterns are tried
    and the first-match-wins rule are kept. */
module GithubIntents {

  import opened Text
  import opened Outcome
  import opened JsValue

  /** `intent.match(pattern)?.[1]`. */
  type Pattern = string -> Option<string>

  /** `match && match[1]`: the pattern matched and captured a non-empty text. */
  predicate Captured(m: Option<string>) {
    m.Some? && m.value != ""
  }

  /** The `for ... of` loop over a pattern list: the capture of the first
      pattern, in list order, that captures something. */
  function FirstCapture(patterns: seq<Pattern>, intent: string): (r: Option<string>)
    ensures r.None? <==> forall i :: 0 <= i < |patterns| ==> !Captured(patterns[i](intent))
    ensures r.Some? ==> exists i :: 0 <= i < |patterns| && patterns[i](intent) == r && r.value != ""
                                    && forall j :: 0 <= j < i ==> !Captured(patterns[j](intent))
  {
    if |patterns| == 0 then None
    else if Captured(patterns[0](intent)) then patterns[0](intent)
    else
      var r := FirstCapture(patterns[1..], intent);
      assert r.Some? ==> exists i :: 1 <= i < |patterns| && patterns[i](intent) == r && r.value != ""
                                    && forall j :: 0 <= j < i ==> !Captured(patterns[j](intent)) by {
        if r.Some? {
          var i :| 0 <= i < |patterns[1..]| && patterns[1..][i](intent) == r && r.value != ""
                   && forall j :: 0 <= j < i ==> !Captured(patterns[1..][j](intent));
          assert patterns[i + 1] == patterns[1..][i];
          forall j | 0 <= j < i + 1 ensures !Captured(patterns[j](intent)) {
            if j > 0 { assert patterns[j] == patterns[1..][j - 1]; }
          }
        }
      }
      assert r.None? ==> forall i :: 0 <= i < |patterns| ==> !Captured(patterns[i](intent)) by {
        if r.None? {
          forall i | 0 <= i < |patterns| ensures !Captured(patterns[i](intent)) {
            if i > 0 { assert patterns[i] == patterns[1..][i - 1]; }
          }
        }
      }
      r
  }

  /** `extractFilePath(intent)`: the README and `package.json` special cases,
      checked case-insensitively before any pattern, then the file patterns. */
  function ExtractFilePath(filePatterns: seq<Pattern>, intent: string): (r: Option<string>)
    ensures r.Some? ==> r.value != ""
    ensures r.None? <==> && !Contains(Lower(intent), "readme") && !Contains(Lower(intent), "package.json")
                         && forall i :: 0 <= i < |filePatterns| ==> !Captured(filePatterns[i](intent))
  {
    if Contains(Lower(intent), "readme") then Some("README.md")
    else if Contains(Lower(intent), "package.json") then Some("package.json")
    else FirstCapture(filePatterns, intent)
  }

  /** `extractFolderPath(intent)`: the folder patterns only. */
  function ExtractFolderPath(folderPatterns: seq<Pattern>, intent: string): (r: Option<string>)
    ensures r.Some? ==> r.value != ""
    ensures r.None? <==> forall i :: 0 <= i < |folderPatterns| ==> !Captured(folderPatterns[i](intent))
  {
    FirstCapture(folderPatterns, intent)
  }

  /** The parameters both extractors build. */
  datatype GithubParams = GithubParams(path: Value, owner: Value, repo: Value, branch: Value)

  const FileMissingMessage := "Please specify which file you want to read"
  const FolderMissingMessage := "Please specify which folder you want to view"

  function OptionToValue(o: Option<string>): Value {
    if o.Some? then Str(o.value) else Null
  }

  /** The record built from a resolved path: owner, repository and branch
      from the context, each falling back to its default. */
  function WithDefaults(path: Value, context: Record): GithubParams {
    GithubParams(
      path,
      Or(Get(context, "owner"), Str("OpenAgentsInc")),
      Or(Or(Get(context, "repo"), Get(context, "repository")), Str("snowball")),
      Or(Get(context, "branch"), Str("main")))
  }

  /** The `view_file` entry's `extractParams(intent, context)`: it fails,
      with the file message, exactly when the context has no truthy path key
      and the intent yields no path; a success has four truthy fields. */
  function ExtractFileParams(filePatterns: seq<Pattern>, intent: string, context: Record): (r: Result<GithubParams>)
    ensures r.Err? <==> && !Truthy(Get(context, "path")) && !Truthy(Get(context, "file")) && !Truthy(Get(context, "filepath"))
                        && ExtractFilePath(filePatterns, intent).None?
    ensures r.Err? ==> r.message == FileMissingMessage
    ensures r.Ok? ==> Truthy(r.value.path) && Truthy(r.value.owner) && Truthy(r.value.repo) && Truthy(r.value.branch)
  {
    var fromContext := Or(Or(Get(context, "path"), Get(context, "file")), Get(context, "filepath"));
    var filepath := if Truthy(fromContext) then fromContext else OptionToValue(ExtractFilePath(filePatterns, intent));
    var params := WithDefaults(filepath, context);
    if !Truthy(params.path) then Err(FileMissingMessage) else Ok(params)
  }

  /** The `view_folder` entry's `extractParams(intent, context)`: it fails,
      with the folder message, exactly when the context has no truthy path
      key and the intent yields no path; a success has four truthy fields. */
  function ExtractFolderParams(folderPatterns: seq<Pattern>, intent: string, context: Record): (r: Result<GithubParams>)
    ensures r.Err? <==> && !Truthy(Get(context, "path")) && !Truthy(Get(context, "folder")) && !Truthy(Get(context, "directory"))
                        && ExtractFolderPath(folderPatterns, intent).None?
    ensures r.Err? ==> r.message == FolderMissingMessage
    ensures r.Ok? ==> Truthy(r.value.path) && Truthy(r.value.owner) && Truthy(r.value.repo) && Truthy(r.value.branch)
  {
    var fromContext := Or(Or(Get(context, "path"), Get(context, "folder")), Get(context, "directory"));
    var folderpath := if Truthy(fromContext) then fromContext else OptionToValue(ExtractFolderPath(folderPatterns, intent));
    var params := WithDefaults(folderpath, context);
    if !Truthy(params.path) then Err(FolderMissingMessage) else Ok(params)
  }

  /** The special cases come first: an intent that mentions the README, in
      any case, names `README.md`, whatever the patterns would capture; one
      that mentions `package.json` (and no README) names `package.json`. */
  lemma SpecialCasesBeforePatterns(filePatterns: seq<Pattern>, intent: string)
    ensures Contains(Lower(intent), "readme") ==> ExtractFilePath(filePatterns, intent) == Some("README.md")
    ensures !Contains(Lower(intent), "readme") && Contains(Lower(intent), "package.json") ==>
              ExtractFilePath(filePatterns, intent) == Some("package.json")
    ensures !Contains(Lower(intent), "readme") && !Contains(Lower(intent), "package.json") ==>
              ExtractFilePath(filePatterns, intent) == FirstCapture(filePatterns, intent)
  {
  }

  /** A truthy `context.path`, then `context.file`, then `context.filepath`
      is used as the file path and the intent is not parsed. */
  lemma FileContextPathWins(filePatterns: seq<Pattern>, intent: string, context: Record)
    ensures Truthy(Get(context, "path")) ==>
      ExtractFileParams(filePatterns, intent, context) == Ok(WithDefaults(context["path"], context))
    ensures !Truthy(Get(context, "path")) && Truthy(Get(context, "file")) ==>
      ExtractFileParams(filePatterns, intent, context) == Ok(WithDefaults(context["file"], context))
    ensures !Truthy(Get(context, "path")) && !Truthy(Get(context, "file")) && Truthy(Get(context, "filepath")) ==>
      ExtractFileParams(filePatterns, intent, context) == Ok(WithDefaults(context["filepath"], context))
  {
  }

  /** With no path in the context the file path comes from the intent, and
      the extractor fails with the "please specify" message exactly when the
      intent yields none. */
  lemma FileParamsFromIntent(filePatterns: seq<Pattern>, intent: string, context: Record)
    requires !Truthy(Get(context, "path")) && !Truthy(Get(context, "file")) && !Truthy(Get(context, "filepath"))
    ensures ExtractFilePath(filePatterns, intent).None? ==> ExtractFileParams(filePatterns, intent, context) == Err(FileMissingMessage)
    ensures ExtractFilePath(filePatterns, intent).Some? ==>
      ExtractFileParams(filePatterns, intent, context) == Ok(WithDefaults(Str(ExtractFilePath(filePatterns, intent).value), context))
  {
  }

  /** A truthy `context.path`, then `context.folder`, then
      `context.directory` is used as the folder path; otherwise it comes from
      the intent, and the extractor fails exactly when there is none. */
  lemma FolderParamsResolution(folderPatterns: seq<Pattern>, intent: string, context: Record)
    ensures Truthy(Get(context, "path")) ==>
      ExtractFolderParams(folderPatterns, intent, context) == Ok(WithDefaults(context["path"], context))
    ensures !Truthy(Get(context, "path")) && Truthy(Get(context, "folder")) ==>
      ExtractFolderParams(folderPatterns, intent, context) == Ok(WithDefaults(context["folder"], context))
    ensures !Truthy(Get(context, "path")) && !Truthy(Get(context, "folder")) && Truthy(Get(context, "directory")) ==>
      ExtractFolderParams(folderPatterns, intent, context) == Ok(WithDefaults(context["directory"], context))
    ensures !Truthy(Get(context, "path")) && !Truthy(Get(context, "folder")) && !Truthy(Get(context, "directory")) ==>
      ExtractFolderParams(folderPatterns, intent, context) ==
        (match FirstCapture(folderPatterns, intent)
         case None => Err(FolderMissingMessage)
         case Some(p) => Ok(WithDefaults(Str(p), context)))
  {
  }

  /** The defaults: owner `OpenAgentsInc`, repository `snowball`, branch
      `main`, each replaced by a truthy context value (`repo` before
      `repository`). The result is always a string when the context holds
      only strings. */
  lemma DefaultsFillFalsyContext(path: Value, context: Record)
    ensures var p := WithDefaults(path, context);
      && p.path == path
      && (!Truthy(Get(context, "owner")) ==> p.owner == Str("OpenAgentsInc"))
      && (Truthy(Get(context, "owner")) ==> p.owner == context["owner"])
      && (!Truthy(Get(context, "repo")) && !Truthy(Get(context, "repository")) ==> p.repo == Str("snowball"))
      && (Truthy(Get(context, "repo")) ==> p.repo == context["repo"])
      && (!Truthy(Get(context, "repo")) && Truthy(Get(context, "repository")) ==> p.repo == context["repository"])
      && (!Truthy(Get(context, "branch")) ==> p.branch == Str("main"))
      && (Truthy(Get(context, "branch")) ==> p.branch == context["branch"])
      && Truthy(p.owner) && Truthy(p.repo) && Truthy(p.branch)
  {
  }

  /** The regular expressions of the module, abstracted. `fileIntentRest`
      stands for the `what'?s?\\s+in|contents?\\s+of` alternatives of the
      `view_file` intent pattern (whose `\\s` matches a backslash and an `s`,
      not white space), `folderIntent` for the whole `view_folder` intent
      pattern; `filePatterns` and `folderPatterns` are the phrase patterns of
      the two extractors, in source order. */
  datatype Regexes = Regexes(
    fileIntentRest: string -> bool,
    folderIntent: string -> bool,
    filePatterns: seq<Pattern>,
    folderPatterns: seq<Pattern>)

  /** The keyword alternatives of the `view_file` intent pattern, matched
      case-insensitively anywhere in the intent. */
  predicate HasFileKeyword(intent: string) {
    var lower := Lower(intent);
    Contains(lower, "read") || Contains(lower, "view") || Contains(lower, "show")
      || Contains(lower, "get") || Contains(lower, "fetch")
  }

  /** One entry of `githubIntents`. */
  datatype IntentEntry = IntentEntry(
    tool: string,
    matches: string -> bool,
    extractParams: (string, Record) -> Result<GithubParams>)

  /** `githubIntents`: `view_file` first, then `view_folder`. */
  function GithubIntentList(rx: Regexes): (r: seq<IntentEntry>)
    ensures |r| == 2 && r[0].tool == "view_file" && r[1].tool == "view_folder"
    ensures forall intent :: r[0].matches(intent) <==> HasFileKeyword(intent) || rx.fileIntentRest(intent)
    ensures forall intent :: r[1].matches(intent) <==> rx.folderIntent(intent)
  {
    [ IntentEntry("view_file",
                  (intent: string) => HasFileKeyword(intent) || rx.fileIntentRest(intent),
                  (intent: string, context: Record) => ExtractFileParams(rx.filePatterns, intent, context)),
      IntentEntry("view_folder",
                  rx.folderIntent,
                  (intent: string, context: Record) => ExtractFolderParams(rx.folderPatterns, intent, context)) ]
  }

  /** The first entry, in list order, whose pattern matches the intent. */
  function FirstMatchingIntent(entries: seq<IntentEntry>, intent: string): (r: Option<nat>)
    ensures r.None? <==> forall i :: 0 <= i < |entries| ==> !entries[i].matches(intent)
    ensures r.Some? ==> r.value < |entries| && entries[r.value].matches(intent)
                        && forall j :: 0 <= j < r.value ==> !entries[j].matches(intent)
  {
    if |entries| == 0 then None
    else if entries[0].matches(intent) then Some(0)
    else
      var r := FirstMatchingIntent(entries[1..], intent);
      if r.None? then
        assert forall i :: 0 <= i < |entries| ==> !entries[i].matches(intent) by {
          forall i | 0 <= i < |entries| ensures !entries[i].matches(intent) {
            if i > 0 { assert entries[i] == entries[1..][i - 1]; }
          }
        }
        None
      else
        assert entries[r.value + 1] == entries[1..][r.value];
        assert forall j :: 0 <= j < r.value + 1 ==> !entries[j].matches(intent) by {
          forall j | 0 <= j < r.value + 1 ensures !entries[j].matches(intent) {
            if j > 0 { assert entries[j] == entries[1..][j - 1]; }
          }
        }
        Some(r.value + 1)
  }

  /** Resolving an intent with the list: the tool of the first matching
      entry and the outcome of its extractor, or `None` when nothing
      matches. */
  function ResolveIntent(rx: Regexes, intent: string, context: Record): Option<(string, Result<GithubParams>)> {
    var entries := GithubIntentList(rx);
    match FirstMatchingIntent(entries, intent)
    case None => None
    case Some(i) => Some((entries[i].tool, entries[i].extractParams(intent, context)))
  }

  /** Any intent containing `read`, `view`, `show`, `get` or `fetch`, in any
      case, goes to `view_file`, whatever the folder pattern says: the
      `view_file` entry comes first. */
  lemma KeywordIntentsGoToViewFile(rx: Regexes, intent: string, context: Record)
    requires HasFileKeyword(intent)
    ensures ResolveIntent(rx, intent, context) == Some(("view_file", ExtractFileParams(rx.filePatterns, intent, context)))
  {
    var entries := GithubIntentList(rx);
    assert entries[0].matches(intent);
  }

  /** `view_folder` is chosen only for an intent that has none of the file
      keywords, fails the rest of the file pattern, and matches the folder
      pattern. */
  lemma ViewFolderOnlyWithoutFileMatch(rx: Regexes, intent: string, context: Record)
    ensures (ResolveIntent(rx, intent, context).Some? && ResolveIntent(rx, intent, context).value.0 == "view_folder") <==>
      !HasFileKeyword(intent) && !rx.fileIntentRest(intent) && rx.folderIntent(intent)
  {
    var entries := GithubIntentList(rx);
    assert entries[0].matches(intent) <==> HasFileKeyword(intent) || rx.fileIntentRest(intent);
    assert entries[1].matches(intent) <==> rx.folderIntent(intent);
  }
}
