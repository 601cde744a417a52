# Snowball's read-only GitHub tool path, in Dafny

This project models the part of Snowball that lets a voice agent read files and
folders of a GitHub repository:

- the intent resolver that turns a spoken request into a tool and its
  parameters;
- the fix-up applied to the parameters an LLM chose;
- the tool catalogue;
- the allow-list that decides which repository paths may be read;
- the two content handlers, `view_file` and `view_folder`, with their guard
  chains and their rewriting of error messages;
- the direct-invocation endpoint `POST /api/tools/route`;
- the client-side repository and code-pane stores.

The model follows the TypeScript closely: the branches, message texts and
constants of the modelled code, except what "## Left out" lists. JavaScript semantics are written out where the code
relies on them:

- truthiness and `a || b` (`JsValue`);
- `includes`, `startsWith`, `toLowerCase` and number rendering in template
  literals (`Text`).

The code never sees the upstream HTTP response directly. Here the response is
an input (`Http.Response`): either a network error or a reply with status,
status text and body. "No request is sent" is stated as "the outcome does not
depend on the response".

Regular expressions are inputs too (`GithubIntents.Pattern`). A pattern is a
function from the intent to its capture, so the model keeps the order in which
patterns are tried and the first-match-wins rule.

The model is organised as one module per source file:

| module | source file |
|---|---|
| `GithubUtils` | `app/api/tools/utils/github.ts` |
| `GroqSelection` | `app/api/tools/llm/groq.ts` |
| `GithubIntents` | `app/api/tools/intents/github.ts` |
| `ToolTypes` | `app/api/tools/types.ts` |
| `HandlerErrors` | the `catch` blocks the two handlers share |
| `ViewFile` | `app/api/tools/handlers/github/view_file.ts` |
| `ViewFolder` | `app/api/tools/handlers/github/view_folder.ts` |
| `ToolRoute` | `app/api/tools/route/route.ts` |
| `RepoStores` | `stores/repo-store.ts` |

The state that the source updates in place is modelled as classes:

- `selectTool` mutates the LLM's result object. It becomes
  `GroqSelection.ToolSelection`.
- The zustand stores become `RepoStores.RepoStore` and
  `RepoStores.CodePaneStore`.

Behaviours of the code worth knowing:

- `normalizeFilePath` has no path-separator check, so `readme.d/x` becomes
  `README.md`. It also does not strip quotes.
- No file applies the 0.5 / 0.7 confidence thresholds.
- The handlers do not answer with HTTP statuses:
  - 401 and 403 end as a thrown apology message;
  - 404 ends as a thrown "couldn't find" message.
- A missing server token fails with
  `GITHUB_TOKEN environment variable is not configured`. This error is thrown
  before the `try`, so it is never rewritten.
- `POST /api/tools/route` does not use the allow-list or the `view_file` handler
  above. It has its own `view_file`, which fetches any path it is given (see
  `ToolRoute.PostBypassesAllowList`).
- The handlers rewrite messages by substring. As a result, a 404 on an
  allowed path whose text contains `authentication failed` ends as the
  authentication apology. `ViewFile.ViewFileReplyOutcome` states this case.

## Model

| member | source | states |
|---|---|---|
| GithubUtils.ValidateGitHubToken | app/api/tools/utils/github.ts:2-8 | succeeds with the token exactly when it is set and non-empty; otherwise fails with the "not configured" message |
| GithubUtils.SomeEntryAllows | app/api/tools/utils/github.ts:45-50 | `some` over the entries: true exactly when one entry ending in `/` is a literal prefix of the path, or one other entry equals the path |
| GithubUtils.IsAllowedPath | app/api/tools/utils/github.ts:26-51 | an empty path, an `owner/repo` key absent from the allow-list, or an unlisted branch is refused; otherwise the path is allowed exactly when some entry allows it |
| GithubUtils.SnowballKeySplit | app/api/tools/utils/github.ts:32-33 | the key `owner/repo` equals `OpenAgentsInc/snowball` only for owner `OpenAgentsInc` and repo `snowball`: the key has a single slash |
| GithubUtils.AllowedOnlyOnSnowballMain | app/api/tools/utils/github.ts:11-23 | true is returned only for owner `OpenAgentsInc`, repo `snowball`, branch `main` |
| GithubUtils.SnowballMainRule | app/api/tools/utils/github.ts:11-23 | on `OpenAgentsInc/snowball`, branch `main`, a path is allowed exactly when it is `README.md` or `package.json`, or starts with `docs/`, `components/`, `app/` or `tools/` |
| GithubUtils.PrefixEntryAllows | app/api/tools/utils/github.ts:45-47 | `docs/guide.md` is allowed |
| GithubUtils.PrefixEntryIsLiteral | app/api/tools/utils/github.ts:45-50 | `docsx/guide.md` and the bare `docs` are refused: the prefix match is literal |
| GithubUtils.ExactEntryAllows | app/api/tools/utils/github.ts:40-50 | `README.md` is allowed on `main` and refused on `dev` |
| GithubUtils.PathOutsideListRefused | app/api/tools/utils/github.ts:12-21 | `src/x` matches no entry and is refused |
| GroqSelection.LookupCommon | app/api/tools/llm/groq.ts:29-34 | the table loop returns the value of the first entry whose key equals the lower-cased name, and nothing when no key does |
| GroqSelection.PrefixRule | app/api/tools/llm/groq.ts:36-49 | a rule gives one of `README.md`, `package.json`, `LICENSE`, and only for a name starting with `readme`, `package` or `license` |
| GroqSelection.NormalizeFilePath | app/api/tools/llm/groq.ts:25-52 | the result is the input unchanged or one of `README.md`, `package.json`, `LICENSE` |
| GroqSelection.CommonFilesAgreeWithPrefixRules | app/api/tools/llm/groq.ts:14-23 | every table entry gives the same canonical name as the prefix rules for its key |
| GroqSelection.NormalizeIsCanonicalName | app/api/tools/llm/groq.ts:25-52 | normalising is: apply the first of the `readme`/`readme.`, `package`/`package.`, `license`/`license.` rules to the lower-cased name, else keep the input with its case |
| GroqSelection.RuleFreeNameKept | app/api/tools/llm/groq.ts:51 | a name that no rule applies to is returned as given |
| GroqSelection.NormalizeUpperCaseReadme | app/api/tools/llm/groq.ts:14-17 | the one input `README.MD` becomes `README.md`, by the table lookup on its lower-cased form (`GroqSelection.NormalizeIsCanonicalName` states the rule for every spelling) |
| GroqSelection.NormalizeReadmePrefixWithSlash | app/api/tools/llm/groq.ts:37-39 | no separator check: `readme.d/x` becomes `README.md` |
| GroqSelection.NormalizeKeepsNestedReadme | app/api/tools/llm/groq.ts:51 | `docs/readme` is kept unchanged |
| GroqSelection.NormalizeKeepsPackages | app/api/tools/llm/groq.ts:42-51 | `packages` is kept unchanged: it starts with `package` but not with `package.` |
| GroqSelection.CanonicalNamesAreFixed | app/api/tools/llm/groq.ts:14-23 | each of the three canonical names normalises to itself |
| GroqSelection.NormalizeIdempotent | app/api/tools/llm/groq.ts:25-52 | normalising twice equals normalising once |
| GroqSelection.FixUpKeepsExplicitKeys | app/api/tools/llm/groq.ts:111-116 | for a `view_` tool the keys are the defaults' keys plus the model's. Every model key other than `path` keeps its value, and a default fills only a key the model left out. The path changes only for a truthy `view_file` path |
| GroqSelection.FixUpNormalizesFilePathOnly | app/api/tools/llm/groq.ts:119-121 | a truthy string path is normalised for `view_file` and left untouched for `view_folder` |
| GroqSelection.FixUpParameters | app/api/tools/llm/groq.ts:110-124 | for a `view_` tool the result's keys are the defaults' keys plus the model's, for any other tool the model's keys; only `view_file` can fail |
| GroqSelection.FixUpLeavesOtherTools | app/api/tools/llm/groq.ts:111 | a tool outside the `view_` family keeps its parameters exactly |
| GroqSelection.FixUpFailsOnlyOnNonStringPath | app/api/tools/llm/groq.ts:119-120 | the fix-up throws exactly when the tool is `view_file` and the path is truthy but not a string |
| GroqSelection.ToolSelection.constructor | app/api/tools/llm/groq.ts:57-64 | the object holds the model's tool, confidence, parameters and reasoning as given |
| GroqSelection.ToolSelection.ApplyGithubFixUp | app/api/tools/llm/groq.ts:110-124 | tool, confidence and reasoning are unchanged. On success the parameters become the fix-up's result. When the path cannot be lower-cased, the merge with the defaults has already happened |
| GithubIntents.FirstCapture | app/api/tools/intents/github.ts:15-22 | nothing when no pattern captures a non-empty text; otherwise the capture of a pattern in the list, with every earlier pattern failing |
| GithubIntents.ExtractFilePath | app/api/tools/intents/github.ts:2-23 | a found path is never empty; no path is found exactly when the intent mentions neither `readme` nor `package.json` (any case) and no file pattern captures a non-empty text |
| GithubIntents.ExtractFolderPath | app/api/tools/intents/github.ts:26-42 | a found path is never empty; no path is found exactly when no folder pattern captures a non-empty text |
| GithubIntents.ExtractFileParams | app/api/tools/intents/github.ts:49-71 | fails exactly when `context.path`, `context.file` and `context.filepath` are all falsy and the intent yields no path, and then with "Please specify which file you want to read"; a success has a truthy path, owner, repo and branch |
| GithubIntents.ExtractFolderParams | app/api/tools/intents/github.ts:76-98 | fails exactly when `context.path`, `context.folder` and `context.directory` are all falsy and the intent yields no path, and then with "Please specify which folder you want to view"; a success has four truthy fields |
| GithubIntents.GithubIntentList | app/api/tools/intents/github.ts:45-100 | two entries, `view_file` then `view_folder`; the first matches exactly the keyword intents and the rest of its pattern, the second exactly the folder pattern |
| GithubIntents.SpecialCasesBeforePatterns | app/api/tools/intents/github.ts:10-22 | an intent mentioning `readme` (any case) gives `README.md`. Failing that, one mentioning `package.json` gives `package.json`. Only then are the patterns tried |
| GithubIntents.FileContextPathWins | app/api/tools/intents/github.ts:51-56 | the first truthy of `context.path`, `context.file`, `context.filepath` is the path, and the intent is not parsed |
| GithubIntents.FileParamsFromIntent | app/api/tools/intents/github.ts:53-70 | with no path in the context, the path comes from the intent. "Please specify which file you want to read" is raised when nothing is extracted |
| GithubIntents.FolderParamsResolution | app/api/tools/intents/github.ts:78-97 | `context.path`, `context.folder`, `context.directory` in that order, then the folder patterns. Failing all of them, "Please specify which folder you want to view" |
| GithubIntents.DefaultsFillFalsyContext | app/api/tools/intents/github.ts:58-63 | owner is `context.owner` else `OpenAgentsInc`; repo is `context.repo` else `context.repository` else `snowball`; branch is `context.branch` else `main` |
| GithubIntents.FirstMatchingIntent | app/api/tools/intents/github.ts:45-100 | a caller scanning the list in order gets nothing when no entry's pattern matches, and otherwise an entry whose pattern matches with every earlier entry failing |
| GithubIntents.KeywordIntentsGoToViewFile | app/api/tools/intents/github.ts:45-48 | under that in-order scan, any intent containing `read`, `view`, `show`, `get` or `fetch`, in any case, resolves to `view_file` with the file extractor's result |
| GithubIntents.ViewFolderOnlyWithoutFileMatch | app/api/tools/intents/github.ts:45-75 | under that in-order scan, `view_folder` is chosen exactly when the `view_file` pattern does not match and the `view_folder` pattern does |
| ToolTypes.ParameterNames | app/api/tools/types.ts:1-11 | a tool's parameter names, in declaration order |
| ToolTypes.RequiredNames | app/api/tools/types.ts:1-11 | a name is listed exactly when some parameter of that name is flagged required |
| ToolTypes.CatalogueShape | app/api/tools/types.ts:13-66 | exactly two tools, `view_file` then `view_folder`, with distinct names. Each declares exactly `path`, `owner`, `repo`, `branch`, all required and all of type `string` |
| ToolTypes.GithubParametersShape | app/api/tools/types.ts:17-37 | the four declared parameters, in order, all required and all strings |
| HandlerErrors.Rewrite | app/api/tools/handlers/github/view_file.ts:40-50 | the `catch` rethrows the message unchanged, or the authentication apology, or the "couldn't find" message |
| HandlerErrors.AuthFailedBecomesApology | app/api/tools/handlers/github/view_file.ts:27-29 | the 401/403 message always ends as the apology, so the cause is not exposed |
| HandlerErrors.NotFoundBecomesCouldNotFind | app/api/tools/handlers/github/view_file.ts:31-33 | the 404 message ends as "couldn't find", unless the path itself contains `authentication failed` |
| HandlerErrors.ApiErrorRewrite | app/api/tools/handlers/github/view_file.ts:35-37 | `GitHub API error: <status> <statusText>` is rethrown unchanged unless the status text contains `authentication failed` or `not found` |
| ViewFile.FileFetch | app/api/tools/handlers/github/view_file.ts:3-25 | a request is sent exactly when the token is configured and the path is allowed. It goes to the contents URL with the raw `Accept` header and `Bearer <token>` |
| ViewFile.ViewFileGuards | app/api/tools/handlers/github/view_file.ts:4-14 | in order: missing token (not rewritten), empty path, refused path, each with its own message |
| ViewFile.ViewFileNoFetchWhenRefused | app/api/tools/handlers/github/view_file.ts:4-14 | when no request is sent, the outcome is an error and does not depend on the response |
| ViewFile.ViewFileReplyOutcome | app/api/tools/handlers/github/view_file.ts:27-50 | 401/403 gives the apology; 404 gives "couldn't find"; another non-ok status gives the API error, rewritten only by substring; an ok reply gives the body unchanged |
| ViewFile.ViewFileOkOnlyWhenAuthorized | app/api/tools/handlers/github/view_file.ts:3-39 | text is returned only with a token, for an allowed path on `OpenAgentsInc/snowball@main`, from an ok reply, and it is the reply's body |
| ViewFile.CouldNotFindFileEchoes | app/api/tools/handlers/github/view_file.ts:46-48 | the "couldn't find" message contains the path, `owner/repo` and the branch |
| HandlerErrors.EchoesPieces | app/api/tools/handlers/github/view_file.ts:47 | a message built as `…'<path>' exists in <owner>/<repo> on branch '<branch>'?` contains the path, `owner/repo` and the branch, whatever the surrounding text |
| ViewFolder.CouldNotFindFolderEchoes | app/api/tools/handlers/github/view_folder.ts:56-58 | the folder "couldn't find" message contains the path, `owner/repo` and the branch |
| ViewFile.ViewFile | app/api/tools/handlers/github/view_file.ts:3-50 | when no request is sent, the outcome is the token, missing-path or not-accessible error; text is returned only from an ok reply to a sent request, and it is the reply's body |
| ViewFile.ViewFileRejectedFetch | app/api/tools/handlers/github/view_file.ts:18-25 | a rejected `fetch` goes through the same `catch`: its message is rethrown unchanged unless it contains `authentication failed` or `not found` |
| ViewFolder.FormatContents | app/api/tools/handlers/github/view_folder.ts:42-47 | same length and order as the listing; each element holds exactly the entry's `name`, `type`, `path`, `size` |
| ViewFolder.FormatContentsAppend | app/api/tools/handlers/github/view_folder.ts:42-47 | the projection of a concatenation is the concatenation of the projections |
| ViewFolder.FormatEntry | app/api/tools/handlers/github/view_folder.ts:42-47 | the entry's `name`, `type`, `path` and `size`, each `undefined` when the upstream entry lacks it |
| ViewFolder.FormatEntryDropsOtherKeys | app/api/tools/handlers/github/view_folder.ts:42-47 | any other key of the upstream entry is dropped: changing it leaves the formatted entry unchanged |
| ViewFolder.ViewFolder | app/api/tools/handlers/github/view_folder.ts:3-60 | when no request is sent, the outcome is the token, missing-path or not-accessible error; a listing is returned only from an ok array reply to a sent request, and it is that array's projection |
| ViewFolder.ViewFolderRejectedFetch | app/api/tools/handlers/github/view_folder.ts:18-25 | a rejected `fetch` goes through the same `catch`: its message is rethrown unchanged unless it contains `authentication failed` or `not found` |
| ViewFolder.FolderFetch | app/api/tools/handlers/github/view_folder.ts:3-25 | a request is sent exactly when the token is configured and the path is allowed, with the JSON `Accept` header and `Bearer <token>` |
| ViewFolder.ViewFolderGuards | app/api/tools/handlers/github/view_folder.ts:4-14 | in order: missing token (not rewritten), empty folder path, refused path |
| ViewFolder.ViewFolderNoFetchWhenRefused | app/api/tools/handlers/github/view_folder.ts:4-14 | when no request is sent, the outcome is an error and does not depend on the response |
| ViewFolder.ViewFolderReplyOutcome | app/api/tools/handlers/github/view_folder.ts:27-60 | 401/403 gives the apology; 404 gives "couldn't find"; another non-ok status gives the API error, rewritten only by substring; an ok listing gives its projection; an ok body that is not an array fails through the same `catch` |
| ViewFolder.ViewFolderOkOnlyWhenAuthorized | app/api/tools/handlers/github/view_folder.ts:3-49 | a listing is returned only with a token, for an allowed path on `OpenAgentsInc/snowball@main`, from an ok array reply, one projected entry per upstream entry |
| ToolRoute.MissingIndices | app/api/tools/route/route.ts:109-110 | the `filter`: positions in strictly increasing schema order, each a required parameter with a falsy value, and every such position listed |
| ToolRoute.MissingParams | app/api/tools/route/route.ts:109-111 | the `map`: the names at those positions, in the same order |
| ToolRoute.MissingParamsExactly | app/api/tools/route/route.ts:109-111 | a name is listed exactly when a required parameter of that name is falsy. The list is empty exactly when every required parameter is present |
| ToolRoute.RouteViewFile | app/api/tools/route/route.ts:7-24 | succeeds exactly when `parameters` can be destructured (neither `undefined` nor `null`) and the reply is ok, with the reply's text; it checks neither token nor allow-list |
| ToolRoute.Post | app/api/tools/route/route.ts:51-152 | the reply status is one of 200, 400, 404, 500, 501, and a 500 is either `Internal server error` or the loading error |
| ToolRoute.PostEarlyExits | app/api/tools/route/route.ts:70-111 | an unparsable body gives 500 whatever the definition; an unknown tool gives 404 `Tool '<tool>' not found`; an unreadable definition gives 500 `Error loading tool '<tool>'`; a definition without `schema.parameters` gives 500 |
| ToolRoute.PostMissingParameters | app/api/tools/route/route.ts:113-118 | missing required parameters give 400 with their names joined by `, `, and no handler runs |
| ToolRoute.MissingMessageNamesEach | app/api/tools/route/route.ts:113-118 | the 400 message contains the name of every missing parameter |
| ToolRoute.PostSuccessAndNoHandler | app/api/tools/route/route.ts:120-139 | a 200 happens exactly for `view_file` with `parameters` present, after validation, on an ok reply, and carries exactly the handler's text `{ result }`. A 501 with `No handler implemented for tool '<tool>'` happens exactly for a validated call to any other tool |
| ToolRoute.PostThrowsBecome500 | app/api/tools/route/route.ts:8-21 | every throw ends as `Internal server error`: missing `parameters` with a required schema entry, missing `parameters` reaching `view_file`, and any rejected fetch or non-ok reply once validation has passed |
| ToolRoute.PostBypassesAllowList | app/api/tools/route/route.ts:6-24 | the endpoint returns the text of `src/x`, a path the allow-list refuses |
| RepoStores.InitialToken | stores/repo-store.ts:26 | the environment token when it is set and non-empty, otherwise none |
| RepoStores.StoreRequest | stores/repo-store.ts:29-40 | the contents URL with the raw `Accept` header, plus `Authorization: Bearer <token>` exactly when the token is truthy |
| RepoStores.StoreFetchResult | stores/repo-store.ts:42-46 | a non-ok reply fails with `GitHub API error: <statusText>`; an ok reply gives its body |
| RepoStores.RepoStore.constructor | stores/repo-store.ts:22-27 | the store starts as `initialRepoState`: owner and name empty, branch `main`, the environment token or none |
| RepoStores.RepoStore.Persisted | stores/repo-store.ts:68-73 | the persisted projection is exactly owner, name, branch and token |
| RepoStores.RepoStore.SetRepo | stores/repo-store.ts:54-55 | sets owner, name and branch; the token is kept |
| RepoStores.RepoStore.SetGithubToken | stores/repo-store.ts:56 | only the token changes |
| RepoStores.RepoStore.ClearRepo | stores/repo-store.ts:57 | every field, the token included, returns to the initial state |
| RepoStores.RepoStore.FetchFileContent | stores/repo-store.ts:58-64 | without an owner or a name it fails with "Repository not set" and sends nothing. Otherwise it sends the request built from the store's fields and settles on the reply |
| RepoStores.CodePaneStore.constructor | stores/repo-store.ts:79-81 | the pane starts hidden with no content |
| RepoStores.CodePaneStore.ToggleCodePane | stores/repo-store.ts:82 | visibility flips; content is kept |
| RepoStores.CodePaneStore.SetCodeContent | stores/repo-store.ts:83 | content is replaced; visibility is kept |
| RepoStores.StoreSession | stores/repo-store.ts:50-84 | fetching before `setRepo` is refused; after `setRepo` and `setGithubToken` the request carries the token; `clearRepo` persists the initial state |
| JsValue.Or | app/api/tools/intents/github.ts:51 | JavaScript's `or` operator gives the left operand when it is truthy and the right operand otherwise, so the result is truthy exactly when one operand is |
| JsValue.Get | app/api/tools/route/route.ts:110 | a missing key reads as `undefined`, a present one as its value |
| Http.HeaderValue | stores/repo-store.ts:30-35 | a found header is one of the given headers; none is found only when no header has that name |
| Text.Lower | app/api/tools/llm/groq.ts:27 | same length; every character lower-cased one by one |
| Text.LowerIdempotent | app/api/tools/llm/groq.ts:27 | lower-casing twice equals lower-casing once |
| Text.NatToString | app/api/tools/handlers/github/view_file.ts:36 | the status is rendered as non-empty decimal digits with no leading zero |
| Text.NatToStringRoundTrip | app/api/tools/handlers/github/view_file.ts:36 | reading the rendered digits back gives the number |
| Text.Join | app/api/tools/route/route.ts:115 | joining nothing gives the empty string; otherwise the result starts with the first part |
| Text.JoinContainsParts | app/api/tools/route/route.ts:115 | every part occurs in the joined text |

## Left out

- The LLM calls (`generateObject` with Groq, the prompt text) and `validateToolSelection` are not modelled. The LLM's answer is an input to `GroqSelection.ToolSelection`.
- Confidence thresholds are not modelled, because no modelled file applies them. Confidence is carried as a number and never inspected.
- HTTP `fetch` is not modelled: its outcome is the input `Http.Response`. Exceptions from reading the body (`response.text()`) are not modelled.
- The regular-expression engine is not modelled. Patterns are inputs, and only their order and first-match-wins are kept. The `view_file` intent pattern's `what's in` and `contents of` alternatives are an input predicate. Its `read`/`view`/`show`/`get`/`fetch` alternatives are matched literally, in any case.
- `findToolDefinition`'s recursive directory search, `readFile` and `JSON.parse` of definitions are not modelled. Their outcome is the input `ToolRoute.DefinitionLookup`.
- Logging (`console.*`), the request-header copy loop in `POST` and reads of `process.env` are not modelled. Environment values are inputs. `persist`'s storage mechanics are not modelled either; only `partialize` is.
- Text.Lower: lower-cases ASCII letters only, because JavaScript's full Unicode case mapping is not modelled.
- `NaN`, and keys inherited through the prototype chain (`context.toString`), are not modelled. Records hold only their own keys.
- The handlers take `path`, `owner`, `repo` and `branch` as strings (`HandlerErrors.GithubTarget`). A non-string value reaching a handler is not modelled.
- A `POST` body whose `tool` is not a string is not modelled. When `parameters` is a string or an array, it is treated as having none of the named properties.
- ToolRoute.RouteViewFile: does not model the endpoint's URL and headers, nor that it sends `Bearer undefined` when no token is set. Only its destructuring, its non-ok rule and its result are stated.
- GithubIntents.FirstMatchingIntent: no file of the repository scans `githubIntents`; the file only declares the ordered list. `FirstMatchingIntent` and `GithubIntents.ResolveIntent` model a caller that tries the entries in list order and uses the first match, so the rows built on them state what the list's order gives such a caller.
- A `view_folder` reply that is not an array is not mapped entry by entry. It is `ViewFolder.FolderBody.NotAListing`, carrying the message the failed `map` throws. Listing items are modelled as objects only.
- ToolRoute.MissingIndices: a schema entry's `required` is a boolean. The code tests it for truthiness.
- The UI components, `app/page.tsx`, `app/layout.tsx` and `app/webhook/route.ts` are not modelled: they have no decision logic on this path.
