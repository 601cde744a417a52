/** What happens to the LLM's tool choice after the structured-generation call
    returns (app/api/tools/llm/groq.ts): default owner, repository and branch
    are filled in for the GitHub tools, and loose file names are mapped to the
    canonical `README.md`, `package.json` and `LICENSE`. The call itself is not
    modelled: its output object is the input of this module. */
module GroqSelection {

  import opened Text
  import opened Outcome
  import opened JsValue

  /** `DEFAULTS` */
  const Defaults: Record := map[
    "owner" := Str("OpenAgentsInc"),
    "repo" := Str("snowball"),
    "branch" := Str("main")
  ]

  /** `COMMON_FILES`, in the order `Object.entries` lists it. */
  const CommonFiles: seq<(string, string)> := [
    ("readme", "README.md"),
    ("readme.md", "README.md"),
    ("readme.markdown", "README.md"),
    ("package", "package.json"),
    ("package.json", "package.json"),
    ("license", "LICENSE"),
    ("license.md", "LICENSE"),
    ("license.txt", "LICENSE")
  ]

  /** The `for ... of` loop over the table, returning at the first entry whose
      key equals `key`. */
  function LookupCommon(table: seq<(string, string)>, key: string): (r: Option<string>)
    ensures r.None? <==> forall i :: 0 <= i < |table| ==> table[i].0 != key
    ensures r.Some? ==> exists i :: 0 <= i < |table| && table[i] == (key, r.value)
                                    && forall j :: 0 <= j < i ==> table[j].0 != key
  {
    if |table| == 0 then None
    else if table[0].0 == key then Some(table[0].1)
    else
      var r := LookupCommon(table[1..], key);
      assert r.Some? ==> exists i :: 1 <= i < |table| && table[i] == (key, r.value)
                                    && forall j :: 0 <= j < i ==> table[j].0 != key by {
        if r.Some? {
          var i :| 0 <= i < |table[1..]| && table[1..][i] == (key, r.value)
                   && forall j :: 0 <= j < i ==> table[1..][j].0 != key;
          assert table[i + 1] == (key, r.value);
          forall j | 0 <= j < i + 1 ensures table[j].0 != key {
            if j > 0 { assert table[j] == table[1..][j - 1]; }
          }
        }
      }
      r
  }

  /** The three prefix rules applied to a lower-cased name: `readme` and
      anything starting with `readme.`, then the same for `package` and
      `license`. */
  function PrefixRule(lower: string): (r: Option<string>)
    ensures r.Some? ==> r.value == "README.md" || r.value == "package.json" || r.value == "LICENSE"
    ensures r.Some? ==> StartsWith(lower, "readme") || StartsWith(lower, "package") || StartsWith(lower, "license")
  {
    if lower == "readme" || StartsWith(lower, "readme.") then
      (if lower != "readme" then StartsWithShorter(lower, "readme", "."); Some("README.md") else Some("README.md"))
    else if lower == "package" || StartsWith(lower, "package.") then
      (if lower != "package" then StartsWithShorter(lower, "package", "."); Some("package.json") else Some("package.json"))
    else if lower == "license" || StartsWith(lower, "license.") then
      (if lower != "license" then StartsWithShorter(lower, "license", "."); Some("LICENSE") else Some("LICENSE"))
    else None
  }

  /** `normalizeFilePath(path)`: table lookup on the lower-cased name, then
      the prefix rules; anything else is returned as given, with its case
      kept. There is no check for a path separator. */
  function NormalizeFilePath(path: string): (r: string)
    ensures r == path || r == "README.md" || r == "package.json" || r == "LICENSE"
  {
    var lower := Lower(path);
    var hit := LookupCommon(CommonFiles, lower);
    if hit.Some? then hit.value
    else
      match PrefixRule(lower)
      case Some(canonical) => canonical
      case None => path
  }

  /** Every table entry maps its key to what the prefix rules give that key. */
  lemma CommonFilesAgreeWithPrefixRules(i: nat)
    requires i < |CommonFiles|
    ensures PrefixRule(CommonFiles[i].0) == Some(CommonFiles[i].1)
  {
    if i == 1 {
      assert StartsWith("readme.md", "readme.");
    } else if i == 2 {
      assert StartsWith("readme.markdown", "readme.");
    } else if i == 3 {
      NotStartsWithAt("package", "readme.", 0);
    } else if i == 4 {
      NotStartsWithAt("package.json", "readme.", 0);
      assert StartsWith("package.json", "package.");
    } else if i == 5 {
      NotStartsWithAt("license", "readme.", 0);
      NotStartsWithAt("license", "package.", 0);
    } else if i == 6 {
      NotStartsWithAt("license.md", "readme.", 0);
      NotStartsWithAt("license.md", "package.", 0);
      assert StartsWith("license.md", "license.");
    } else if i == 7 {
      NotStartsWithAt("license.txt", "readme.", 0);
      NotStartsWithAt("license.txt", "package.", 0);
      assert StartsWith("license.txt", "license.");
    }
  }

  /** The rule `NormalizeFilePath` amounts to: the table is subsumed by the
      prefix rules, so the lower-cased name alone decides the result. */
  function CanonicalName(path: string): string {
    match PrefixRule(Lower(path))
    case Some(canonical) => canonical
    case None => path
  }

  lemma NormalizeIsCanonicalName(path: string)
    ensures NormalizeFilePath(path) == CanonicalName(path)
  {
    var lower := Lower(path);
    var hit := LookupCommon(CommonFiles, lower);
    if hit.Some? {
      var i :| 0 <= i < |CommonFiles| && CommonFiles[i] == (lower, hit.value);
      CommonFilesAgreeWithPrefixRules(i);
    }
  }

  /** A name no prefix rule applies to is returned as given. */
  lemma RuleFreeNameKept(path: string)
    requires PrefixRule(Lower(path)) == None
    ensures NormalizeFilePath(path) == path
  {
    NormalizeIsCanonicalName(path);
  }

  /** The upper-case spelling `README.MD` becomes `README.md` through the
      table lookup on its lower-cased form; `NormalizeIsCanonicalName` states
      the rule for every spelling. */
  lemma NormalizeUpperCaseReadme()
    ensures NormalizeFilePath("README.MD") == "README.md"
  {
    assert Lower("README.MD") == "readme.md";
  }

  /** A prefix match needs no separator check: `readme.d/x` is a README. */
  lemma NormalizeReadmePrefixWithSlash()
    ensures NormalizeFilePath("readme.d/x") == "README.md"
  {
    LowerKeepsLowerCase("readme.d/x");
    assert StartsWith("readme.d/x", "readme.");
    NormalizeIsCanonicalName("readme.d/x");
  }

  /** A name in a sub-directory is not a table key and starts with no rule's
      prefix, so it is kept. */
  lemma NormalizeKeepsNestedReadme()
    ensures NormalizeFilePath("docs/readme") == "docs/readme"
  {
    LowerKeepsLowerCase("docs/readme");
    NoRuleForDocsReadme();
    RuleFreeNameKept("docs/readme");
  }

  lemma NoRuleForDocsReadme()
    ensures PrefixRule("docs/readme") == None
  {
    NotStartsWithAt("docs/readme", "readme.", 0);
    NotStartsWithAt("docs/readme", "package.", 0);
    NotStartsWithAt("docs/readme", "license.", 0);
  }

  /** `packages` starts with `package` but not with `package.`, so it is kept. */
  lemma NormalizeKeepsPackages()
    ensures NormalizeFilePath("packages") == "packages"
  {
    LowerKeepsLowerCase("packages");
    NoRuleForPackages();
    RuleFreeNameKept("packages");
  }

  lemma NoRuleForPackages()
    ensures PrefixRule("packages") == None
  {
    NotStartsWithAt("packages", "readme.", 0);
    NotStartsWithAt("packages", "package.", 7);
    NotStartsWithAt("packages", "license.", 0);
  }

  /** The three canonical names are fixed points of the normaliser. */
  lemma CanonicalNamesAreFixed(name: string)
    requires name == "README.md" || name == "package.json" || name == "LICENSE"
    ensures NormalizeFilePath(name) == name
  {
    if name == "README.md" {
      ReadmeIsFixed();
    } else if name == "package.json" {
      PackageJsonIsFixed();
    } else {
      LicenseIsFixed();
    }
  }

  lemma ReadmeIsFixed()
    ensures NormalizeFilePath("README.md") == "README.md"
  {
    LowerReadmeMd();
    NormalizeIsCanonicalName("README.md");
    CommonFilesAgreeWithPrefixRules(1);
  }

  lemma LowerReadmeMd()
    ensures Lower("README.md") == "readme.md"
  {
  }

  lemma PackageJsonIsFixed()
    ensures NormalizeFilePath("package.json") == "package.json"
  {
    LowerKeepsLowerCase("package.json");
    NormalizeIsCanonicalName("package.json");
    CommonFilesAgreeWithPrefixRules(4);
  }

  lemma LicenseIsFixed()
    ensures NormalizeFilePath("LICENSE") == "LICENSE"
  {
    LowerLicense();
    NormalizeIsCanonicalName("LICENSE");
    CommonFilesAgreeWithPrefixRules(5);
  }

  lemma LowerLicense()
    ensures Lower("LICENSE") == "license"
  {
  }

  /** Normalising twice is normalising once. */
  lemma NormalizeIdempotent(path: string)
    ensures NormalizeFilePath(NormalizeFilePath(path)) == NormalizeFilePath(path)
  {
    var r := NormalizeFilePath(path);
    if r != path {
      CanonicalNamesAreFixed(r);
    }
  }

  /** The parameters after the fix-up of `selectTool`, or the `TypeError`
      raised when a truthy non-string `path` reaches `toLowerCase`. */
  function FixUpParameters(tool: string, parameters: Record): (r: Result<Record>)
    ensures r.Ok? ==> r.value.Keys == (if StartsWith(tool, "view_") then Defaults.Keys + parameters.Keys else parameters.Keys)
    ensures r.Err? ==> tool == "view_file"
  {
    if !StartsWith(tool, "view_") then Ok(parameters)
    else
      var merged := Defaults + parameters;
      if tool == "view_file" && Truthy(Get(merged, "path")) then
        match Get(merged, "path")
        case Str(s) => Ok(merged["path" := Str(NormalizeFilePath(s))])
        case _ => Err("path.toLowerCase is not a function")
      else Ok(merged)
  }

  /** For a `view_` tool the result is `DEFAULTS` overridden by every key the
      model supplied: explicit keys are never replaced by a default, a
      default only fills a key the model left out, and the path is the one
      key a `view_file` call may rewrite, through the normaliser only. */
  lemma FixUpKeepsExplicitKeys(tool: string, parameters: Record)
    requires StartsWith(tool, "view_")
    requires FixUpParameters(tool, parameters).Ok?
    ensures var r := FixUpParameters(tool, parameters).value;
      && r.Keys == Defaults.Keys + parameters.Keys
      && (forall k :: k in parameters && k != "path" ==> r[k] == parameters[k])
      && (forall k :: k in Defaults && k !in parameters ==> r[k] == Defaults[k])
      && ("path" in parameters && (tool != "view_file" || !Truthy(parameters["path"])) ==> r["path"] == parameters["path"])
  {
    assert "path" !in Defaults;
  }

  /** Only `view_file` with a truthy string path has its path normalised; a
      `view_folder` path passes through untouched. */
  lemma FixUpNormalizesFilePathOnly(tool: string, parameters: Record, s: string)
    requires Get(parameters, "path") == Str(s) && s != ""
    ensures tool == "view_file" ==> FixUpParameters(tool, parameters) == Ok((Defaults + parameters)["path" := Str(NormalizeFilePath(s))])
    ensures tool == "view_folder" ==> FixUpParameters(tool, parameters) == Ok(Defaults + parameters)
  {
    assert "path" !in Defaults;
    assert StartsWith("view_file", "view_");
    assert StartsWith("view_folder", "view_");
  }

  /** Tools outside the `view_` family come back exactly as the model
      produced them. */
  lemma FixUpLeavesOtherTools(tool: string, parameters: Record)
    requires !StartsWith(tool, "view_")
    ensures FixUpParameters(tool, parameters) == Ok(parameters)
  {
  }

  /** The fix-up fails only on `view_file` with a truthy non-string path. */
  lemma FixUpFailsOnlyOnNonStringPath(tool: string, parameters: Record)
    ensures FixUpParameters(tool, parameters).Err? <==>
      tool == "view_file" && Truthy(Get(parameters, "path")) && !Get(parameters, "path").Str?
  {
    assert "path" !in Defaults;
    if tool == "view_file" {
      assert StartsWith(tool, "view_");
    }
  }

  /** The object `generateObject` returns, updated in place by `selectTool`. */
  class ToolSelection {
    var tool: string
    var confidence: real
    var parameters: Record
    var reasoning: string

    constructor (tool: string, confidence: real, parameters: Record, reasoning: string)
      ensures this.tool == tool && this.confidence == confidence
      ensures this.parameters == parameters && this.reasoning == reasoning
    {
      this.tool := tool;
      this.confidence := confidence;
      this.parameters := parameters;
      this.reasoning := reasoning;
    }

    /** Lines 110-124 of `selectTool`: reassign `parameters` to the defaults
        merged under the model's keys, then normalise `parameters.path` of a
        `view_file` call. Returns false where the code throws; the merge has
        already happened then. Tool, confidence and reasoning never change. */
    method ApplyGithubFixUp() returns (ok: bool)
      modifies this
      ensures tool == old(tool) && confidence == old(confidence) && reasoning == old(reasoning)
      ensures ok == FixUpParameters(old(tool), old(parameters)).Ok?
      ensures ok ==> parameters == FixUpParameters(old(tool), old(parameters)).value
      ensures !ok ==> parameters == Defaults + old(parameters)
    {
      ok := true;
      if StartsWith(tool, "view_") {
        parameters := Defaults + parameters;
        if tool == "view_file" && Truthy(Get(parameters, "path")) {
          match Get(parameters, "path")
          case Str(s) =>
            parameters := parameters["path" := Str(NormalizeFilePath(s))];
          case _ =>
            ok := false;
        }
      }
    }
  }
}
