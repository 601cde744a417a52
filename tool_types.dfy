/** The tool catalogue (app/api/tools/types.ts): each tool has a name, a
    description and an ordered set of parameters, each with a description, a
    required flag and a type name. */
module ToolTypes {

  datatype ParameterSpec = ParameterSpec(description: string, required: bool, typeName: string)

  /** `Tool`. The parameters keep their declaration order. */
  datatype Tool = Tool(name: string, description: string, parameters: seq<(string, ParameterSpec)>)

  /** The four string parameters both GitHub tools declare; only the path's
      description differs. */
  function GithubParameters(pathDescription: string): seq<(string, ParameterSpec)> {
    [ ("path", ParameterSpec(pathDescription, true, "string")),
      ("owner", ParameterSpec("Repository owner", true, "string")),
      ("repo", ParameterSpec("Repository name", true, "string")),
      ("branch", ParameterSpec("Branch name", true, "string")) ]
  }

  /** `availableTools` */
  const AvailableTools: seq<Tool> := [
    Tool("view_file", "View contents of a file in a GitHub repository", GithubParameters("Path to the file")),
    Tool("view_folder", "View contents of a folder in a GitHub repository", GithubParameters("Path to the folder"))
  ]

  /** The names of a tool's parameters, in declaration order. */
  function ParameterNames(t: Tool): (names: seq<string>)
    ensures |names| == |t.parameters|
    ensures forall i :: 0 <= i < |names| ==> names[i] == t.parameters[i].0
  {
    seq(|t.parameters|, i requires 0 <= i < |t.parameters| => t.parameters[i].0)
  }

  /** The names of the parameters flagged required, in declaration order. */
  function RequiredNames(params: seq<(string, ParameterSpec)>): (names: seq<string>)
    ensures |names| <= |params|
    ensures forall n :: n in names <==> exists i :: 0 <= i < |params| && params[i].1.required && params[i].0 == n
  {
    if |params| == 0 then []
    else (if params[0].1.required then [params[0].0] else []) + RequiredNames(params[1..])
  }

  /** The catalogue holds exactly `view_file` then `view_folder`; each
      declares `path`, `owner`, `repo`, `branch`, all required and all of
      type `string`. */
  lemma CatalogueShape()
    ensures |AvailableTools| == 2
    ensures AvailableTools[0].name == "view_file" && AvailableTools[1].name == "view_folder"
    ensures AvailableTools[0].name != AvailableTools[1].name
    ensures forall t :: t in AvailableTools ==>
      && ParameterNames(t) == ["path", "owner", "repo", "branch"]
      && RequiredNames(t.parameters) == ["path", "owner", "repo", "branch"]
      && forall p :: p in t.parameters ==> p.1.required && p.1.typeName == "string"
  {
    GithubParametersShape("Path to the file");
    GithubParametersShape("Path to the folder");
  }

  lemma GithubParametersShape(pathDescription: string)
    ensures var t := Tool("", "", GithubParameters(pathDescription));
      && ParameterNames(t) == ["path", "owner", "repo", "branch"]
      && RequiredNames(t.parameters) == ["path", "owner", "repo", "branch"]
      && forall p :: p in t.parameters ==> p.1.required && p.1.typeName == "string"
  {
    var ps := GithubParameters(pathDescription);
    assert RequiredNames(ps[4..]) == [];
    assert RequiredNames(ps[3..]) == ["branch"];
    assert RequiredNames(ps[2..]) == ["repo", "branch"];
    assert RequiredNames(ps[1..]) == ["owner", "repo", "branch"];
  }
}
