/** The direct-invocation endpoint (app/api/tools/route/route.ts): a `POST`
    carrying `{ tool, parameters }` is checked against the tool's definition
    file and dispatched to a handler. The file search, the definition's
    parsing and the upstream fetch are not modelled: their outcomes are
    inputs. */
module ToolRoute {

  import opened Text
  import opened Outcome
  import opened JsValue
  import opened Http
  import GithubUtils

  /** One entry of a definition file's `schema.parameters`. */
  datatype ParamSchema = ParamSchema(name: string, required: bool)

  /** What `findToolDefinition` and the loading step produce: no file named
      `<tool>.json` (a failed directory read also ends here), a file that
      cannot be read or parsed, or a parsed definition whose
      `schema.parameters` is an array (`Some`) or is missing (`None`). */
  datatype DefinitionLookup =
    | NotFound
    | Unreadable
    | Loaded(schemaParameters: Option<seq<ParamSchema>>)

  /** The parsed request body `{ tool, parameters }`. */
  datatype ToolCall = ToolCall(tool: string, parameters: Value)

  datatype ReplyBody = ErrorBody(error: string) | ResultBody(result: string)

  /** A JSON reply with its HTTP status. */
  datatype HttpReply = HttpReply(status: nat, body: ReplyBody)

  /** The reply of the outer `catch`: every thrown error ends here. */
  const InternalError := HttpReply(500, ErrorBody("Internal server error"))

  /** `p.required && !parameters[p.name]` */
  predicate IsMissing(p: ParamSchema, fields: Record) {
    p.required && !Truthy(Get(fields, p.name))
  }

  /** The `filter` step: the positions of the missing parameters, in schema
      order, each exactly once. */
  function MissingIndices(specs: seq<ParamSchema>, fields: Record): (r: seq<nat>)
    ensures forall k :: 0 <= k < |r| ==> r[k] < |specs| && IsMissing(specs[r[k]], fields)
    ensures forall k, l :: 0 <= k < l < |r| ==> r[k] < r[l]
    ensures forall i :: 0 <= i < |specs| && IsMissing(specs[i], fields) ==> i in r
  {
    if |specs| == 0 then []
    else
      var last := |specs| - 1;
      var front := MissingIndices(specs[..last], fields);
      assert forall i :: 0 <= i < last ==> specs[..last][i] == specs[i];
      front + (if IsMissing(specs[last], fields) then [last] else [])
  }

  /** `missingParams`: the `map` step, from positions to names. */
  function MissingParams(specs: seq<ParamSchema>, fields: Record): (r: seq<string>)
    ensures |r| == |MissingIndices(specs, fields)|
    ensures forall k :: 0 <= k < |r| ==> r[k] == specs[MissingIndices(specs, fields)[k]].name
  {
    var idx := MissingIndices(specs, fields);
    seq(|idx|, k requires 0 <= k < |idx| => specs[idx[k]].name)
  }

  /** A name is listed exactly when some required parameter of that name has
      a falsy value, and nothing is listed exactly when every required
      parameter has a truthy value. */
  lemma MissingParamsExactly(specs: seq<ParamSchema>, fields: Record)
    ensures forall n :: n in MissingParams(specs, fields) <==>
      exists i :: 0 <= i < |specs| && IsMissing(specs[i], fields) && specs[i].name == n
    ensures MissingParams(specs, fields) == [] <==> forall i :: 0 <= i < |specs| ==> !IsMissing(specs[i], fields)
  {
    var idx := MissingIndices(specs, fields);
    var r := MissingParams(specs, fields);
    forall n | n in r ensures exists i :: 0 <= i < |specs| && IsMissing(specs[i], fields) && specs[i].name == n {
      var k :| 0 <= k < |r| && r[k] == n;
      assert IsMissing(specs[idx[k]], fields);
    }
    forall i | 0 <= i < |specs| && IsMissing(specs[i], fields) ensures specs[i].name in r {
      var k :| 0 <= k < |idx| && idx[k] == i;
      assert r[k] == specs[i].name;
    }
    if r != [] {
      assert IsMissing(specs[idx[0]], fields);
    }
  }

  /** The properties of `parameters` that the check reads: a plain object's
      own keys; any other non-null value has none of them. */
  function Fields(parameters: Value): Record {
    if parameters.Obj? then parameters.fields else map[]
  }

  /** `handlers.view_file` of this endpoint. Destructuring `undefined` or
      `null` parameters throws before anything is sent; a non-ok reply
      throws too (both end as a 500); an ok reply gives its text. It neither
      checks the token nor consults the allow-list. */
  function RouteViewFile(parameters: Value, upstream: Response<string>): (r: Result<string>)
    ensures r.Ok? <==> parameters != Undefined && parameters != Null && upstream.Reply? && IsOk(upstream.status)
    ensures r.Ok? ==> r.value == upstream.body
  {
    if parameters == Undefined || parameters == Null then Err("Cannot destructure 'params' as it is undefined or null.")
    else
      match upstream
      case NetworkError(m) => Err(m)
      case Reply(status, statusText, body) =>
        if !IsOk(status) then Err("GitHub API error: " + statusText) else Ok(body)
  }

  /** `POST(request)`. `call` is `None` when the body is not JSON or is
      `null` (both throw); `lookup` is the outcome of the definition search;
      `upstream` is what the `view_file` handler's fetch would receive. Every
      exit is one of five statuses, and a 500 is either the outer `catch` or
      the loading error. */
  function Post(call: Option<ToolCall>, lookup: DefinitionLookup, upstream: Response<string>): (r: HttpReply)
    ensures r.status in {200, 400, 404, 500, 501}
    ensures r.status == 500 ==> r == InternalError || (lookup.Unreadable? && call.Some?)
  {
    if call.None? then InternalError
    else
      var tool := call.value.tool;
      var parameters := call.value.parameters;
      match lookup
      case NotFound => HttpReply(404, ErrorBody("Tool '" + tool + "' not found"))
      case Unreadable => HttpReply(500, ErrorBody("Error loading tool '" + tool + "'"))
      case Loaded(None) => InternalError
      case Loaded(Some(specs)) =>
        if (parameters == Undefined || parameters == Null) && exists i :: 0 <= i < |specs| && specs[i].required then
          InternalError
        else
          var missing := MissingParams(specs, Fields(parameters));
          if |missing| > 0 then HttpReply(400, ErrorBody("Missing required parameters: " + Join(missing, ", ")))
          else if tool != "view_file" then HttpReply(501, ErrorBody("No handler implemented for tool '" + tool + "'"))
          else
            match RouteViewFile(parameters, upstream)
            case Err(_) => InternalError
            case Ok(text) => HttpReply(200, ResultBody(text))
  }

  /** The first exits: an unparsable body is a 500 whatever the definition;
      an unknown tool is a 404 and an unreadable definition a 500, both
      before any parameter is looked at; a definition without
      `schema.parameters` throws at `.filter` and is a 500. */
  lemma PostEarlyExits(call: Option<ToolCall>, lookup: DefinitionLookup, upstream: Response<string>)
    ensures Post(None, lookup, upstream) == InternalError
    ensures call.Some? ==> Post(call, NotFound, upstream) == HttpReply(404, ErrorBody("Tool '" + call.value.tool + "' not found"))
    ensures call.Some? ==> Post(call, Unreadable, upstream) == HttpReply(500, ErrorBody("Error loading tool '" + call.value.tool + "'"))
    ensures call.Some? ==> Post(call, Loaded(None), upstream) == InternalError
  {
  }

  /** Missing required parameters give a 400 that names them, joined by
      `, `, whatever the tool and without calling any handler (the reply does
      not depend on the upstream response). */
  lemma PostMissingParameters(tool: string, parameters: Value, specs: seq<ParamSchema>, u1: Response<string>, u2: Response<string>)
    requires parameters.Obj?
    requires MissingParams(specs, parameters.fields) != []
    ensures Post(Some(ToolCall(tool, parameters)), Loaded(Some(specs)), u1) ==
            HttpReply(400, ErrorBody("Missing required parameters: " + Join(MissingParams(specs, parameters.fields), ", ")))
    ensures Post(Some(ToolCall(tool, parameters)), Loaded(Some(specs)), u1) ==
            Post(Some(ToolCall(tool, parameters)), Loaded(Some(specs)), u2)
  {
  }

  /** The 400 message names every missing parameter. */
  lemma MissingMessageNamesEach(specs: seq<ParamSchema>, fields: Record, i: nat)
    requires i < |specs| && IsMissing(specs[i], fields)
    ensures Contains("Missing required parameters: " + Join(MissingParams(specs, fields), ", "), specs[i].name)
  {
    var missing := MissingParams(specs, fields);
    MissingParamsExactly(specs, fields);
    var k :| 0 <= k < |missing| && missing[k] == specs[i].name;
    JoinContainsParts(missing, ", ", k);
    ContainsAfterAnyPrefix("Missing required parameters: ", Join(missing, ", "), specs[i].name);
  }

  /** A 200 reply holds exactly the handler's text, and it is reached
      exactly for `view_file` with `parameters` present, every required
      parameter truthy and an ok upstream reply; a 501 naming the tool is
      reached exactly for a validated call to any other tool. */
  lemma PostSuccessAndNoHandler(call: Option<ToolCall>, lookup: DefinitionLookup, upstream: Response<string>)
    ensures Post(call, lookup, upstream).status == 200 ==>
      && call.Some? && call.value.tool == "view_file"
      && call.value.parameters != Undefined && call.value.parameters != Null
      && lookup.Loaded? && lookup.schemaParameters.Some?
      && MissingParams(lookup.schemaParameters.value, Fields(call.value.parameters)) == []
      && upstream.Reply? && IsOk(upstream.status)
      && Post(call, lookup, upstream).body == ResultBody(upstream.body)
    ensures Post(call, lookup, upstream).status == 501 ==>
      && call.Some? && call.value.tool != "view_file"
      && lookup.Loaded? && lookup.schemaParameters.Some?
      && MissingParams(lookup.schemaParameters.value, Fields(call.value.parameters)) == []
    ensures (&& call.Some? && call.value.tool == "view_file"
             && call.value.parameters != Undefined && call.value.parameters != Null
             && lookup.Loaded? && lookup.schemaParameters.Some?
             && MissingParams(lookup.schemaParameters.value, Fields(call.value.parameters)) == []
             && upstream.Reply? && IsOk(upstream.status)) ==>
      Post(call, lookup, upstream) == HttpReply(200, ResultBody(upstream.body))
    ensures (&& call.Some? && call.value.tool != "view_file"
             && lookup.Loaded? && lookup.schemaParameters.Some?
             && !((call.value.parameters == Undefined || call.value.parameters == Null)
                  && exists i :: 0 <= i < |lookup.schemaParameters.value| && lookup.schemaParameters.value[i].required)
             && MissingParams(lookup.schemaParameters.value, Fields(call.value.parameters)) == []) ==>
      Post(call, lookup, upstream) == HttpReply(501, ErrorBody("No handler implemented for tool '" + call.value.tool + "'"))
  {
  }

  /** Every throw becomes a 500: reading a property of a missing
      `parameters` when the definition has a required entry; destructuring a
      missing `parameters` in the `view_file` handler; and any failed fetch
      or non-ok upstream reply once validation has passed. */
  lemma PostThrowsBecome500(tool: string, parameters: Value, specs: seq<ParamSchema>, upstream: Response<string>)
    ensures (parameters == Undefined || parameters == Null) && (exists i :: 0 <= i < |specs| && specs[i].required) ==>
      Post(Some(ToolCall(tool, parameters)), Loaded(Some(specs)), upstream) == InternalError
    ensures parameters == Undefined || parameters == Null ==>
      Post(Some(ToolCall("view_file", parameters)), Loaded(Some(specs)), upstream) == InternalError
    ensures MissingParams(specs, Fields(parameters)) == [] && RouteViewFile(parameters, upstream).Err? ==>
      Post(Some(ToolCall("view_file", parameters)), Loaded(Some(specs)), upstream) == InternalError
  {
    MissingParamsExactly(specs, Fields(parameters));
  }

  /** This endpoint does not consult the allow-list: a path the authorizer
      refuses is still fetched and returned. */
  lemma PostBypassesAllowList()
    ensures var call := ToolCall("view_file", Obj(map["path" := Str("src/x"), "owner" := Str("OpenAgentsInc"),
                                                     "repo" := Str("snowball"), "branch" := Str("main")]));
      Post(Some(call), Loaded(Some([ParamSchema("path", true)])), Reply(200, "OK", "text")) == HttpReply(200, ResultBody("text"))
    ensures !GithubUtils.IsAllowedPath("OpenAgentsInc", "snowball", "src/x", "main")
  {
    GithubUtils.PathOutsideListRefused();
    var fields := map["path" := Str("src/x"), "owner" := Str("OpenAgentsInc"), "repo" := Str("snowball"), "branch" := Str("main")];
    assert !IsMissing(ParamSchema("path", true), fields);
    assert MissingIndices([ParamSchema("path", true)], fields) == [];
  }
}
