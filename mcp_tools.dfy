/** Tool adapters: one per operation a provider lists, each bound to the
    descriptor of the provider it came from; their aggregation across all
    providers; and what an adapter's call makes of the provider's answer. */
module McpTools {
  import opened Wrappers
  import opened Values
  import opened ServerParams

  /** One operation as a provider's `list_tools` answer describes it. The
      description is optional in the protocol and copied as it is. */
  datatype ToolSchema = ToolSchema(name: string, description: Option<string>, inputSchema: Json)

  /** The adapter built for one listed operation (`McpTool`): the listed name,
      description and input schema, and the descriptor used to reach its
      provider again on every call. */
  datatype McpTool = McpTool(
    name: string,
    description: Option<string>,
    argsSchema: Json,
    serverParams: StdioServerParameters)

  /** A fault of the session with a provider process: it did not start, the
      initialisation exchange failed, a message was lost or malformed, or
      the provider answered a request with a JSON-RPC error (`McpError`). */
  datatype SessionError =
    | LaunchError(reason: string)
    | HandshakeError(reason: string)
    | TransportError(reason: string)
    | ProtocolError(code: int, reason: string)

  /** What one provider's discovery session produced: the tools of the
      single page its one `list_tools` call returns, or the fault that
      ended the session. */
  type Listing = Result<seq<ToolSchema>, SessionError>

  /** `create_mcp_tool`: the adapter for one listed operation. */
  function CreateMcpTool(schema: ToolSchema, server: StdioServerParameters): McpTool {
    McpTool(schema.name, schema.description, schema.inputSchema, server)
  }

  /** The adapters for a listing, one per listed tool, in listing order. */
  function Adapters(server: StdioServerParameters, schemas: seq<ToolSchema>): seq<McpTool> {
    seq(|schemas|, i requires 0 <= i < |schemas| => CreateMcpTool(schemas[i], server))
  }

  /** What `get_mcp_tools` returns or raises for one provider. */
  function ProviderTools(server: StdioServerParameters, listing: Listing): Result<seq<McpTool>, SessionError> {
    match listing
    case Failure(e) => Failure(e)
    case Success(schemas) => Success(Adapters(server, schemas))
  }

  /** What `convert_mcp_to_langchain_tools` returns or raises: the adapters
      of every provider in provider order, or the first provider's fault. */
  function Aggregate(servers: seq<StdioServerParameters>, listings: seq<Listing>): Result<seq<McpTool>, SessionError>
    requires |servers| == |listings|
    decreases |servers|
  {
    if servers == [] then Success([])
    else
      var n := |servers| - 1;
      match Aggregate(servers[..n], listings[..n])
      case Failure(e) => Failure(e)
      case Success(tools) =>
        match ProviderTools(servers[n], listings[n])
        case Failure(e) => Failure(e)
        case Success(more) => Success(tools + more)
  }

  /** The number of operations the successful listings hold together. */
  function ToolCount(listings: seq<Listing>): nat
    decreases |listings|
  {
    if listings == [] then 0
    else
      var n := |listings| - 1;
      ToolCount(listings[..n]) + match listings[n] case Success(schemas) => |schemas| case Failure(_) => 0
  }

  /** `get_mcp_tools`: appends one adapter per listed operation. */
  method GetMcpTools(server: StdioServerParameters, listing: Listing) returns (r: Result<seq<McpTool>, SessionError>)
    ensures listing.Failure? ==> r == Failure(listing.error)
    ensures listing.Success? ==> r.Success? && |r.value| == |listing.value|
    ensures listing.Success? ==> forall i :: 0 <= i < |r.value| ==>
      && r.value[i].name == listing.value[i].name
      && r.value[i].description == listing.value[i].description
      && r.value[i].argsSchema == listing.value[i].inputSchema
      && r.value[i].serverParams == server
    ensures r == ProviderTools(server, listing)
  {
    if listing.Failure? {
      return Failure(listing.error);
    }
    var schemas := listing.value;
    var tools: seq<McpTool> := [];
    var i := 0;
    while i < |schemas|
      invariant 0 <= i <= |schemas|
      invariant tools == Adapters(server, schemas[..i])
    {
      tools := tools + [CreateMcpTool(schemas[i], server)];
      i := i + 1;
    }
    assert schemas[..i] == schemas;
    r := Success(tools);
  }

  /** `convert_mcp_to_langchain_tools`: extends one list with each provider's
      adapters in turn; a provider's fault is not caught and aborts it all. */
  method ConvertMcpToLangchainTools(servers: seq<StdioServerParameters>, listings: seq<Listing>) returns (r: Result<seq<McpTool>, SessionError>)
    requires |servers| == |listings|
    ensures r == Aggregate(servers, listings)
  {
    var tools: seq<McpTool> := [];
    var i := 0;
    while i < |servers|
      invariant 0 <= i <= |servers|
      invariant Aggregate(servers[..i], listings[..i]) == Success(tools)
    {
      var more := GetMcpTools(servers[i], listings[i]);
      assert servers[..i + 1][..i] == servers[..i];
      assert listings[..i + 1][..i] == listings[..i];
      if more.Failure? {
        AggregateFailureIsFinal(servers, listings, i + 1);
        return Failure(more.error);
      }
      tools := tools + more.value;
      i := i + 1;
    }
    assert servers[..i] == servers && listings[..i] == listings;
    r := Success(tools);
  }

  /** Once the providers of a prefix fail, the whole aggregation fails with
      the same fault. */
  lemma {:induction false} AggregateFailureIsFinal(servers: seq<StdioServerParameters>, listings: seq<Listing>, n: nat)
    requires |servers| == |listings|
    requires n <= |servers|
    requires Aggregate(servers[..n], listings[..n]).Failure?
    ensures Aggregate(servers, listings) == Aggregate(servers[..n], listings[..n])
    decreases |servers| - n
  {
    if n < |servers| {
      assert servers[..n + 1][..n] == servers[..n];
      assert listings[..n + 1][..n] == listings[..n];
      AggregateFailureIsFinal(servers, listings, n + 1);
    } else {
      assert servers[..n] == servers && listings[..n] == listings;
    }
  }

  /** The aggregation succeeds exactly when every provider's discovery does. */
  lemma {:induction false} AggregateSucceeds(servers: seq<StdioServerParameters>, listings: seq<Listing>)
    requires |servers| == |listings|
    ensures Aggregate(servers, listings).Success? <==> forall p :: 0 <= p < |listings| ==> listings[p].Success?
    decreases |servers|
  {
    if servers != [] {
      var n := |servers| - 1;
      AggregateSucceeds(servers[..n], listings[..n]);
      assert forall p :: 0 <= p < n ==> listings[..n][p] == listings[p];
    }
  }

  /** A failed aggregation carries the fault of the first provider whose
      discovery failed; the providers after it play no part. */
  lemma {:induction false} AggregateError(servers: seq<StdioServerParameters>, listings: seq<Listing>)
    requires |servers| == |listings|
    requires Aggregate(servers, listings).Failure?
    ensures exists p ::
              && 0 <= p < |listings|
              && listings[p] == Failure(Aggregate(servers, listings).error)
              && forall q :: 0 <= q < p ==> listings[q].Success?
    decreases |servers|
  {
    var n := |servers| - 1;
    var e := Aggregate(servers, listings).error;
    if Aggregate(servers[..n], listings[..n]).Failure? {
      AggregateError(servers[..n], listings[..n]);
      var p :| 0 <= p < n
        && listings[..n][p] == Failure(e)
        && forall q :: 0 <= q < p ==> listings[..n][q].Success?;
      assert forall q :: 0 <= q < p ==> listings[..n][q] == listings[q];
      assert listings[p] == Failure(e);
    } else {
      AggregateSucceeds(servers[..n], listings[..n]);
      assert forall q :: 0 <= q < n ==> listings[..n][q] == listings[q];
      assert listings[n] == Failure(e);
    }
  }

  /** A successful aggregation holds exactly as many adapters as the
      providers listed operations: nothing is dropped or merged. */
  lemma {:induction false} AggregateLength(servers: seq<StdioServerParameters>, listings: seq<Listing>)
    requires |servers| == |listings|
    requires Aggregate(servers, listings).Success?
    ensures |Aggregate(servers, listings).value| == ToolCount(listings)
    decreases |servers|
  {
    if servers != [] {
      var n := |servers| - 1;
      AggregateLength(servers[..n], listings[..n]);
    }
  }

  /** Operation k of provider p has its own adapter, at position
      ToolCount(listings[..p]) + k: the providers' adapters follow one
      another in provider order and their listing order, each with the
      listed name and description and bound to its own provider, so equal
      names from two providers give two adapters. */
  lemma {:induction false} AggregateAt(servers: seq<StdioServerParameters>, listings: seq<Listing>, p: nat, k: nat)
    requires |servers| == |listings|
    requires Aggregate(servers, listings).Success?
    requires p < |listings| && listings[p].Success? && k < |listings[p].value|
    ensures ToolCount(listings[..p]) + k < |Aggregate(servers, listings).value|
    ensures var tool := Aggregate(servers, listings).value[ToolCount(listings[..p]) + k];
            && tool.name == listings[p].value[k].name
            && tool.description == listings[p].value[k].description
            && tool.argsSchema == listings[p].value[k].inputSchema
            && tool.serverParams == servers[p]
    decreases |servers|
  {
    var n := |servers| - 1;
    if p < n {
      assert listings[..n][p] == listings[p];
      assert servers[..n][p] == servers[p];
      assert listings[..n][..p] == listings[..p];
      AggregateAt(servers[..n], listings[..n], p, k);
    } else {
      AggregateLength(servers[..n], listings[..n]);
    }
  }

  /** One item of a tool call's content, as the provider returns it. */
  datatype ContentBlock =
    | TextContent(text: string)
    | ImageContent(data: string, mimeType: string)
    | EmbeddedResource(resource: Json)

  /** A provider's answer to a tool call: the content, and whether the
      provider reports the call as failed. */
  datatype CallToolResult = CallToolResult(content: seq<ContentBlock>, isError: bool)

  /** The call an adapter makes: which provider to start, which operation to
      call and with which arguments. */
  datatype CallRequest = CallRequest(server: StdioServerParameters, name: string, arguments: map<string, Json>)

  /** Why an adapter's call raised: the provider reported an error (a
      `ToolException` holding its content), or the session itself failed. */
  datatype ToolError = ToolException(content: seq<ContentBlock>) | SessionFailed(cause: SessionError)

  /** The request `_arun` sends: the adapter's own name and provider, and
      the caller's arguments as they are. */
  function RequestFor(tool: McpTool, kwargs: map<string, Json>): CallRequest {
    CallRequest(tool.serverParams, tool.name, kwargs)
  }

  /** What `_arun` makes of the provider's answer: a reported error raises
      with the content unchanged, any other answer returns its content. */
  function ClassifyResult(result: CallToolResult): (o: Result<seq<ContentBlock>, ToolError>)
    ensures o.Failure? <==> result.isError
    ensures o.Failure? ==> o.error == ToolException(result.content)
    ensures o.Success? ==> o.value == result.content
  {
    if result.isError then Failure(ToolException(result.content)) else Success(result.content)
  }

  /** The provider's answer that a classified outcome stands for, when it
      stands for one. */
  function Unclassify(o: Result<seq<ContentBlock>, ToolError>): Option<CallToolResult> {
    match o
    case Success(content) => Some(CallToolResult(content, false))
    case Failure(ToolException(content)) => Some(CallToolResult(content, true))
    case Failure(SessionFailed(_)) => None
  }

  /** Classification loses nothing: the answer can be read back from it. */
  lemma ClassifyRoundTrip(result: CallToolResult)
    ensures Unclassify(ClassifyResult(result)) == Some(result)
  {
  }

  /** `_arun`: one fresh session to the adapter's provider, one call, and
      the answer classified; `callTool` stands for that whole session. */
  function Arun(tool: McpTool, kwargs: map<string, Json>, callTool: CallRequest -> Result<CallToolResult, SessionError>): Result<seq<ContentBlock>, ToolError> {
    match callTool(RequestFor(tool, kwargs))
    case Failure(e) => Failure(SessionFailed(e))
    case Success(result) => ClassifyResult(result)
  }

  /** The provider's answer, or the session fault, that an outcome of
      `_arun` stands for. */
  function Unarun(o: Result<seq<ContentBlock>, ToolError>): Result<CallToolResult, SessionError> {
    match o
    case Success(content) => Success(CallToolResult(content, false))
    case Failure(ToolException(content)) => Success(CallToolResult(content, true))
    case Failure(SessionFailed(e)) => Failure(e)
  }

  /** A call loses nothing: the answer to the adapter's own request, be it
      remote content, a reported error or a session fault, can be read back
      from the call's outcome. */
  lemma ArunRoundTrip(tool: McpTool, kwargs: map<string, Json>, callTool: CallRequest -> Result<CallToolResult, SessionError>)
    ensures Unarun(Arun(tool, kwargs, callTool)) == callTool(RequestFor(tool, kwargs))
  {
  }

  /** A call's outcome depends on nothing but the answer to the adapter's
      own request: two sessions that answer that request alike give the
      same outcome, whatever they would answer to any other request. */
  lemma ArunDependsOnOwnRequest(tool: McpTool, kwargs: map<string, Json>,
                                 f: CallRequest -> Result<CallToolResult, SessionError>,
                                 g: CallRequest -> Result<CallToolResult, SessionError>)
    requires f(RequestFor(tool, kwargs)) == g(RequestFor(tool, kwargs))
    ensures Arun(tool, kwargs, f) == Arun(tool, kwargs, g)
  {
  }

  /** Calling operation k of provider p through the aggregated adapters
      sends that operation's listed name to that provider, with the
      caller's arguments unchanged. */
  lemma AggregatedToolCalls(servers: seq<StdioServerParameters>, listings: seq<Listing>, p: nat, k: nat, kwargs: map<string, Json>)
    requires |servers| == |listings|
    requires Aggregate(servers, listings).Success?
    requires p < |listings| && listings[p].Success? && k < |listings[p].value|
    ensures ToolCount(listings[..p]) + k < |Aggregate(servers, listings).value|
    ensures RequestFor(Aggregate(servers, listings).value[ToolCount(listings[..p]) + k], kwargs)
            == CallRequest(servers[p], listings[p].value[k].name, kwargs)
  {
    AggregateAt(servers, listings, p, k);
  }
}
