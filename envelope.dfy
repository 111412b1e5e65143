/** What every tool's `execute` does: post the arguments, unchanged, to the
    tool's endpoint under the retry executor, and wrap the response body in a
    single text content block. */
module ToolEnvelope {
  import opened Wrappers
  import opened JsonValues
  import opened ErrorHandling

  /** An HTTP request to the upstream API. */
  datatype Request = Post(path: string, body: Json)

  /** A content block of a tool result. Its text is the pretty-printed JSON
      of `data`; the printing itself is not modelled. */
  datatype ContentBlock = ContentBlock(kind: string, data: Json)

  /** A tool result: the `content` array. */
  datatype ToolResponse = ToolResponse(content: seq<ContentBlock>)

  /** The operation handed to the retry executor: call number `k` sends
      `request` and gets the server's `k`-th answer to it. */
  function Calling(server: (Request, nat) -> Attempt<Json>, request: Request): nat -> Attempt<Json>
  {
    (k: nat) => server(request, k)
  }

  /** The text envelope around a response body. */
  function Envelope(data: Json): (response: ToolResponse)
    ensures |response.content| == 1 && response.content[0].kind == "text" && response.content[0].data == data
  {
    ToolResponse([ContentBlock("text", data)])
  }

  /** `execute`: every call the executor makes posts `args` to `path`; a
      success is answered with exactly one text block holding the response
      body, and a final failure is the executor's MCP error. */
  method Execute(path: string, args: Json, server: (Request, nat) -> Attempt<Json>, config: Config)
    returns (result: Result<ToolResponse, McpError>, posted: seq<Request>, delays: seq<nat>)
    ensures var run := Run(Calling(server, Post(path, args)), config, 0);
      && |posted| == run.calls
      && (forall k :: 0 <= k < |posted| ==> posted[k] == Post(path, args))
      && delays == run.delays
      && (run.result.Ok? ==> result == Ok(Envelope(run.result.value)))
      && (run.result.Err? ==> result == Err(run.result.error))
  {
    var request := Post(path, args);
    var response, calls, waits := RetryRequest(Calling(server, request), config);
    posted := seq(calls, _ => request);
    delays := waits;
    match response
    case Ok(data) =>
      result := Ok(Envelope(data));
    case Err(error) =>
      result := Err(error);
  }
}
