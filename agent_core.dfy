/** The keyword router and planner of the agent (src/agent_core.py). The LLM
    call the agent falls back to is not part of this model. */
module AgentCore {
  import opened Wrappers
  import opened Text

  /** The `message` object of a payload; `None` is a missing `text`. */
  datatype Message = Message(text: Option<string>)

  /** A request payload; `None` is a missing (or empty) `message`. */
  datatype Payload = Payload(message: Option<Message>)

  datatype Tool = Tool(name: string, url: string)

  datatype TraceStep = TraceStep(step: string, observation: string)

  /** What `_plan` returns. */
  datatype Plan = Plan(toolCall: bool, tool: Option<Tool>, trace: seq<TraceStep>)

  datatype SystemMessage = SystemMessage(role: string, content: string, format: string)

  /** Where `handle` sends a payload: the local pipeline, a tool-call envelope, or
      the language model. */
  datatype Route =
    | RunPipeline
    | ToolCall(status: string, messages: seq<SystemMessage>, tool: Tool, trace: seq<TraceStep>)
    | Reason

  const PipelineKeywords: seq<string> := ["portfolio", "allocation", "rebalance"]
  const ToolKeywords: seq<string> := ["http", "fetch", "latest", "price", "news", "market"]
  const HttpFetch: Tool := Tool("http_fetch", "https://example.com")

  /** `(payload.get('message') or {}).get('text', '').lower()`. */
  function MessageText(p: Payload): (t: string)
    ensures p.message.None? || p.message.value.text.None? ==> t == ""
    ensures p.message.Some? && p.message.value.text.Some? ==> t == Lower(p.message.value.text.value)
  {
    match p.message
    case None => ""
    case Some(m) => Lower(m.text.GetOr(""))
  }

  /** `any(k in text for k in keys)`. */
  function AnyIn(keys: seq<string>, text: string): (r: bool)
    ensures r <==> exists i :: 0 <= i < |keys| && Contains(text, keys[i])
  {
    if |keys| == 0 then false
    else Contains(text, keys[0]) || AnyIn(keys[1..], text)
  }

  /** _plan: an HTTP fetch exactly when a data keyword occurs in the text. */
  function PlanFor(p: Payload): (r: Plan)
    ensures r.toolCall <==> exists i :: 0 <= i < |ToolKeywords| && Contains(MessageText(p), ToolKeywords[i])
    ensures r.toolCall ==> r.tool == Some(HttpFetch)
    ensures !r.toolCall ==> r.tool.None?
  {
    if AnyIn(ToolKeywords, MessageText(p)) then
      Plan(true, Some(HttpFetch), [TraceStep("plan", "Needs external data")])
    else
      Plan(false, None, [TraceStep("plan", "No external data needed")])
  }

  /** Agent.handle: portfolio words go to the pipeline before any planning; then a
      planned tool becomes a tool-call envelope; anything else goes to the model. */
  function Handle(p: Payload): (r: Route)
    ensures r.RunPipeline? <==> AnyIn(PipelineKeywords, MessageText(p))
    ensures r.ToolCall? <==> !AnyIn(PipelineKeywords, MessageText(p)) && PlanFor(p).toolCall
    ensures r.ToolCall? ==>
              (r.status == "tool_call" && r.tool == HttpFetch
               && r.messages == [SystemMessage("system", "Calling tool 'http_fetch'", "text")]
               && r.trace == PlanFor(p).trace)
  {
    if AnyIn(PipelineKeywords, MessageText(p)) then RunPipeline
    else
      var plan := PlanFor(p);
      if plan.toolCall then
        assert "Calling tool '" + plan.tool.value.name + "'" == "Calling tool 'http_fetch'";
        ToolCall("tool_call", [SystemMessage("system", "Calling tool '" + plan.tool.value.name + "'", "text")],
                 plan.tool.value, plan.trace)
      else Reason
  }

  /** A payload without a message, or without text, plans no tool and is not routed
      to the pipeline. */
  lemma MissingMessageNoTool(p: Payload)
    requires p.message.None? || p.message.value.text.None?
    ensures !PlanFor(p).toolCall
    ensures Handle(p) == Reason
  {
    assert MessageText(p) == "";
    forall i | 0 <= i < |ToolKeywords| ensures !Contains("", ToolKeywords[i]) {}
    forall i | 0 <= i < |PipelineKeywords| ensures !Contains("", PipelineKeywords[i]) {}
  }

  /** Routing and planning ignore letter case. */
  lemma RoutingIgnoresCase(t: string)
    ensures Handle(Payload(Some(Message(Some(Lower(t)))))) == Handle(Payload(Some(Message(Some(t)))))
  {
    LowerIdempotent(t);
  }

  /** A portfolio request goes to the pipeline even when it also names market data. */
  lemma PortfolioBeatsMarketData()
    ensures Handle(Payload(Some(Message(Some("Market PORTFOLIO"))))) == RunPipeline
  {
    var t := MessageText(Payload(Some(Message(Some("Market PORTFOLIO")))));
    assert t == "market portfolio";
    assert "portfolio" <= t[7..];
    ContainsSpec(t, "portfolio");
  }

  /** "latest market news please" plans the fetch tool. */
  lemma PlanExampleWithTool()
    ensures PlanFor(Payload(Some(Message(Some("latest market news please"))))).toolCall
  {
    var t := MessageText(Payload(Some(Message(Some("latest market news please")))));
    assert t == "latest market news please";
    assert "latest" <= t;
    assert ToolKeywords[2] == "latest";
  }

  /** "hello there" plans no tool. */
  lemma PlanExampleWithoutTool()
    ensures !PlanFor(Payload(Some(Message(Some("hello there"))))).toolCall
  {
    var t := MessageText(Payload(Some(Message(Some("hello there")))));
    assert t == "hello there";
    // each keyword has a letter (at the listed index) that "hello there" lacks
    forall i | 0 <= i < |ToolKeywords| ensures !Contains(t, ToolKeywords[i]) {
      if Contains(t, ToolKeywords[i]) {
        ContainsHasChar(t, ToolKeywords[i], [3, 0, 1, 0, 0, 0][i]);
      }
    }
  }
}
