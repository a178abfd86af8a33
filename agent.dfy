/**
 * src/agents/agent.py: a conversational agent that keeps the chat history sent to the
 * language model, lets the model call registered tools and feeds their output back.
 *
 * The chat service is the sequence of replies it gives, in order; an absent reply (or
 * the end of the sequence) is a call that raises. Evaluating a tool's argument string and
 * running a tool are functions whose `Raised` outcome stands for an exception and its text.
 * Console output is left out.
 */
module Agents {
  import opened Seqs
  import opened Wrappers

  datatype Role = System | User | Assistant | ToolRole

  /** A tool call as the service sends it: any field may be missing. */
  datatype RawCall = RawCall(name: Option<string>, arguments: Option<string>, id: Option<string>, kind: Option<string>)

  /** A tool call as the history stores it, every field filled in. */
  datatype ToolCall = ToolCall(name: string, arguments: string, id: string, kind: string)

  /** The `name` and `tool_call_id` keys of a tool message. */
  datatype ToolRef = ToolRef(name: string, callId: Option<string>)

  /**
   * One history entry. An empty `toolCalls` is an entry without the `tool_calls` key (the
   * history only writes the key for a non-empty list); `toolRef` is present on tool messages.
   */
  datatype Message = Message(role: Role, content: string, toolCalls: seq<ToolCall>, toolRef: Option<ToolRef>)

  /** A registered tool: its class name and its function-calling schema. */
  datatype Tool = Tool(name: string, openaiSchema: string)

  /** `{"type": "function", "function": schema}`. */
  datatype SchemaEntry = SchemaEntry(kind: string, schema: string)

  /** A chat completion message: its content and, possibly, a function call. */
  datatype Reply = Reply(content: string, functionCall: Option<RawCall>)

  /** What one request to the chat service carried. */
  datatype Request = Request(messages: seq<Message>, functions: Option<seq<SchemaEntry>>)

  /** The result of an operation that may raise, with the exception's text. */
  datatype Outcome<T> = Ok(value: T) | Raised(error: string)

  /** The keyword arguments `eval` builds from an argument string. */
  type Args = map<string, string>
  type Evaluator = string -> Outcome<Args>
  type Runner = (Tool, Args) -> Outcome<string>

  /** The agent's fixed configuration: its tools, the schemas it sends and the two oracles. */
  datatype Setup = Setup(tools: seq<Tool>, functions: Option<seq<SchemaEntry>>, evaluate: Evaluator, runTool: Runner)

  /** The result of an `execute` call: the new history, the returned text (`None`: it raised), the replies left, the requests sent. */
  datatype Turn = Turn(history: seq<Message>, result: Option<string>, rest: seq<Option<Reply>>, sent: seq<Request>)

  /** `parse_tool_calls` on one call: missing fields default to "", "{}", "" and "". */
  function Normalize(c: RawCall): (t: ToolCall)
    ensures c.name.Some? ==> t.name == c.name.value
    ensures c.name.None? ==> t.name == ""
    ensures c.arguments.Some? ==> t.arguments == c.arguments.value
    ensures c.arguments.None? ==> t.arguments == "{}"
    ensures t.id == c.id.GetOr("") && t.kind == c.kind.GetOr("")
  {
    ToolCall(c.name.GetOr(""), c.arguments.GetOr("{}"), c.id.GetOr(""), c.kind.GetOr(""))
  }

  /** A stored call, read back as a call with every field present. */
  function AsRaw(t: ToolCall): RawCall {
    RawCall(Some(t.name), Some(t.arguments), Some(t.id), Some(t.kind))
  }

  /** Parsing a call that was already parsed gives the same call again. */
  lemma NormalizeIdempotent(c: RawCall)
    ensures Normalize(AsRaw(Normalize(c))) == Normalize(c)
  {
  }

  /** The calls of a list, each parsed, in order. */
  function ParseAll(calls: seq<RawCall>): (r: seq<ToolCall>)
    ensures |r| == |calls|
    ensures forall i :: 0 <= i < |calls| ==> r[i] == Normalize(calls[i])
    decreases |calls|
  {
    if calls == [] then [] else ParseAll(calls[..|calls| - 1]) + [Normalize(calls[|calls| - 1])]
  }

  /** `get_openai_tools_schema` as a list comprehension over the tools. */
  function ToolsSchema(tools: seq<Tool>): (r: seq<SchemaEntry>)
    ensures |r| == |tools|
    ensures forall i :: 0 <= i < |tools| ==> r[i] == SchemaEntry("function", tools[i].openaiSchema)
    decreases |tools|
  {
    if tools == [] then [] else ToolsSchema(tools[..|tools| - 1]) + [SchemaEntry("function", tools[|tools| - 1].openaiSchema)]
  }

  /** What `call_llm` passes as `functions`: the schemas when there are tools and schemas, else nothing. */
  function Functions(tools: seq<Tool>, schemas: Option<seq<SchemaEntry>>): Option<seq<SchemaEntry>> {
    if tools != [] && schemas.Some? && schemas.value != [] then schemas else None
  }

  /** The first tool whose name is `name`; none when the call carries no name. */
  function FindTool(tools: seq<Tool>, name: Option<string>): (i: Option<nat>)
    ensures i.Some? ==> name.Some? && i.value < |tools| && tools[i.value].name == name.value
                        && forall j :: 0 <= j < i.value ==> tools[j].name != name.value
    ensures i.None? <==> name.None? || forall j :: 0 <= j < |tools| ==> tools[j].name != name.value
    decreases |tools|
  {
    if name.None? || tools == [] then None
    else if tools[0].name == name.value then Some(0)
    else
      match FindTool(tools[1..], name)
      case None => None
      case Some(k) => Some(k + 1)
  }

  /** A name as Python writes a string inside a list. */
  function Quote(name: string): string {
    "'" + name + "'"
  }

  /** The quoted names separated by ", ". */
  function QuotedNames(tools: seq<Tool>): string
    decreases |tools|
  {
    if tools == [] then ""
    else if |tools| == 1 then Quote(tools[0].name)
    else QuotedNames(tools[..|tools| - 1]) + ", " + Quote(tools[|tools| - 1].name)
  }

  /** `str([func.__name__ for func in self.tools])`; a class name holds no quote to escape. */
  function NameList(tools: seq<Tool>): (r: string)
    ensures |r| >= 2 && r[0] == '[' && r[|r| - 1] == ']'
  {
    "[" + QuotedNames(tools) + "]"
  }

  /** Two tools are listed the way Python prints a list of two strings. */
  lemma NameListExample()
    ensures NameList([Tool("Search", "{}"), Tool("Weather", "{}")]) == "['Search', 'Weather']"
  {
    var ts := [Tool("Search", "{}"), Tool("Weather", "{}")];
    assert ts[..1] == [Tool("Search", "{}")];
    assert QuotedNames(ts[..1]) == "'Search'";
  }

  /** How an f-string shows the looked-up name: the text, or `None` when the key is missing. */
  function ShowName(name: Option<string>): string {
    match name
    case None => "None"
    case Some(n) => n
  }

  /** The text `execute_tool` returns for a name no tool has (src/agents/agent.py:47). */
  function NotFound(tools: seq<Tool>, name: Option<string>): string {
    "Error: Function " + ShowName(name) + " not found. Available functions: " + NameList(tools)
  }

  /** `x` occurs in `s` at position `k`. */
  predicate OccursAt(x: string, s: string, k: int) {
    0 <= k <= |s| - |x| && s[k..k + |x|] == x
  }

  /** `x` occurs in `s`. */
  predicate Infix(x: string, s: string) {
    exists k :: 0 <= k <= |s| && OccursAt(x, s, k)
  }

  lemma InfixAppend(x: string, a: string, b: string)
    requires Infix(x, a)
    ensures Infix(x, a + b) && Infix(x, b + a)
  {
    var k :| 0 <= k <= |a| && OccursAt(x, a, k);
    assert a[k..k + |x|] == x;
    assert (a + b)[k..k + |x|] == a[k..k + |x|];
    assert OccursAt(x, a + b, k);
    assert (b + a)[|b| + k..|b| + k + |x|] == a[k..k + |x|];
    assert OccursAt(x, b + a, |b| + k);
  }

  lemma InfixSelf(x: string)
    ensures Infix(x, x)
  {
    assert x[0..|x|] == x;
    assert OccursAt(x, x, 0);
  }

  /** Every tool's name appears, quoted, in the list of names. */
  lemma {:induction false} QuotedNamesMention(tools: seq<Tool>, i: nat)
    requires i < |tools|
    ensures Infix(Quote(tools[i].name), QuotedNames(tools))
    decreases |tools|
  {
    var x := Quote(tools[i].name);
    InfixSelf(x);
    if |tools| > 1 {
      var init, last := tools[..|tools| - 1], Quote(tools[|tools| - 1].name);
      var q := QuotedNames(init);
      assert QuotedNames(tools) == q + ", " + last;
      ConcatAssoc(q, ", ", last);
      if i == |tools| - 1 {
        InfixAppend(x, x, q + ", ");
      } else {
        assert init[i] == tools[i];
        QuotedNamesMention(init, i);
        InfixAppend(x, q, ", " + last);
      }
    }
  }

  /** The not-found text names every registered tool. */
  lemma NotFoundListsTools(tools: seq<Tool>, name: Option<string>, i: nat)
    requires i < |tools|
    ensures Infix(Quote(tools[i].name), NotFound(tools, name))
  {
    var x, q := Quote(tools[i].name), QuotedNames(tools);
    var head := "Error: Function " + ShowName(name) + " not found. Available functions: ";
    QuotedNamesMention(tools, i);
    InfixAppend(x, q, "]");
    InfixAppend(x, q + "]", "[");
    assert NameList(tools) == "[" + (q + "]");
    InfixAppend(x, NameList(tools), head);
  }

  /** A tool's output and, on success, the tool message it adds to the history. */
  datatype ToolResult = ToolResult(output: string, logged: seq<Message>)

  /**
   * `execute_tool`: an unknown name gives the not-found text; an argument string or a tool
   * that raises gives "Error: " and the exception's text; only a success adds a message,
   * a tool message carrying the tool's name and the call's id.
   */
  function RunTool(s: Setup, call: RawCall): (r: ToolResult)
    ensures |r.logged| <= 1
    ensures FindTool(s.tools, call.name).None? ==> r.output == NotFound(s.tools, call.name) && r.logged == []
    ensures r.logged != [] ==>
              call.name.Some? && FindTool(s.tools, call.name).Some?
              && r.logged == [Message(ToolRole, r.output, [], Some(ToolRef(call.name.value, call.id)))]
    ensures FindTool(s.tools, call.name).Some? && r.logged == [] ==>
              |r.output| >= 7 && r.output[..7] == "Error: "
    ensures FindTool(s.tools, call.name).Some? ==>
              var tool := s.tools[FindTool(s.tools, call.name).value];
              var args := s.evaluate(call.arguments.GetOr("{}"));
              (args.Raised? ==> r == ToolResult("Error: " + args.error, []))
              && (args.Ok? && s.runTool(tool, args.value).Raised? ==>
                    r == ToolResult("Error: " + s.runTool(tool, args.value).error, []))
              && (args.Ok? && s.runTool(tool, args.value).Ok? ==>
                    r.output == s.runTool(tool, args.value).value
                    && r.logged == [Message(ToolRole, r.output, [], Some(ToolRef(call.name.value, call.id)))])
  {
    match FindTool(s.tools, call.name)
    case None => ToolResult(NotFound(s.tools, call.name), [])
    case Some(i) =>
      match s.evaluate(call.arguments.GetOr("{}"))
      case Raised(e) => ToolResult("Error: " + e, [])
      case Ok(args) =>
        match s.runTool(s.tools[i], args)
        case Raised(e) => ToolResult("Error: " + e, [])
        case Ok(output) => ToolResult(output, [Message(ToolRole, output, [], Some(ToolRef(call.name.value, call.id)))])
  }

  /** The tool messages `run_tools` adds for its calls, in order. */
  function ToolMessages(s: Setup, calls: seq<RawCall>): seq<Message>
    decreases |calls|
  {
    if calls == [] then [] else ToolMessages(s, calls[..|calls| - 1]) + RunTool(s, calls[|calls| - 1]).logged
  }

  /** The empty `function_call` object `{}`, which Python treats as false. */
  const EmptyCall := RawCall(None, None, None, None)

  /**
   * The calls `call_llm` attaches: the function call when there is one and it is not
   * empty, else none.
   */
  function CallsOf(reply: Reply): (calls: seq<RawCall>)
    ensures calls == [] <==> reply.functionCall.None? || reply.functionCall.value == EmptyCall
    ensures calls != [] ==> calls == [reply.functionCall.value]
  {
    match reply.functionCall
    case None => []
    case Some(c) => if c == EmptyCall then [] else [c]
  }

  /** The assistant message `call_llm` records for a reply. */
  function AssistantEntry(reply: Reply): Message {
    Message(Assistant, reply.content, ParseAll(CallsOf(reply)), None)
  }

  /**
   * `execute` from history `h` with the service's replies `replies`: one request; when it
   * raises, the exception leaves `execute`. Otherwise the reply is recorded; without tool
   * calls its content is returned; with them, every tool runs and `execute` starts again,
   * and when that raises the first content is returned instead.
   */
  function Exec(s: Setup, h: seq<Message>, replies: seq<Option<Reply>>): (t: Turn)
    ensures t.result.None? <==> replies == [] || replies[0].None?
    ensures |t.rest| < |replies| || (replies == [] && t.rest == [])
    ensures t.rest == replies[|replies| - |t.rest|..]
    ensures |t.sent| >= 1 && t.sent[0] == Request(h, s.functions)
    decreases |replies|
  {
    if replies == [] then Turn(h, None, [], [Request(h, s.functions)])
    else if replies[0].None? then Turn(h, None, replies[1..], [Request(h, s.functions)])
    else
      var reply := replies[0].value;
      var h1 := h + [AssistantEntry(reply)];
      var calls := CallsOf(reply);
      if calls == [] then Turn(h1, Some(reply.content), replies[1..], [Request(h, s.functions)])
      else
        var inner := Exec(s, h1 + ToolMessages(s, calls), replies[1..]);
        Turn(inner.history, if inner.result.None? then Some(reply.content) else inner.result,
             inner.rest, [Request(h, s.functions)] + inner.sent)
  }

  /** `execute` when the request raises: nothing recorded, the exception passes on. */
  lemma ExecRaised(s: Setup, h: seq<Message>, replies: seq<Option<Reply>>)
    requires replies == [] || replies[0].None?
    ensures Exec(s, h, replies) == Turn(h, None, if replies == [] then [] else replies[1..], [Request(h, s.functions)])
  {
  }

  /** `execute` when the request is answered: the reply is recorded, then either returned or followed by a tool round. */
  lemma ExecReplied(s: Setup, h: seq<Message>, replies: seq<Option<Reply>>)
    requires replies != [] && replies[0].Some?
    ensures var reply := replies[0].value;
            var h1 := h + [AssistantEntry(reply)];
            var t := Exec(s, h, replies);
            if CallsOf(reply) == [] then
              t == Turn(h1, Some(reply.content), replies[1..], [Request(h, s.functions)])
            else
              var inner := Exec(s, h1 + ToolMessages(s, CallsOf(reply)), replies[1..]);
              t == Turn(inner.history, if inner.result.None? then Some(reply.content) else inner.result,
                        inner.rest, [Request(h, s.functions)] + inner.sent)
  {
  }

  /**
   * One tool round ended by a plain answer: after a reply calling a tool and a reply with
   * no call, `execute` returns the second reply's content without raising. Two requests
   * were sent (the second one carries the tool round), and the history has gained the first
   * reply, the tool's message if the tool succeeded, and the second reply.
   */
  lemma ToolRoundThenAnswer(s: Setup, h: seq<Message>, first: Reply, second: Reply, later: seq<Option<Reply>>)
    requires first.functionCall.Some? && first.functionCall.value != EmptyCall
    requires second.functionCall.None?
    ensures var c := first.functionCall.value;
            var h1 := h + [AssistantEntry(first)] + RunTool(s, c).logged;
            Exec(s, h, [Some(first), Some(second)] + later)
            == Turn(h1 + [AssistantEntry(second)], Some(second.content), later,
                    [Request(h, s.functions), Request(h1, s.functions)])
  {
    var c := first.functionCall.value;
    var rs := [Some(first), Some(second)] + later;
    assert rs[1..] == [Some(second)] + later && ([Some(second)] + later)[1..] == later;
    ExecReplied(s, h, rs);
    assert ToolMessages(s, [c]) == RunTool(s, c).logged by {
      assert [c][..0] == [];
    }
    ExecReplied(s, h + [AssistantEntry(first)] + RunTool(s, c).logged, rs[1..]);
  }

  /**
   * A call to a name no tool has adds no tool message: the round records only the two
   * assistant replies, and the not-found text never reaches the history.
   */
  lemma UnknownToolThenAnswer(s: Setup, h: seq<Message>, first: Reply, second: Reply)
    requires first.functionCall.Some? && first.functionCall.value != EmptyCall
    requires FindTool(s.tools, first.functionCall.value.name).None?
    requires second.functionCall.None?
    ensures var t := Exec(s, h, [Some(first), Some(second)]);
            t.history == h + [AssistantEntry(first), AssistantEntry(second)]
            && t.result == Some(second.content) && t.rest == [] && |t.sent| == 2
  {
    ToolRoundThenAnswer(s, h, first, second, []);
    assert [Some(first), Some(second)] + [] == [Some(first), Some(second)];
  }

  /** A message the agent itself writes: an assistant reply, or the output of a registered tool. */
  predicate AgentWritten(tools: seq<Tool>, m: Message) {
    (m.role == Assistant && m.toolRef.None?)
    || (m.role == ToolRole && m.toolRef.Some? && m.toolCalls == []
        && exists j :: 0 <= j < |tools| && tools[j].name == m.toolRef.value.name)
  }

  predicate AllAgentWritten(tools: seq<Tool>, ms: seq<Message>) {
    forall k :: 0 <= k < |ms| ==> AgentWritten(tools, ms[k])
  }

  lemma AllAgentWrittenAppend(tools: seq<Tool>, a: seq<Message>, b: seq<Message>)
    requires AllAgentWritten(tools, a) && AllAgentWritten(tools, b)
    ensures AllAgentWritten(tools, a + b)
  {
    assert forall k :: |a| <= k < |a + b| ==> (a + b)[k] == b[k - |a|];
  }

  /** Tool messages come only from registered tools. */
  lemma {:induction false} ToolMessagesFromTools(s: Setup, calls: seq<RawCall>)
    ensures AllAgentWritten(s.tools, ToolMessages(s, calls))
    decreases |calls|
  {
    if calls != [] {
      ToolMessagesFromTools(s, calls[..|calls| - 1]);
      var c := calls[|calls| - 1];
      var r := RunTool(s, c);
      if r.logged != [] {
        var i := FindTool(s.tools, c.name).value;
        assert AgentWritten(s.tools, r.logged[0]) by {
          assert s.tools[i].name == r.logged[0].toolRef.value.name;
        }
      }
      AllAgentWrittenAppend(s.tools, ToolMessages(s, calls[..|calls| - 1]), r.logged);
    }
  }

  /** What follows `h` in a history that extends `h + a`. */
  lemma SuffixAfter(h: seq<Message>, a: seq<Message>, full: seq<Message>)
    requires h + a <= full
    ensures h <= full && full[|h|..] == a + full[|h + a|..]
  {
    assert forall k :: 0 <= k < |h| ==> full[k] == (h + a)[k];
  }

  /**
   * `execute` only appends to the history, and everything it appends is an assistant reply
   * or the output of a registered tool: it never writes a user or system message.
   */
  lemma {:induction false} ExecAppendsAgentMessages(s: Setup, h: seq<Message>, replies: seq<Option<Reply>>)
    ensures var t := Exec(s, h, replies);
            h <= t.history && AllAgentWritten(s.tools, t.history[|h|..])
    decreases |replies|
  {
    var t := Exec(s, h, replies);
    if replies == [] || replies[0].None? {
      assert t.history[|h|..] == [];
    } else {
      var reply := replies[0].value;
      var h1 := h + [AssistantEntry(reply)];
      var calls := CallsOf(reply);
      assert AllAgentWritten(s.tools, [AssistantEntry(reply)]);
      if calls == [] {
        assert t.history[|h|..] == [AssistantEntry(reply)];
      } else {
        var a := [AssistantEntry(reply)] + ToolMessages(s, calls);
        var h2 := h1 + ToolMessages(s, calls);
        assert h2 == h + a;
        ToolMessagesFromTools(s, calls);
        ExecAppendsAgentMessages(s, h2, replies[1..]);
        var inner := Exec(s, h2, replies[1..]);
        AllAgentWrittenAppend(s.tools, [AssistantEntry(reply)], ToolMessages(s, calls));
        SuffixAfter(h, a, inner.history);
        AllAgentWrittenAppend(s.tools, a, inner.history[|h2|..]);
      }
    }
  }

  /** An agent without tools never adds a tool message: every call names an unknown function. */
  lemma NoToolsNoToolMessages(s: Setup, h: seq<Message>, replies: seq<Option<Reply>>)
    requires s.tools == []
    ensures var t := Exec(s, h, replies);
            forall k :: |h| <= k < |t.history| ==> t.history[k].role == Assistant
  {
    ExecAppendsAgentMessages(s, h, replies);
    var t := Exec(s, h, replies);
    forall k | |h| <= k < |t.history| ensures t.history[k].role == Assistant {
      assert t.history[k] == t.history[|h|..][k - |h|];
    }
  }

  /** A constructed agent offers the model its tools' schemas exactly when it has tools. */
  lemma SchemasSentIffTools(tools: seq<Tool>)
    ensures var schemas := if tools == [] then None else Some(ToolsSchema(tools));
            Functions(tools, schemas) == if tools == [] then None else Some(ToolsSchema(tools))
  {
  }

  /** The history an agent starts from and returns to on `reset`. */
  function Initial(systemPrompt: string): (ms: seq<Message>)
    ensures systemPrompt == "" <==> ms == []
    ensures systemPrompt != "" ==> |ms| == 1 && ms[0].role == System && ms[0].content == systemPrompt
  {
    if systemPrompt == "" then [] else [Message(System, systemPrompt, [], None)]
  }

  /** The agent of src/agents/agent.py, with the service's upcoming replies as state. */
  class Agent {
    const name: string
    const model: string
    const tools: seq<Tool>
    const toolsSchemas: Option<seq<SchemaEntry>>
    const systemPrompt: string
    const evaluate: Evaluator
    const runTool: Runner
    var messages: seq<Message>
    /** The replies the chat service will give to the next requests, in order. */
    var replies: seq<Option<Reply>>
    /** The requests sent to the chat service so far. */
    var requests: seq<Request>

    /** The configuration `execute` runs with. */
    function Config(): Setup {
      Setup(tools, Functions(tools, toolsSchemas), evaluate, runTool)
    }

    /**
     * `__init__` (src/agents/agent.py:8-16): no tool list means none; schemas only when
     * there are tools; the history starts as the system prompt alone, or empty.
     */
    constructor (name: string, model: string, tools: Option<seq<Tool>>, systemPrompt: string,
                 evaluate: Evaluator, runTool: Runner, replies: seq<Option<Reply>>)
      ensures this.name == name && this.model == model && this.systemPrompt == systemPrompt
      ensures this.tools == tools.GetOr([])
      ensures this.toolsSchemas == if this.tools == [] then None else Some(ToolsSchema(this.tools))
      ensures this.evaluate == evaluate && this.runTool == runTool
      ensures messages == Initial(systemPrompt) && this.replies == replies && requests == []
    {
      this.name, this.model := name, model;
      var ts := if tools.Some? then tools.value else [];
      this.tools := ts;
      this.toolsSchemas := if ts != [] then Some(ToolsSchema(ts)) else None;
      this.systemPrompt := systemPrompt;
      this.evaluate, this.runTool := evaluate, runTool;
      this.replies, this.requests := replies, [];
      this.messages := [];
      if systemPrompt != "" {
        this.messages := this.messages + [Message(System, systemPrompt, [], None)];
      }
    }

    /** `parse_tool_calls` (src/agents/agent.py:103-113): each call parsed, in order. */
    method ParseToolCalls(calls: seq<RawCall>) returns (parsed: seq<ToolCall>)
      ensures |parsed| == |calls|
      ensures forall i :: 0 <= i < |calls| ==> parsed[i] == Normalize(calls[i])
    {
      parsed := [];
      for i := 0 to |calls|
        invariant |parsed| == i
        invariant forall k :: 0 <= k < i ==> parsed[k] == Normalize(calls[k])
      {
        parsed := parsed + [Normalize(calls[i])];
      }
    }

    /**
     * `handle_messages_history` (src/agents/agent.py:94-101): append exactly one message;
     * it carries parsed tool calls only for a non-empty list and a tool reference only
     * when one is given.
     */
    method HandleMessagesHistory(role: Role, content: string, toolCalls: seq<RawCall>, toolOutput: Option<ToolRef>)
      modifies this
      ensures messages == old(messages) + [Message(role, content, ParseAll(toolCalls), toolOutput)]
      ensures replies == old(replies) && requests == old(requests)
    {
      var parsed: seq<ToolCall> := [];
      if toolCalls != [] {
        parsed := ParseToolCalls(toolCalls);
      }
      assert parsed == ParseAll(toolCalls);
      messages := messages + [Message(role, content, parsed, toolOutput)];
    }

    /** `reset` (src/agents/agent.py:89-92): back to the initial history. */
    method Reset()
      modifies this
      ensures messages == Initial(systemPrompt)
      ensures replies == old(replies) && requests == old(requests)
    {
      messages := [];
      if systemPrompt != "" {
        HandleMessagesHistory(System, systemPrompt, [], None);
      }
    }

    /** `get_openai_tools_schema` (src/agents/agent.py:84-87): one entry per tool, in order. */
    method GetOpenaiToolsSchema() returns (r: seq<SchemaEntry>)
      ensures |r| == |tools|
      ensures forall i :: 0 <= i < |tools| ==> r[i].kind == "function" && r[i].schema == tools[i].openaiSchema
    {
      r := ToolsSchema(tools);
    }

    /**
     * `call_llm` (src/agents/agent.py:61-82): send the history with the tool schemas when
     * there are any. A reply is recorded as one assistant message, its function call (if
     * any) as its single tool call; a raising service changes no history.
     */
    method CallLlm() returns (reply: Option<Reply>)
      modifies this
      ensures requests == old(requests) + [Request(old(messages), Functions(tools, toolsSchemas))]
      ensures replies == if old(replies) == [] then [] else old(replies)[1..]
      ensures reply == if old(replies) == [] then None else old(replies)[0]
      ensures reply.None? ==> messages == old(messages)
      ensures reply.Some? ==> messages == old(messages) + [AssistantEntry(reply.value)]
    {
      requests := requests + [Request(messages, Functions(tools, toolsSchemas))];
      if replies == [] {
        return None;
      }
      reply := replies[0];
      replies := replies[1..];
      if reply.Some? {
        HandleMessagesHistory(Assistant, reply.value.content, CallsOf(reply.value), None);
      }
    }

    /**
     * `execute_tool` (src/agents/agent.py:42-59): look the tool up by name, evaluate the
     * arguments, run it and record its output; failures return a text and record nothing.
     */
    method ExecuteTool(call: RawCall) returns (output: string)
      modifies this
      ensures output == RunTool(Config(), call).output
      ensures messages == old(messages) + RunTool(Config(), call).logged
      ensures replies == old(replies) && requests == old(requests)
    {
      var found := FindTool(tools, call.name);
      if found.None? {
        return NotFound(tools, call.name);
      }
      var outcome := evaluate(if call.arguments.Some? then call.arguments.value else "{}");
      if outcome.Raised? {
        return "Error: " + outcome.error;
      }
      var ran := runTool(tools[found.value], outcome.value);
      if ran.Raised? {
        return "Error: " + ran.error;
      }
      output := ran.value;
      HandleMessagesHistory(ToolRole, output, [], Some(ToolRef(call.name.value, call.id)));
    }

    /** `execute` (src/agents/agent.py:24-33), as `Exec` describes it. */
    method Execute() returns (result: Option<string>)
      modifies this
      ensures var t := Exec(Config(), old(messages), old(replies));
              messages == t.history && result == t.result && replies == t.rest
              && requests == old(requests) + t.sent
      decreases |replies|, 0
    {
      ghost var s, h0, r0 := Config(), messages, replies;
      var reply := CallLlm();
      if reply.None? {
        ExecRaised(s, h0, r0);
        return None;
      }
      ExecReplied(s, h0, r0);
      var calls := CallsOf(reply.value);
      if calls == [] {
        return Some(reply.value.content);
      }
      ghost var q0, q1 := old(requests), requests;
      var inner := RunTools(calls);
      ConcatAssoc(q0, [Request(h0, s.functions)], requests[|q1|..]);
      result := if inner.None? then Some(reply.value.content) else inner;
    }

    /** `run_tools` (src/agents/agent.py:35-40): run every call in order, then `execute` again. */
    method RunTools(calls: seq<RawCall>) returns (result: Option<string>)
      modifies this
      ensures var t := Exec(Config(), old(messages) + ToolMessages(Config(), calls), old(replies));
              messages == t.history && result == t.result && replies == t.rest
              && requests == old(requests) + t.sent
      decreases |replies|, 1
    {
      for i := 0 to |calls|
        invariant messages == old(messages) + ToolMessages(Config(), calls[..i])
        invariant replies == old(replies) && requests == old(requests)
      {
        assert calls[..i + 1][..i] == calls[..i];
        var _ := ExecuteTool(calls[i]);
      }
      assert calls[..|calls|] == calls;
      result := Execute();
    }

    /** `invoke` (src/agents/agent.py:18-22): record the user's message, then `execute`. */
    method Invoke(message: string) returns (result: Option<string>)
      modifies this
      ensures var t := Exec(Config(), old(messages) + [Message(User, message, [], None)], old(replies));
              messages == t.history && result == t.result && replies == t.rest
              && requests == old(requests) + t.sent
      decreases |replies|, 2
    {
      HandleMessagesHistory(User, message, [], None);
      result := Execute();
    }
  }
}
