/**
 * The `/chat` route of `app/main.py`: it seeds the conversation, then runs at most four
 * rounds of "ask the model, run the tools it requested", and ends with the model's text or
 * with an HTTP error.
 *
 * The model, the clock and `json.loads` are oracles taken from an `Environment`.  The reply
 * `llm(hop, messages)` may depend on the hop and on everything sent so far.  `elapsed(hop)`
 * is the time `time.time() - t0` that is read just before hop `hop`.
 */
module Chat {
  import opened Json
  import opened Constraints
  import opened Tools
  import opened Dispatcher

  /** The `for _ in range(4)` bound on calls to the model. */
  const MaxHops: nat := 4

  /** The roles a history message may have (the `Role` literal type). */
  datatype Role = System | User | Assistant

  /** A history entry of the request body. */
  datatype Msg = Msg(role: Role, content: string)

  datatype ChatRequest = ChatRequest(message: string, history: seq<Msg>)

  /** A tool call emitted by the model; `arguments` is the undecoded argument text. */
  datatype ToolCall = ToolCall(id: string, name: string, arguments: string)

  /** An entry of `messages`. */
  datatype Message =
    | Text(role: Role, content: string)                       // {"role": r, "content": c}
    | CallRecord(call: ToolCall)                               // assistant message, content null, one tool call
    | ToolResult(toolCallId: string, name: string, result: Json) // the dispatcher's value for that call

  /** What a call to the model gives: a message, or the class name of the `OpenAIError` it raised. */
  datatype Response =
    | Completion(content: Option<string>, toolCalls: seq<ToolCall>)
    | UpstreamError(errorClass: string)

  /** The route's answer: `{"reply": text}` or an `HTTPException`. */
  datatype ChatResult = Reply(text: string) | HttpError(status: int, detail: string)

  datatype Environment = Environment(
    hasClient: bool,                              // OPENAI_API_KEY was set
    systemRules: string,                          // SYSTEM_RULES
    timeout: int,                                 // REQUEST_TIMEOUT_SECONDS
    elapsed: nat -> real,                         // seconds since t0, read before each hop
    llm: (nat, seq<Message>) -> Response,         // the chat completion of each hop
    decode: string -> Option<Json>,               // json.loads; None: JSONDecodeError
    gh: Request -> Result<Json>)                  // the GitHub API

  /**
   * How the loop runs one tool call: the value handed back to the model and the bio document
   * afterwards.  The loop's properties hold for every executor; the route uses `execute_tool`.
   */
  type Executor = (string, Json, Option<Dict>) -> Dispatched

  function ExecuteTools(gh: Request -> Result<Json>): Executor {
    (name: string, args: Json, file: Option<Dict>) => Dispatch(name, args, file, gh)
  }

  /** The end of a request: the answer, the bio document, the number of model calls and the last message list. */
  datatype Run = Run(outcome: ChatResult, file: Option<Dict>, calls: nat, messages: seq<Message>)

  /** `tc.function.arguments or "{}"`. */
  function ArgumentsText(arguments: string): (r: string)
    ensures arguments == "" ==> r == "{}"
    ensures arguments != "" ==> r == arguments
  {
    if arguments == "" then "{}" else arguments
  }

  function HistoryMessages(history: seq<Msg>): (r: seq<Message>)
    ensures |r| == |history|
    ensures forall i :: 0 <= i < |history| ==> r[i] == Text(history[i].role, history[i].content)
  {
    if history == [] then []
    else
      var last := history[|history| - 1];
      HistoryMessages(history[..|history| - 1]) + [Text(last.role, last.content)]
  }

  /** The message list before the first hop. */
  function Seed(env: Environment, req: ChatRequest): seq<Message> {
    [Text(System, env.systemRules)] + HistoryMessages(req.history)
      + [Text(User, TrimUserText(req.message, DefaultMaxChars))]
  }

  // ----- one round of tool calls -----

  /** The message list and bio document while a round's calls run; `aborted`: `json.loads` raised. */
  datatype Turn = Turn(messages: seq<Message>, file: Option<Dict>, aborted: bool)

  /** One tool call of the inner loop: decode, dispatch, append the two messages. */
  function CallStep(t: Turn, tc: ToolCall, env: Environment, exec: Executor): Turn {
    if t.aborted then t
    else match env.decode(ArgumentsText(tc.arguments))
      case None => Turn(t.messages, t.file, true)
      case Some(args) =>
        var d := exec(tc.name, args, t.file);
        Turn(t.messages + [CallRecord(tc), ToolResult(tc.id, tc.name, d.result)], d.file, false)
  }

  /** The inner loop over `msg.tool_calls`, in emitted order. */
  function DispatchTurn(calls: seq<ToolCall>, messages: seq<Message>, file: Option<Dict>, env: Environment, exec: Executor): Turn {
    if calls == [] then Turn(messages, file, false)
    else CallStep(DispatchTurn(calls[..|calls| - 1], messages, file, env, exec), calls[|calls| - 1], env, exec)
  }

  // ----- the hops -----

  /** What one hop leads to: the end of the request, or the list and document the next hop starts from. */
  datatype Step = Stop(run: Run) | Continue(messages: seq<Message>, file: Option<Dict>)

  /** One iteration of `for _ in range(4)`: the clock check, the model call, and its tool calls. */
  function HopStep(hop: nat, messages: seq<Message>, file: Option<Dict>, env: Environment, exec: Executor): Step {
    if env.elapsed(hop) > env.timeout as real then
      Stop(Run(HttpError(408, "Request timeout (tool loop)"), file, hop, messages))
    else match env.llm(hop, messages)
      case UpstreamError(cls) => Stop(Run(HttpError(502, "OpenAI error: " + cls), file, hop + 1, messages))
      case Completion(content, calls) =>
        if calls == [] then Stop(Run(Reply(Strip(content.GetOr(""))), file, hop + 1, messages))
        else
          var t := DispatchTurn(calls, messages, file, env, exec);
          if t.aborted then Stop(Run(HttpError(500, "Internal Server Error"), t.file, hop + 1, t.messages))
          else Continue(t.messages, t.file)
  }

  /** The loop from hop `hop` on, with `messages` and `file` as that hop finds them. */
  function Hops(hop: nat, messages: seq<Message>, file: Option<Dict>, env: Environment, exec: Executor): Run
    decreases MaxHops - hop
  {
    if hop >= MaxHops then Run(HttpError(500, "Tool loop did not converge"), file, hop, messages)
    else match HopStep(hop, messages, file, env, exec)
      case Stop(r) => r
      case Continue(ms, f) => Hops(hop + 1, ms, f, env, exec)
  }

  /** `chat(req)` with the bio document `file` on disk. */
  function ChatSpec(req: ChatRequest, file: Option<Dict>, env: Environment): Run {
    if !env.hasClient then Run(HttpError(500, "OPENAI_API_KEY not configured"), file, 0, [])
    else Hops(0, Seed(env, req), file, env, ExecuteTools(env.gh))
  }

  /** After the seed the list holds assistant/tool pairs, the tool message answering the call before it. */
  predicate Paired(ms: seq<Message>)
    decreases |ms|
  {
    ms == [] || (|ms| >= 2 && ms[0].CallRecord? && ms[1].ToolResult?
      && ms[1].toolCallId == ms[0].call.id && ms[1].name == ms[0].call.name && Paired(ms[2..]))
  }

  // ----- properties of the seed and of a round -----

  /** The conversation starts with the rules, then the history in order, then the trimmed message. */
  lemma SeedShape(env: Environment, req: ChatRequest)
    ensures var s := Seed(env, req);
      && |s| == |req.history| + 2
      && s[0] == Text(System, env.systemRules)
      && (forall i :: 0 <= i < |req.history| ==> s[i + 1] == Text(req.history[i].role, req.history[i].content))
      && s[|s| - 1] == Text(User, TrimUserText(req.message, DefaultMaxChars))
  {
  }

  lemma {:induction false} PairedAppend(a: seq<Message>, b: seq<Message>)
    requires Paired(a) && Paired(b)
    ensures Paired(a + b)
    decreases |a|
  {
    if a == [] {
      assert a + b == b;
    } else {
      assert (a + b)[0] == a[0] && (a + b)[1] == a[1];
      assert (a + b)[2..] == a[2..] + b;
      PairedAppend(a[2..], b);
    }
  }

  /** Two extensions by pairs make one. */
  lemma PairedChain(a: seq<Message>, b: seq<Message>, c: seq<Message>)
    requires |a| <= |b| && b[..|a|] == a && Paired(b[|a|..])
    requires |b| <= |c| && c[..|b|] == b && Paired(c[|b|..])
    ensures c[..|a|] == a && Paired(c[|a|..])
  {
    assert c[|a|..] == b[|a|..] + c[|b|..];
    PairedAppend(b[|a|..], c[|b|..]);
  }

  /** A round never changes the messages it started from and adds only assistant/tool pairs. */
  lemma {:induction false} TurnPaired(calls: seq<ToolCall>, ms: seq<Message>, file: Option<Dict>, env: Environment, exec: Executor)
    ensures var t := DispatchTurn(calls, ms, file, env, exec);
      |ms| <= |t.messages| && t.messages[..|ms|] == ms && Paired(t.messages[|ms|..])
  {
    if calls != [] {
      var prev := DispatchTurn(calls[..|calls| - 1], ms, file, env, exec);
      TurnPaired(calls[..|calls| - 1], ms, file, env, exec);
      var t := DispatchTurn(calls, ms, file, env, exec);
      if t.messages != prev.messages {
        var tc := calls[|calls| - 1];
        var pair := t.messages[|prev.messages|..];
        assert t.messages == prev.messages + pair;
        assert Paired(pair[2..]);
        PairedAppend(prev.messages[|ms|..], pair);
        assert t.messages[|ms|..] == prev.messages[|ms|..] + pair;
      }
    }
  }

  /** A round is cut short exactly when the arguments of one of its calls do not decode. */
  lemma {:induction false} TurnAbortIff(calls: seq<ToolCall>, ms: seq<Message>, file: Option<Dict>, env: Environment, exec: Executor)
    ensures DispatchTurn(calls, ms, file, env, exec).aborted <==>
      exists i :: 0 <= i < |calls| && env.decode(ArgumentsText(calls[i].arguments)).None?
  {
    if calls != [] {
      var init := calls[..|calls| - 1];
      TurnAbortIff(init, ms, file, env, exec);
      if exists i :: 0 <= i < |init| && env.decode(ArgumentsText(init[i].arguments)).None? {
        var i :| 0 <= i < |init| && env.decode(ArgumentsText(init[i].arguments)).None?;
        assert calls[i] == init[i];
      }
      if exists i :: 0 <= i < |calls| && env.decode(ArgumentsText(calls[i].arguments)).None? {
        var i :| 0 <= i < |calls| && env.decode(ArgumentsText(calls[i].arguments)).None?;
        if i < |init| {
          assert init[i] == calls[i];
        }
      }
    }
  }

  /** Once a call has aborted the round, the later calls do nothing: the tool effects before it stay. */
  lemma {:induction false} TurnAbortSticks(calls: seq<ToolCall>, k: nat, ms: seq<Message>, file: Option<Dict>, env: Environment, exec: Executor)
    requires k <= |calls| && DispatchTurn(calls[..k], ms, file, env, exec).aborted
    ensures DispatchTurn(calls, ms, file, env, exec) == DispatchTurn(calls[..k], ms, file, env, exec)
    decreases |calls|
  {
    if k < |calls| {
      var init := calls[..|calls| - 1];
      assert init[..k] == calls[..k];
      TurnAbortSticks(init, k, ms, file, env, exec);
    } else {
      assert calls[..k] == calls;
    }
  }

  /**
   * A round of `k` calls that decode appends exactly `2k` messages: for each call, in order,
   * its assistant record and then the tool message with its id, its name and the dispatcher's
   * value on the bio document left by the calls before it.
   */
  lemma {:induction false} TurnAppends(calls: seq<ToolCall>, ms: seq<Message>, file: Option<Dict>, env: Environment, exec: Executor)
    requires !DispatchTurn(calls, ms, file, env, exec).aborted
    ensures var t := DispatchTurn(calls, ms, file, env, exec);
      && |t.messages| == |ms| + 2 * |calls|
      && t.messages[..|ms|] == ms
      && forall i :: 0 <= i < |calls| ==>
        var args := env.decode(ArgumentsText(calls[i].arguments));
        && args.Some?
        && t.messages[|ms| + 2 * i] == CallRecord(calls[i])
        && t.messages[|ms| + 2 * i + 1] ==
          ToolResult(calls[i].id, calls[i].name, exec(calls[i].name, args.value, DispatchTurn(calls[..i], ms, file, env, exec).file).result)
  {
    if calls != [] {
      var n := |calls| - 1;
      var init := calls[..n];
      var prev := DispatchTurn(init, ms, file, env, exec);
      assert !prev.aborted;
      TurnAppends(init, ms, file, env, exec);
      var t := DispatchTurn(calls, ms, file, env, exec);
      assert t.messages[..|prev.messages|] == prev.messages;
      forall i | 0 <= i < |calls|
        ensures var args := env.decode(ArgumentsText(calls[i].arguments));
          && args.Some?
          && t.messages[|ms| + 2 * i] == CallRecord(calls[i])
          && t.messages[|ms| + 2 * i + 1] ==
            ToolResult(calls[i].id, calls[i].name, exec(calls[i].name, args.value, DispatchTurn(calls[..i], ms, file, env, exec).file).result)
      {
        if i < n {
          assert calls[i] == init[i];
          assert calls[..i] == init[..i];
          assert t.messages[|ms| + 2 * i] == prev.messages[|ms| + 2 * i];
          assert t.messages[|ms| + 2 * i + 1] == prev.messages[|ms| + 2 * i + 1];
        } else {
          assert calls[..i] == init;
        }
      }
    }
  }

  // ----- properties of the loop -----

  /** Every run makes at most four model calls, and the hops already made count. */
  lemma {:induction false} HopsBound(hop: nat, ms: seq<Message>, file: Option<Dict>, env: Environment, exec: Executor)
    requires hop <= MaxHops
    ensures hop <= Hops(hop, ms, file, env, exec).calls <= MaxHops
    decreases MaxHops - hop
  {
    if hop < MaxHops {
      var step := HopStep(hop, ms, file, env, exec);
      if step.Continue? {
        HopsBound(hop + 1, step.messages, step.file, env, exec);
      }
    }
  }

  /** The clock is read before every model call: each call made found the time within the limit. */
  lemma {:induction false} TimeoutBeforeEveryCall(hop: nat, ms: seq<Message>, file: Option<Dict>, env: Environment, exec: Executor)
    ensures var r := Hops(hop, ms, file, env, exec);
      forall h :: hop <= h < r.calls ==> env.elapsed(h) <= env.timeout as real
    decreases MaxHops - hop
  {
    if hop < MaxHops {
      var step := HopStep(hop, ms, file, env, exec);
      if step.Continue? {
        TimeoutBeforeEveryCall(hop + 1, step.messages, step.file, env, exec);
      }
    }
  }

  /** A 408 ends the request exactly at a hop whose clock reading was over the limit, before its model call. */
  lemma {:induction false} TimeoutStops(hop: nat, ms: seq<Message>, file: Option<Dict>, env: Environment, exec: Executor)
    ensures var r := Hops(hop, ms, file, env, exec);
      r.outcome.HttpError? && r.outcome.status == 408 ==>
        hop <= r.calls < MaxHops && env.elapsed(r.calls) > env.timeout as real
    decreases MaxHops - hop
  {
    if hop < MaxHops {
      var step := HopStep(hop, ms, file, env, exec);
      if step.Continue? {
        TimeoutStops(hop + 1, step.messages, step.file, env, exec);
      }
    }
  }

  /** A hop that ends in a reply made one call, on the list it was given, and that call answered without tools. */
  lemma HopStepReply(hop: nat, ms: seq<Message>, file: Option<Dict>, env: Environment, exec: Executor)
    ensures var s := HopStep(hop, ms, file, env, exec);
      s.Stop? && s.run.outcome.Reply? ==>
        && s.run.calls == hop + 1 && s.run.messages == ms
        && var resp := env.llm(hop, ms);
        && resp.Completion? && resp.toolCalls == []
        && s.run.outcome.text == Strip(resp.content.GetOr(""))
  {
  }

  /**
   * A reply only comes from a response without tool calls: the last model call, on the
   * last message list, answered text whose stripped form (`""` for null) is the reply.
   */
  lemma {:induction false} ReplyOnlyFromFinal(hop: nat, ms: seq<Message>, file: Option<Dict>, env: Environment, exec: Executor)
    ensures var r := Hops(hop, ms, file, env, exec);
      r.outcome.Reply? ==>
        && hop < r.calls
        && var resp := env.llm(r.calls - 1, r.messages);
        && resp.Completion? && resp.toolCalls == []
        && r.outcome.text == Strip(resp.content.GetOr(""))
    decreases MaxHops - hop
  {
    if hop < MaxHops {
      var step := HopStep(hop, ms, file, env, exec);
      HopStepReply(hop, ms, file, env, exec);
      if step.Continue? {
        ReplyOnlyFromFinal(hop + 1, step.messages, step.file, env, exec);
      }
    }
  }

  /** The list only grows: what a hop starts from stays as it is, followed by assistant/tool pairs. */
  lemma {:induction false} HopsTranscript(hop: nat, ms: seq<Message>, file: Option<Dict>, env: Environment, exec: Executor)
    ensures var r := Hops(hop, ms, file, env, exec);
      |ms| <= |r.messages| && r.messages[..|ms|] == ms && Paired(r.messages[|ms|..])
    decreases MaxHops - hop
  {
    var r := Hops(hop, ms, file, env, exec);
    assert ms[|ms|..] == [];
    if hop < MaxHops && env.elapsed(hop) <= env.timeout as real {
      match env.llm(hop, ms)
      case UpstreamError(_) =>
      case Completion(_, calls) =>
        if calls != [] {
          var t := DispatchTurn(calls, ms, file, env, exec);
          TurnPaired(calls, ms, file, env, exec);
          if !t.aborted {
            HopsTranscript(hop + 1, t.messages, t.file, env, exec);
            PairedChain(ms, t.messages, r.messages);
          }
        }
    }
  }

  /**
   * When every response asks for tools, every argument decodes and the clock stays within
   * the limit, the request fails with "did not converge" after exactly four model calls.
   */
  lemma {:induction false} NonConvergence(hop: nat, ms: seq<Message>, file: Option<Dict>, env: Environment, exec: Executor)
    requires hop <= MaxHops
    requires forall h, m :: env.llm(h, m).Completion? && env.llm(h, m).toolCalls != []
    requires forall h, m, i :: 0 <= i < |env.llm(h, m).toolCalls| ==>
      env.decode(ArgumentsText(env.llm(h, m).toolCalls[i].arguments)).Some?
    requires forall h :: env.elapsed(h) <= env.timeout as real
    ensures var r := Hops(hop, ms, file, env, exec);
      r.outcome == HttpError(500, "Tool loop did not converge") && r.calls == MaxHops
    decreases MaxHops - hop
  {
    if hop < MaxHops {
      var calls := env.llm(hop, ms).toolCalls;
      TurnAbortIff(calls, ms, file, env, exec);
      var t := DispatchTurn(calls, ms, file, env, exec);
      NonConvergence(hop + 1, t.messages, t.file, env, exec);
    }
  }

  /** The outcomes of the loop are the reply and the four errors it raises, and nothing else. */
  lemma {:induction false} HopsOutcomes(hop: nat, ms: seq<Message>, file: Option<Dict>, env: Environment, exec: Executor)
    ensures var o := Hops(hop, ms, file, env, exec).outcome;
      || o.Reply?
      || o == HttpError(408, "Request timeout (tool loop)")
      || (o.HttpError? && o.status == 502 && |o.detail| >= 14 && o.detail[..14] == "OpenAI error: ")
      || o == HttpError(500, "Internal Server Error")
      || o == HttpError(500, "Tool loop did not converge")
    decreases MaxHops - hop
  {
    if hop < MaxHops && env.elapsed(hop) <= env.timeout as real {
      match env.llm(hop, ms)
      case UpstreamError(cls) =>
        assert ("OpenAI error: " + cls)[..14] == "OpenAI error: ";
      case Completion(_, calls) =>
        if calls != [] {
          var t := DispatchTurn(calls, ms, file, env, exec);
          if !t.aborted {
            HopsOutcomes(hop + 1, t.messages, t.file, env, exec);
          }
        }
    }
  }

  /** A first response without tool calls is the reply, after one call, with the bio document untouched. */
  lemma FirstResponseFinal(req: ChatRequest, file: Option<Dict>, env: Environment, content: Option<string>)
    requires env.hasClient && env.elapsed(0) <= env.timeout as real
    requires env.llm(0, Seed(env, req)) == Completion(content, [])
    ensures ChatSpec(req, file, env) == Run(Reply(Strip(content.GetOr(""))), file, 1, Seed(env, req))
  {
  }

  /** Without an API key the route fails before it calls the model or reads the clock. */
  lemma MissingClient(req: ChatRequest, file: Option<Dict>, env: Environment)
    requires !env.hasClient
    ensures var r := ChatSpec(req, file, env);
      r.outcome == HttpError(500, "OPENAI_API_KEY not configured") && r.calls == 0 && r.file == file
  {
  }

  /** A late clock before the first hop gives 408 without any model call. */
  lemma TimeoutFirst(req: ChatRequest, file: Option<Dict>, env: Environment)
    requires env.hasClient && env.elapsed(0) > env.timeout as real
    ensures var r := ChatSpec(req, file, env);
      r.outcome == HttpError(408, "Request timeout (tool loop)") && r.calls == 0 && r.file == file
  {
  }

  // ----- the route -----

  /** The route handler over the bio file, with the loops of the source. */
  method HandleChat(bio: BioFile, req: ChatRequest, env: Environment) returns (r: ChatResult)
    modifies bio
    ensures r == ChatSpec(req, old(bio.file), env).outcome
    ensures bio.file == ChatSpec(req, old(bio.file), env).file
  {
    if !env.hasClient {
      return HttpError(500, "OPENAI_API_KEY not configured");
    }
    var messages := SeedMessages(env, req);
    ghost var spec := ChatSpec(req, old(bio.file), env);
    for hop := 0 to MaxHops
      invariant Hops(hop, messages, bio.file, env, ExecuteTools(env.gh)) == spec
    {
      if env.elapsed(hop) > env.timeout as real {
        return HttpError(408, "Request timeout (tool loop)");
      }
      var resp := env.llm(hop, messages);
      if resp.UpstreamError? {
        return HttpError(502, "OpenAI error: " + resp.errorClass);
      }
      if resp.toolCalls == [] {
        return Reply(Strip(resp.content.GetOr("")));
      }
      var out, aborted := RunToolCalls(bio, resp.toolCalls, messages, env);
      if aborted {
        return HttpError(500, "Internal Server Error");
      }
      messages := out;
    }
    return HttpError(500, "Tool loop did not converge");
  }

  /** The message list the first hop sends, built by appending as the route does. */
  method SeedMessages(env: Environment, req: ChatRequest) returns (messages: seq<Message>)
    ensures messages == Seed(env, req)
  {
    var userText := TrimUserText(req.message, DefaultMaxChars);
    messages := [Text(System, env.systemRules)];
    for k := 0 to |req.history|
      invariant messages == [Text(System, env.systemRules)] + HistoryMessages(req.history[..k])
    {
      assert req.history[..k + 1][..k] == req.history[..k];
      messages := messages + [Text(req.history[k].role, req.history[k].content)];
    }
    assert req.history[..|req.history|] == req.history;
    messages := messages + [Text(User, userText)];
  }

  /**
   * The inner `for tc in msg.tool_calls` loop: decode the arguments, run the tool, append the
   * assistant record and the tool message.  `aborted`: `json.loads` raised and the loop stopped.
   */
  method RunToolCalls(bio: BioFile, calls: seq<ToolCall>, messages: seq<Message>, env: Environment)
    returns (out: seq<Message>, aborted: bool)
    modifies bio
    ensures DispatchTurn(calls, messages, old(bio.file), env, ExecuteTools(env.gh)) == Turn(out, bio.file, aborted)
  {
    ghost var file0 := bio.file;
    out := messages;
    for i := 0 to |calls|
      invariant DispatchTurn(calls[..i], messages, file0, env, ExecuteTools(env.gh)) == Turn(out, bio.file, false)
    {
      var tc := calls[i];
      assert calls[..i + 1][..i] == calls[..i];
      var args := env.decode(ArgumentsText(tc.arguments));
      if args.None? {
        TurnAbortSticks(calls, i + 1, messages, file0, env, ExecuteTools(env.gh));
        return out, true;
      }
      var result := ExecuteTool(bio, tc.name, args.value, env.gh);
      out := out + [CallRecord(tc), ToolResult(tc.id, tc.name, result)];
    }
    assert calls[..|calls|] == calls;
    aborted := false;
  }
}
