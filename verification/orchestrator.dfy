/**
 * `run_analysis`: the bounded conversation with the language model. Each
 * round sends the transcript, and either ends with the model's answer or
 * dispatches the tool calls it asked for and feeds their results back.
 *
 * The language model, `json.loads`, `json.dumps` and the registered
 * functions are parameters (an `Env`). `RunFrom` is the reference
 * definition of a run. `RunAnalysis` is the loop as the source writes it,
 * proved equal to `Analyze`, and the lemmas state what every run satisfies.
 */
module Orchestrator {

  import opened Common
  import opened Dispatch

  /** One tool call requested by the model: its id, the tool name and the raw JSON arguments. */
  datatype ToolCall = ToolCall(id: string, name: string, arguments: string)

  /** What one chat-completion request yields: the assistant message, or an exception. */
  datatype Reply =
    | Reply(content: Option<string>, toolCalls: seq<ToolCall>)
    | Raises(message: string)

  /** The role-tagged transcript entries. */
  datatype Message =
    | SystemMessage(content: string)
    | UserMessage(content: string)
    | AssistantMessage(text: Option<string>, toolCalls: seq<ToolCall>)
    | ToolMessage(toolCallId: string, name: string, content: string)

  /** The execution log entries shown to the user. */
  datatype LogEntry =
    | FunctionCall(name: string, arguments: Json)
    | FunctionResult(name: string, result: Json)
    | FinalResponse(content: Option<string>)
    | Error(message: string)

  /**
   * `json.loads` (which may fail with a message), `json.dumps` and
   * `execute_function_call`. The loop treats the dispatcher as a value;
   * `AppTools` wires in the one of the `Dispatch` module.
   */
  datatype Tools = Tools(parse: string -> Result<Json, string>, encode: Json -> string,
                         execute: (string, Json) -> Json)

  /** The tools of the application: the dispatcher over the registered functions `impl`. */
  function AppTools(parse: string -> Result<Json, string>, encode: Json -> string, impl: Impl): (t: Tools)
    ensures forall name, args :: t.execute(name, args) == ExecuteFunctionCall(impl, name, args)
  {
    Tools(parse, encode, (name, args) => ExecuteFunctionCall(impl, name, args))
  }

  /**
   * The world a run talks to: the system prompt (its wording is not
   * modelled), the language model as a function of the 1-based round number
   * and the transcript sent, and the tools.
   */
  datatype Env = Env(prompt: string, llm: (nat, seq<Message>) -> Reply, tools: Tools)

  const MaxIterations: nat := 10

  const ExceededMessage: string :=
    "Analysis exceeded maximum iterations. Please try again with a simpler query."

  datatype State = State(messages: seq<Message>, log: seq<LogEntry>)

  /** The result of handling one reply's tool calls: carry on, or an exception aborted the run. */
  datatype Batch = Continue(state: State) | Abort(state: State, error: string)

  /** What `run_analysis` returns (the log and the text), plus the final transcript. */
  datatype Run = Run(log: seq<LogEntry>, answer: Option<string>, messages: seq<Message>)

  /** The transcript every run starts from: the system prompt, then the user's query. */
  function InitialState(env: Env, query: string): State
  {
    State([SystemMessage(env.prompt), UserMessage(query)], [])
  }

  /**
   * Log entries in dispatch order: each `function_call` is immediately
   * followed by the `function_result` of the same name, and that result is
   * what the dispatcher returns for the logged name and arguments.
   */
  ghost predicate Paired(execute: (string, Json) -> Json, entries: seq<LogEntry>)
    decreases |entries|
  {
    || entries == []
    || (&& |entries| >= 2
        && entries[0].FunctionCall?
        && entries[1] == FunctionResult(entries[0].name,
                                        execute(entries[0].name, entries[0].arguments))
        && Paired(execute, entries[2..]))
  }

  /** The names of the `function_call` entries, in order. */
  ghost function CalledNames(entries: seq<LogEntry>): seq<string>
    decreases |entries|
  {
    if entries == [] then []
    else if entries[0].FunctionCall? then [entries[0].name] + CalledNames(entries[1..])
    else CalledNames(entries[1..])
  }

  ghost function Names(calls: seq<ToolCall>): seq<string>
    decreases |calls|
  {
    if calls == [] then [] else [calls[0].name] + Names(calls[1..])
  }

  lemma {:induction false} PairedAppend(execute: (string, Json) -> Json, a: seq<LogEntry>, b: seq<LogEntry>)
    requires Paired(execute, a) && Paired(execute, b)
    ensures Paired(execute, a + b)
    decreases |a|
  {
    if a == [] {
      assert a + b == b;
    } else {
      assert (a + b)[2..] == a[2..] + b;
      PairedAppend(execute, a[2..], b);
    }
  }

  lemma {:induction false} CalledNamesAppend(a: seq<LogEntry>, b: seq<LogEntry>)
    ensures CalledNames(a + b) == CalledNames(a) + CalledNames(b)
    decreases |a|
  {
    if a == [] {
      assert a + b == b;
    } else {
      assert (a + b)[1..] == a[1..] + b;
      CalledNamesAppend(a[1..], b);
    }
  }

  /**
   * The `for tool_call in ...` loop: parse each call's arguments, log the
   * call, dispatch it, log the result and append one `tool` message. A
   * parse failure aborts (it raises inside the round's `try`); anything the
   * dispatcher returns, error records included, does not. The transcript
   * and the log are only appended to.
   */
  function ProcessCalls(tools: Tools, calls: seq<ToolCall>, st: State): (o: Batch)
    ensures st.messages <= o.state.messages && st.log <= o.state.log
    decreases |calls|
  {
    if calls == [] then Continue(st)
    else
      var call := calls[0];
      match tools.parse(call.arguments)
      case Err(e) => Abort(st, e)
      case Ok(args) =>
        var result := tools.execute(call.name, args);
        ProcessCalls(tools, calls[1..],
          State(st.messages + [ToolMessage(call.id, call.name, tools.encode(result))],
                st.log + [FunctionCall(call.name, args), FunctionResult(call.name, result)]))
  }

  /** The batch runs to completion exactly when every call's arguments parse. */
  lemma {:induction false} ProcessCallsContinues(tools: Tools, calls: seq<ToolCall>, st: State)
    ensures ProcessCalls(tools, calls, st).Continue? <==>
      forall j :: 0 <= j < |calls| ==> tools.parse(calls[j].arguments).Ok?
    decreases |calls|
  {
    if calls != [] && tools.parse(calls[0].arguments).Ok? {
      var args := tools.parse(calls[0].arguments).value;
      var result := tools.execute(calls[0].name, args);
      ProcessCallsContinues(tools, calls[1..],
        State(st.messages + [ToolMessage(calls[0].id, calls[0].name, tools.encode(result))],
              st.log + [FunctionCall(calls[0].name, args), FunctionResult(calls[0].name, result)]));
      assert forall j :: 1 <= j < |calls| ==> calls[j] == calls[1..][j - 1];
    }
  }

  /**
   * An aborted batch was aborted by the parse error of one of its calls, and
   * the log it leaves holds call/result pairs only.
   */
  lemma {:induction false} ProcessCallsLog(tools: Tools, calls: seq<ToolCall>, st: State)
    ensures var o := ProcessCalls(tools, calls, st);
      && Paired(tools.execute, o.state.log[|st.log|..])
      && (o.Continue? ==> CalledNames(o.state.log[|st.log|..]) == Names(calls))
      && (o.Abort? ==> exists j :: 0 <= j < |calls| && tools.parse(calls[j].arguments) == Err(o.error))
    decreases |calls|
  {
    var o := ProcessCalls(tools, calls, st);
    if calls == [] || tools.parse(calls[0].arguments).Err? {
      assert o.state.log[|st.log|..] == [];
    } else {
      var call := calls[0];
      var args := tools.parse(call.arguments).value;
      var result := tools.execute(call.name, args);
      var entries := [FunctionCall(call.name, args), FunctionResult(call.name, result)];
      var next := State(st.messages + [ToolMessage(call.id, call.name, tools.encode(result))], st.log + entries);
      ProcessCallsLog(tools, calls[1..], next);
      assert o == ProcessCalls(tools, calls[1..], next);
      assert o.state.log[|st.log|..] == entries + o.state.log[|next.log|..];
      assert Paired(tools.execute, entries) by { assert entries[2..] == []; }
      PairedAppend(tools.execute, entries, o.state.log[|next.log|..]);
      CalledNamesAppend(entries, o.state.log[|next.log|..]);
      assert CalledNames(entries) == [call.name] by {
        assert entries[1..][1..] == [];
      }
      if o.Abort? {
        var j :| 0 <= j < |calls[1..]| && tools.parse(calls[1..][j].arguments) == Err(o.error);
        assert tools.parse(calls[j + 1].arguments) == Err(o.error);
      }
    }
  }

  /** `msgs` are the `tool` messages answering `calls`, one per call and in order, by id and name. */
  ghost predicate AnswersCalls(msgs: seq<Message>, calls: seq<ToolCall>)
  {
    && |msgs| == |calls|
    && forall j :: 0 <= j < |calls| ==>
         msgs[j].ToolMessage? && msgs[j].toolCallId == calls[j].id && msgs[j].name == calls[j].name
  }

  /** A completed batch appends exactly one `tool` message per call, carrying that call's id and name. */
  lemma {:induction false} ProcessCallsMessages(tools: Tools, calls: seq<ToolCall>, st: State)
    ensures var o := ProcessCalls(tools, calls, st);
      o.Continue? ==> AnswersCalls(o.state.messages[|st.messages|..], calls)
    decreases |calls|
  {
    if calls != [] && tools.parse(calls[0].arguments).Ok? {
      var call := calls[0];
      var args := tools.parse(call.arguments).value;
      var result := tools.execute(call.name, args);
      var next := State(st.messages + [ToolMessage(call.id, call.name, tools.encode(result))],
                        st.log + [FunctionCall(call.name, args), FunctionResult(call.name, result)]);
      ProcessCallsMessages(tools, calls[1..], next);
      var o := ProcessCalls(tools, calls, st);
      assert o == ProcessCalls(tools, calls[1..], next);
      if o.Continue? {
        var added := o.state.messages[|st.messages|..];
        var rest := o.state.messages[|next.messages|..];
        assert added == [next.messages[|st.messages|]] + rest;
        assert AnswersCalls(rest, calls[1..]);
        forall j | 0 <= j < |calls|
          ensures added[j].ToolMessage? && added[j].toolCallId == calls[j].id && added[j].name == calls[j].name
        {
          if j > 0 {
            assert added[j] == rest[j - 1] && calls[j] == calls[1..][j - 1];
          }
        }
      }
    }
  }

  /** The text of an exception caught in round `k`. */
  function ErrorText(k: nat, e: string): string
  {
    "Error in iteration " + NatToString(k) + ": " + e
  }

  /** The return of the `except` branch: log the error and answer with it. */
  function Failed(k: nat, e: string, st: State): Run
  {
    Run(st.log + [Error(ErrorText(k, e))], Some("Analysis error: " + ErrorText(k, e)), st.messages)
  }

  /**
   * The run from the point where `iteration` rounds are done and the
   * transcript and log are `st`: the reference definition of the loop.
   */
  ghost function RunFrom(env: Env, iteration: nat, st: State): (r: Run)
    requires iteration <= MaxIterations
    ensures st.log <= r.log && st.messages <= r.messages
    decreases MaxIterations - iteration
  {
    if iteration == MaxIterations then Run(st.log, Some(ExceededMessage), st.messages)
    else
      var k := iteration + 1;
      match env.llm(k, st.messages)
      case Raises(e) => Failed(k, e, st)
      case Reply(content, calls) =>
        if calls == [] then Run(st.log + [FinalResponse(content)], content, st.messages)
        else
          match ProcessCalls(env.tools, calls, State(st.messages + [AssistantMessage(content, calls)], st.log))
          case Abort(s, e) => Failed(k, e, s)
          case Continue(s) => RunFrom(env, k, s)
  }

  /** The whole run for a query: every transcript it sends starts with the system prompt and the query. */
  ghost function Analyze(env: Env, query: string): (r: Run)
    ensures |r.messages| >= 2
    ensures r.messages[0] == SystemMessage(env.prompt) && r.messages[1] == UserMessage(query)
  {
    var r := RunFrom(env, 0, InitialState(env, query));
    assert InitialState(env, query).messages <= r.messages;
    r
  }

  /**
   * The `for tool_call in ...` loop as the source writes it. A `json.loads`
   * failure propagates to the round's `except`, which is what `Abort` stands for.
   */
  method RunToolCalls(tools: Tools, calls: seq<ToolCall>, messages: seq<Message>, log: seq<LogEntry>)
    returns (o: Batch)
    ensures o == ProcessCalls(tools, calls, State(messages, log))
  {
    var msgs, entries := messages, log;
    var i := 0;
    while i < |calls|
      invariant 0 <= i <= |calls|
      invariant ProcessCalls(tools, calls[i..], State(msgs, entries)) == ProcessCalls(tools, calls, State(messages, log))
    {
      var call := calls[i];
      assert calls[i..][0] == call && calls[i..][1..] == calls[i + 1..];
      var parsed := tools.parse(call.arguments);
      if parsed.Err? {
        return Abort(State(msgs, entries), parsed.error);
      }
      var args := parsed.value;
      ghost var entriesBefore := entries;
      entries := entries + [FunctionCall(call.name, args)];
      var result := tools.execute(call.name, args);
      entries := entries + [FunctionResult(call.name, result)];
      msgs := msgs + [ToolMessage(call.id, call.name, tools.encode(result))];
      assert entries == entriesBefore + [FunctionCall(call.name, args), FunctionResult(call.name, result)];
      i := i + 1;
    }
    assert calls[i..] == [];
    return Continue(State(msgs, entries));
  }

  /**
   * `run_analysis` as the source writes it: at most ten rounds, each sending
   * the transcript to the model and then either returning its answer or
   * running the requested tool calls.
   */
  method RunAnalysis(query: string, env: Env) returns (log: seq<LogEntry>, answer: Option<string>)
    ensures log == Analyze(env, query).log && answer == Analyze(env, query).answer
  {
    var messages := [SystemMessage(env.prompt), UserMessage(query)];
    log := [];
    var iteration: nat := 0;
    while iteration < MaxIterations
      invariant iteration <= MaxIterations
      invariant RunFrom(env, iteration, State(messages, log)) == Analyze(env, query)
      decreases MaxIterations - iteration
    {
      iteration := iteration + 1;
      var reply := env.llm(iteration, messages);
      if reply.Raises? {
        var msg := ErrorText(iteration, reply.message);
        log := log + [Error(msg)];
        answer := Some("Analysis error: " + msg);
        return;
      }
      if reply.toolCalls == [] {
        log := log + [FinalResponse(reply.content)];
        answer := reply.content;
        return;
      }
      messages := messages + [AssistantMessage(reply.content, reply.toolCalls)];
      var batch := RunToolCalls(env.tools, reply.toolCalls, messages, log);
      if batch.Abort? {
        var msg := ErrorText(iteration, batch.error);
        log := batch.state.log + [Error(msg)];
        answer := Some("Analysis error: " + msg);
        return;
      }
      messages, log := batch.state.messages, batch.state.log;
    }
    answer := Some(ExceededMessage);
  }

  /** How a run ends: the loop ran out of rounds, the model answered, or an exception was caught. */
  ghost predicate Ending(last: LogEntry, answer: Option<string>)
  {
    || last == FinalResponse(answer)
    || (&& last.Error?
        && answer == Some("Analysis error: " + last.message)
        && exists k: nat, e :: 1 <= k <= MaxIterations && last.message == ErrorText(k, e))
  }

  /**
   * The shape of every log: call/result pairs, and then either nothing (the
   * rounds ran out, and the answer says so) or exactly one closing entry that
   * the answer agrees with.
   */
  ghost predicate WellFormedRun(execute: (string, Json) -> Json, log: seq<LogEntry>, answer: Option<string>)
  {
    || (Paired(execute, log) && answer == Some(ExceededMessage))
    || (&& |log| > 0
        && Paired(execute, log[..|log| - 1])
        && Ending(log[|log| - 1], answer))
  }

  lemma WellFormedPrepend(execute: (string, Json) -> Json, batch: seq<LogEntry>, tail: seq<LogEntry>,
                          answer: Option<string>)
    requires Paired(execute, batch) && WellFormedRun(execute, tail, answer)
    ensures WellFormedRun(execute, batch + tail, answer)
  {
    if Paired(execute, tail) && answer == Some(ExceededMessage) {
      PairedAppend(execute, batch, tail);
    } else {
      ClosedPrepend(execute, batch, tail, answer);
    }
  }

  /** Call/result pairs in front of a log that closes with its ending leave the ending last. */
  lemma ClosedPrepend(execute: (string, Json) -> Json, batch: seq<LogEntry>, tail: seq<LogEntry>,
                      answer: Option<string>)
    requires Paired(execute, batch) && |tail| > 0
    requires Paired(execute, tail[..|tail| - 1]) && Ending(tail[|tail| - 1], answer)
    ensures |batch + tail| > 0
    ensures Paired(execute, (batch + tail)[..|batch + tail| - 1])
    ensures Ending((batch + tail)[|batch + tail| - 1], answer)
  {
    var log := batch + tail;
    assert log[..|log| - 1] == batch + tail[..|tail| - 1];
    assert log[|log| - 1] == tail[|tail| - 1];
    PairedAppend(execute, batch, tail[..|tail| - 1]);
  }

  lemma FailedIsWellFormed(execute: (string, Json) -> Json, batch: seq<LogEntry>, k: nat, e: string)
    requires Paired(execute, batch) && 1 <= k <= MaxIterations
    ensures WellFormedRun(execute, batch + [Error(ErrorText(k, e))], Some("Analysis error: " + ErrorText(k, e)))
  {
    var log := batch + [Error(ErrorText(k, e))];
    assert log[..|log| - 1] == batch;
  }

  /** A round whose tool calls all ran hands over to the next round; one that aborted ends with the error. */
  lemma ToolRoundWellFormed(env: Env, iteration: nat, st: State, content: Option<string>, calls: seq<ToolCall>)
    requires iteration < MaxIterations
    requires env.llm(iteration + 1, st.messages) == Reply(content, calls) && calls != []
    requires var o := ProcessCalls(env.tools, calls, State(st.messages + [AssistantMessage(content, calls)], st.log));
      o.Continue? ==>
        var next := RunFrom(env, iteration + 1, o.state);
        WellFormedRun(env.tools.execute, next.log[|o.state.log|..], next.answer)
    ensures var r := RunFrom(env, iteration, st);
      WellFormedRun(env.tools.execute, r.log[|st.log|..], r.answer)
  {
    var withReply := State(st.messages + [AssistantMessage(content, calls)], st.log);
    var o := ProcessCalls(env.tools, calls, withReply);
    ProcessCallsLog(env.tools, calls, withReply);
    if o.Abort? {
      AbortedRoundWellFormed(env, iteration, st, content, calls);
    } else {
      var r := RunFrom(env, iteration, st);
      assert r == RunFrom(env, iteration + 1, o.state);
      var batch := o.state.log[|st.log|..];
      assert r.log[|st.log|..] == batch + r.log[|o.state.log|..];
      WellFormedPrepend(env.tools.execute, batch, r.log[|o.state.log|..], r.answer);
    }
  }

  /** A round whose tool calls aborted logs its pairs, then the error, and answers with it. */
  lemma AbortedRoundWellFormed(env: Env, iteration: nat, st: State, content: Option<string>, calls: seq<ToolCall>)
    requires iteration < MaxIterations
    requires env.llm(iteration + 1, st.messages) == Reply(content, calls) && calls != []
    requires ProcessCalls(env.tools, calls, State(st.messages + [AssistantMessage(content, calls)], st.log)).Abort?
    ensures var r := RunFrom(env, iteration, st);
      WellFormedRun(env.tools.execute, r.log[|st.log|..], r.answer)
  {
    var k := iteration + 1;
    var withReply := State(st.messages + [AssistantMessage(content, calls)], st.log);
    var o := ProcessCalls(env.tools, calls, withReply);
    ProcessCallsLog(env.tools, calls, withReply);
    var r := RunFrom(env, iteration, st);
    var batch := o.state.log[|st.log|..];
    assert r == Failed(k, o.error, o.state);
    assert r.log[|st.log|..] == batch + [Error(ErrorText(k, o.error))];
    FailedIsWellFormed(env.tools.execute, batch, k, o.error);
  }

  lemma {:induction false} RunFromWellFormed(env: Env, iteration: nat, st: State)
    requires iteration <= MaxIterations
    ensures var r := RunFrom(env, iteration, st);
      WellFormedRun(env.tools.execute, r.log[|st.log|..], r.answer)
    decreases MaxIterations - iteration
  {
    var r := RunFrom(env, iteration, st);
    if iteration == MaxIterations {
      assert r.log[|st.log|..] == [];
    } else {
      var k := iteration + 1;
      match env.llm(k, st.messages)
      case Raises(e) =>
        assert r.log[|st.log|..] == [] + [Error(ErrorText(k, e))];
        FailedIsWellFormed(env.tools.execute, [], k, e);
      case Reply(content, calls) =>
        if calls == [] {
          assert r.log[|st.log|..] == [FinalResponse(content)];
        } else {
          var o := ProcessCalls(env.tools, calls, State(st.messages + [AssistantMessage(content, calls)], st.log));
          if o.Continue? {
            RunFromWellFormed(env, k, o.state);
          }
          ToolRoundWellFormed(env, iteration, st, content, calls);
        }
    }
  }

  /** Every run's log has the shape `WellFormedRun` describes. */
  lemma AnalysisIsWellFormed(env: Env, query: string)
    ensures WellFormedRun(env.tools.execute, Analyze(env, query).log, Analyze(env, query).answer)
  {
    RunFromWellFormed(env, 0, InitialState(env, query));
  }

  /** The model is consulted only in rounds `iteration + 1` to ten. */
  lemma {:induction false} RunFromConsultsTenRounds(env1: Env, env2: Env, iteration: nat, st: State)
    requires iteration <= MaxIterations
    requires env1.tools == env2.tools
    requires forall k, m :: iteration < k <= MaxIterations ==> env1.llm(k, m) == env2.llm(k, m)
    ensures RunFrom(env1, iteration, st) == RunFrom(env2, iteration, st)
    decreases MaxIterations - iteration
  {
    if iteration < MaxIterations {
      var reply := env1.llm(iteration + 1, st.messages);
      if reply.Reply? && reply.toolCalls != [] {
        var o := ProcessCalls(env1.tools, reply.toolCalls,
                              State(st.messages + [AssistantMessage(reply.content, reply.toolCalls)], st.log));
        if o.Continue? {
          RunFromConsultsTenRounds(env1, env2, iteration + 1, o.state);
        }
      }
    }
  }

  /**
   * At most ten chat-completion requests: two models that agree on rounds
   * one to ten give the same run, whatever they would do afterwards.
   */
  lemma AtMostTenModelCalls(env1: Env, env2: Env, query: string)
    requires env1.prompt == env2.prompt && env1.tools == env2.tools
    requires forall k, m :: 1 <= k <= MaxIterations ==> env1.llm(k, m) == env2.llm(k, m)
    ensures Analyze(env1, query) == Analyze(env2, query)
  {
    RunFromConsultsTenRounds(env1, env2, 0, InitialState(env1, query));
  }

  /** A first reply without tool calls ends the run with the model's text. */
  lemma AnswerWithoutToolCalls(env: Env, query: string, content: Option<string>)
    requires env.llm(1, InitialState(env, query).messages) == Reply(content, [])
    ensures Analyze(env, query).log == [FinalResponse(content)]
    ensures Analyze(env, query).answer == content
  {
  }

  /** A first request that raises ends the run with the error of round one. */
  lemma ModelFailureInFirstRound(env: Env, query: string, e: string)
    requires env.llm(1, InitialState(env, query).messages) == Raises(e)
    ensures Analyze(env, query).log == [Error("Error in iteration 1: " + e)]
    ensures Analyze(env, query).answer == Some("Analysis error: Error in iteration 1: " + e)
  {
    assert NatToString(1) == "1";
    assert ErrorText(1, e) == "Error in iteration 1: " + e;
    assert "Analysis error: " + ErrorText(1, e) == "Analysis error: Error in iteration 1: " + e;
  }

  /** The model's reply in round `k` always asks for tools, and every argument string parses. */
  ghost predicate AlwaysCallsTools(env: Env)
  {
    && (forall k, m :: 1 <= k <= MaxIterations ==> env.llm(k, m).Reply? && env.llm(k, m).toolCalls != [])
    && (forall s :: env.tools.parse(s).Ok?)
  }

  /** The batch of tool calls of round `iteration + 1`, run on the transcript extended with the reply. */
  ghost function ToolRound(env: Env, iteration: nat, st: State): Batch
    requires env.llm(iteration + 1, st.messages).Reply?
  {
    var reply := env.llm(iteration + 1, st.messages);
    ProcessCalls(env.tools, reply.toolCalls, State(st.messages + [AssistantMessage(reply.content, reply.toolCalls)], st.log))
  }

  /** When every argument string parses, a round with tool calls runs them all and hands over to the next round. */
  lemma ToolRoundContinues(env: Env, iteration: nat, st: State)
    requires iteration < MaxIterations
    requires env.llm(iteration + 1, st.messages).Reply? && env.llm(iteration + 1, st.messages).toolCalls != []
    requires forall s :: env.tools.parse(s).Ok?
    ensures var o := ToolRound(env, iteration, st);
      && o.Continue?
      && RunFrom(env, iteration, st) == RunFrom(env, iteration + 1, o.state)
      && st.log <= o.state.log
      && Paired(env.tools.execute, o.state.log[|st.log|..])
  {
    var reply := env.llm(iteration + 1, st.messages);
    var withReply := State(st.messages + [AssistantMessage(reply.content, reply.toolCalls)], st.log);
    ProcessCallsContinues(env.tools, reply.toolCalls, withReply);
    ProcessCallsLog(env.tools, reply.toolCalls, withReply);
  }

  lemma {:induction false} RunFromExhausts(env: Env, iteration: nat, st: State)
    requires iteration <= MaxIterations && AlwaysCallsTools(env)
    ensures var r := RunFrom(env, iteration, st);
      r.answer == Some(ExceededMessage) && Paired(env.tools.execute, r.log[|st.log|..])
    decreases MaxIterations - iteration
  {
    if iteration == MaxIterations {
      assert RunFrom(env, iteration, st).log[|st.log|..] == [];
    } else {
      var next := ToolRoundOfAlwaysCalls(env, iteration, st);
      RunFromExhausts(env, iteration + 1, next);
      PairedSegments(env.tools.execute, st.log, next.log, RunFrom(env, iteration, st).log);
    }
  }

  /** A model that always calls tools hands each round over to the next, adding call/result pairs to the log. */
  lemma ToolRoundOfAlwaysCalls(env: Env, iteration: nat, st: State) returns (next: State)
    requires iteration < MaxIterations && AlwaysCallsTools(env)
    ensures RunFrom(env, iteration, st) == RunFrom(env, iteration + 1, next)
    ensures st.log <= next.log && Paired(env.tools.execute, next.log[|st.log|..])
  {
    ToolRoundContinues(env, iteration, st);
    next := ToolRound(env, iteration, st).state;
  }

  /** Call/result pairs after `a` up to `b`, and after `b` up to `c`, make call/result pairs after `a` up to `c`. */
  lemma PairedSegments(execute: (string, Json) -> Json, a: seq<LogEntry>, b: seq<LogEntry>, c: seq<LogEntry>)
    requires a <= b <= c
    requires Paired(execute, b[|a|..]) && Paired(execute, c[|b|..])
    ensures Paired(execute, c[|a|..])
  {
    assert c[|a|..] == b[|a|..] + c[|b|..];
    PairedAppend(execute, b[|a|..], c[|b|..]);
  }

  /**
   * A model that asks for tools in every round uses up all ten rounds: the
   * answer is the max-iterations message and the log holds call/result pairs only.
   */
  lemma ExhaustsWhenModelAlwaysCallsTools(env: Env, query: string)
    requires AlwaysCallsTools(env)
    ensures Analyze(env, query).answer == Some(ExceededMessage)
    ensures Paired(env.tools.execute, Analyze(env, query).log)
  {
    RunFromExhausts(env, 0, InitialState(env, query));
  }

  /** No entry of `log` from position `from` on is an error entry. */
  ghost predicate NoErrorFrom(log: seq<LogEntry>, from: nat)
  {
    forall i :: from <= i < |log| ==> !log[i].Error?
  }

  /**
   * Failing capabilities never end a run: when the model never raises and
   * every argument string parses, the log holds no error entry, whatever the
   * registered functions return or raise.
   */
  lemma {:induction false} NoErrorEntryWithoutExceptions(env: Env, iteration: nat, st: State)
    requires iteration <= MaxIterations
    requires forall k, m :: 1 <= k <= MaxIterations ==> env.llm(k, m).Reply?
    requires forall s :: env.tools.parse(s).Ok?
    ensures NoErrorFrom(RunFrom(env, iteration, st).log, |st.log|)
    decreases MaxIterations - iteration
  {
    if iteration < MaxIterations && env.llm(iteration + 1, st.messages).toolCalls != [] {
      ToolRoundContinues(env, iteration, st);
      var next := ToolRound(env, iteration, st).state;
      NoErrorEntryWithoutExceptions(env, iteration + 1, next);
      NoErrorAfterPairs(env.tools.execute, st.log, next.log, RunFrom(env, iteration + 1, next).log);
    }
  }

  /** A stretch of call/result pairs followed by entries that are not errors holds no error entry. */
  lemma NoErrorAfterPairs(execute: (string, Json) -> Json, before: seq<LogEntry>, mid: seq<LogEntry>, full: seq<LogEntry>)
    requires before <= mid <= full
    requires Paired(execute, mid[|before|..]) && NoErrorFrom(full, |mid|)
    ensures NoErrorFrom(full, |before|)
  {
    var batch := mid[|before|..];
    forall i | |before| <= i < |full|
      ensures !full[i].Error?
    {
      if i < |mid| {
        assert full[i] == batch[i - |before|];
        PairedHasNoError(execute, batch, i - |before|);
      }
    }
  }

  lemma {:induction false} PairedHasNoError(execute: (string, Json) -> Json, entries: seq<LogEntry>, i: nat)
    requires Paired(execute, entries) && i < |entries|
    ensures entries[i].FunctionCall? || entries[i].FunctionResult?
    decreases |entries|
  {
    if i >= 2 {
      assert entries[i] == entries[2..][i - 2];
      PairedHasNoError(execute, entries[2..], i - 2);
    }
  }
}
