/** What answers a tool call and in which mode a batch runs, told from the tools, the hooks and the
    execution alone. */
module ToolAnswers {
  import opened Messages
  import opened Oracles
  import opened Events
  import opened ToolBatch

  // ---- Which tool a name means, and which mode a batch wants ----

  /** Position t holds the first tool of that name. */
  predicate IsFirstNamed(tools: seq<Tool>, name: string, t: int) {
    && 0 <= t < |tools| && tools[t].name == name
    && forall u :: 0 <= u < t ==> tools[u].name != name
  }

  predicate NoneNamed(tools: seq<Tool>, name: string) {
    forall t :: 0 <= t < |tools| ==> tools[t].name != name
  }

  lemma {:induction false} FindToolIsFirst(tools: seq<Tool>, name: string)
    ensures FindTool(tools, name).None? <==> NoneNamed(tools, name)
    ensures FindTool(tools, name).Some? ==>
      exists t :: IsFirstNamed(tools, name, t) && tools[t] == FindTool(tools, name).value
    ensures forall t :: IsFirstNamed(tools, name, t) ==> FindTool(tools, name) == Some(tools[t])
  {
    if tools != [] {
      var rest := tools[1..];
      FindToolIsFirst(rest, name);
      if tools[0].name == name {
        assert IsFirstNamed(tools, name, 0);
      } else {
        forall t | IsFirstNamed(tools, name, t) ensures FindTool(tools, name) == Some(tools[t]) {
          assert rest[t - 1] == tools[t] && forall u :: 0 <= u < t - 1 ==> rest[u] == tools[u + 1];
          assert IsFirstNamed(rest, name, t - 1);
        }
        if FindTool(rest, name).Some? {
          var t :| IsFirstNamed(rest, name, t) && rest[t] == FindTool(rest, name).value;
          assert tools[t + 1] == rest[t] && forall u :: 0 < u < t + 1 ==> tools[u] == rest[u - 1];
          assert IsFirstNamed(tools, name, t + 1);
        }
      }
    }
  }

  /** The tool that a call means must not run beside others. */
  ghost predicate MeansSequentialTool(tools: seq<Tool>, name: string) {
    exists t :: IsFirstNamed(tools, name, t) && tools[t].executionMode == Some(Sequential)
  }

  /** The configuration or one of the tool-call blocks asks for one call at a time. */
  ghost predicate WantsSequential(env: Env, tools: seq<Tool>, content: seq<Block>) {
    || env.toolExecution == Sequential
    || exists p :: 0 <= p < |content| && content[p].Call? && MeansSequentialTool(tools, content[p].call.name)
  }

  lemma MarkedMeansSequential(tools: seq<Tool>, call: ToolCall)
    ensures MarkedSequential(tools, call) <==> MeansSequentialTool(tools, call.name)
  {
    FindToolIsFirst(tools, call.name);
    hide FindTool, IsFirstNamed;
  }

  /** The mode of some calls. */
  lemma ModeOfCalls(env: Env, tools: seq<Tool>, calls: seq<ToolCall>)
    ensures RunsSequentially(env, tools, calls) <==>
      env.toolExecution == Sequential || exists i :: 0 <= i < |calls| && MeansSequentialTool(tools, calls[i].name)
  {
    hide MarkedSequential, MeansSequentialTool;
    forall i | 0 <= i < |calls|
      ensures MarkedSequential(tools, calls[i]) <==> MeansSequentialTool(tools, calls[i].name)
    {
      MarkedMeansSequential(tools, calls[i]);
    }
  }

  /** A batch runs one by one exactly if the configuration or a called tool wants it. */
  lemma ModeIsAsWanted(env: Env, tools: seq<Tool>, content: seq<Block>)
    ensures RunsSequentially(env, tools, CallsIn(content)) <==> WantsSequential(env, tools, content)
  {
    ModeOfCalls(env, tools, CallsIn(content));
    var at := CallsAreTheCallBlocks(content);
    var calls := CallsIn(content);
    hide CallsIn, MeansSequentialTool, RunsSequentially;
    if p :| 0 <= p < |content| && content[p].Call? && MeansSequentialTool(tools, content[p].call.name) {
      var i :| 0 <= i < |at| && at[i] == p;
      assert calls[i] == content[p].call;
    }
    if i :| 0 <= i < |calls| && MeansSequentialTool(tools, calls[i].name) {
      assert content[at[i]].call == calls[i];
    }
  }

  // ---- The result of a call ----

  /** An error that tells this text. */
  predicate TellsError(f: Finalized, text: string) {
    f.isError && f.output == ToolOutput(text, "{}", None)
  }

  /** The output and the error mark of an execution, before any hook. */
  predicate ProducedBy(result: Attempt<ToolOutput>, output: ToolOutput, isError: bool) {
    match result
    case Returned(o) => output == o && !isError
    case Threw(text) => output == ToolOutput(text, "{}", None) && isError
  }

  predicate Replaced<T(==)>(given: Option<T>, before: T, after: T) {
    (given.Some? ==> after == given.value) && (given.None? ==> after == before)
  }

  /** The `afterToolCall` hook replaces what it gives, field by field, and turns into an error if it throws. */
  predicate RevisedBy(answer: Attempt<Override>, output: ToolOutput, isError: bool, f: Finalized) {
    match answer
    case Threw(text) => TellsError(f, text)
    case Returned(o) =>
      && Replaced(o.content, output.content, f.output.content)
      && Replaced(o.details, output.details, f.output.details)
      && Replaced(o.isError, isError, f.isError)
      && (o.terminate.Some? ==> f.output.terminate == o.terminate)
      && (o.terminate.None? ==> f.output.terminate == output.terminate)
  }

  /** The result of a call that was executed. */
  ghost predicate SettledAs(env: Env, at: nat, call: ToolCall, args: string, result: Attempt<ToolOutput>,
    f: Finalized)
  {
    && f.call == call
    && exists output, isError :: ProducedBy(result, output, isError) &&
         if env.afterToolCall.None? then f.output == output && f.isError == isError
         else RevisedBy(env.afterToolCall.value(at, call, args, output, isError), output, isError, f)
  }

  lemma SettleMeans(env: Env, at: nat, call: ToolCall, args: string, result: Attempt<ToolOutput>)
    ensures SettledAs(env, at, call, args, result, Settle(env, at, call, args, result))
  {
    var output := if result.Returned? then result.value else ToolOutput(result.error, "{}", None);
    assert ProducedBy(result, output, result.Threw?);
  }

  // ---- The answer to a call ----

  /** The call is not executed; its result is an error that tells why. */
  predicate RefusedWith(answer: Answer, text: string) {
    !answer.through && answer.updates == [] && TellsError(answer.outcome, text)
  }

  /** The call is executed with these arguments: all its partial results are shown, and it is settled. */
  ghost predicate ExecutedWith(env: Env, call: ToolCall, args: string, w: Moments, answer: Answer) {
    var execution := env.execute(w.executed, call, args);
    && answer.through && answer.updates == execution.updates
    && SettledAs(env, w.settled, call, args, execution.result, answer.outcome)
  }

  /** The call of a known tool: its arguments are validated, then the `beforeToolCall` hook is asked, then the
      abort signal counts, then a block; only the first of them that fails decides. */
  ghost predicate AnsweredBy(env: Env, tool: Tool, call: ToolCall, w: Moments, answer: Answer) {
    match env.toolArguments(w.prepared, tool, call)
    case Threw(text) => RefusedWith(answer, text)
    case Returned(args) =>
      var asked :=
        if env.beforeToolCall.Some? then env.beforeToolCall.value(w.prepared, call, args) else Returned(Allow);
      if asked.Threw? then RefusedWith(answer, asked.error)
      else if w.aborted then RefusedWith(answer, "Operation aborted")
      else
        match asked.value
        case Block(Some(reason)) => RefusedWith(answer, if reason != "" then reason else "Tool execution was blocked")
        case Block(None) => RefusedWith(answer, "Tool execution was blocked")
        case Allow => ExecutedWith(env, call, args, w, answer)
  }

  /** What answers a call, at the given moments. */
  ghost predicate AnsweredAs(env: Env, tools: seq<Tool>, call: ToolCall, w: Moments, answer: Answer) {
    && answer.outcome.call == call
    && (NoneNamed(tools, call.name) ==> RefusedWith(answer, "Tool " + call.name + " not found"))
    && forall t :: IsFirstNamed(tools, call.name, t) ==> AnsweredBy(env, tools[t], call, w, answer)
  }

  lemma AnswerMeans(env: Env, tools: seq<Tool>, call: ToolCall, w: Moments)
    ensures AnsweredAs(env, tools, call, w, AnswerAt(env, tools, call, w))
  {
    FindToolIsFirst(tools, call.name);
    hide FindTool, NoneNamed, Settle, SettledAs;
    forall t | IsFirstNamed(tools, call.name, t)
      ensures AnsweredBy(env, tools[t], call, w, AnswerAt(env, tools, call, w))
    {
      KnownToolAnswers(env, tools, tools[t], call, w);
    }
  }

  lemma KnownToolAnswers(env: Env, tools: seq<Tool>, tool: Tool, call: ToolCall, w: Moments)
    requires FindTool(tools, call.name) == Some(tool)
    ensures AnsweredBy(env, tool, call, w, AnswerAt(env, tools, call, w))
  {
    hide FindTool, Settle, SettledAs;
    match env.toolArguments(w.prepared, tool, call)
    case Threw(_) =>
    case Returned(args) =>
      SettleMeans(env, w.settled, call, args, env.execute(w.executed, call, args).result);
  }

  // ---- What is shown of a call ----

  /** The events of one call: its start, all its partial results in order, and its end with the result. */
  predicate TellsCall(es: seq<Event>, slot: nat, f: Finalized, updates: seq<string>) {
    && |es| == |updates| + 2
    && es[0] == ToolStart(slot, f.call)
    && (forall i :: 0 <= i < |updates| ==> es[1 + i] == ToolUpdate(slot, f.call, updates[i]))
    && es[|es| - 1] == ToolEnd(slot, f.call, f.output, f.isError)
  }

  lemma CallEventsTell(slot: nat, f: Finalized, updates: seq<string>)
    ensures TellsCall(CallEvents(slot, f, updates), slot, f, updates)
  {
  }
}
