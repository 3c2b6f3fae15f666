/** Tool calls of one assistant message: preparing, executing and finishing them, in any interleaving. */
module ToolBatch {
  import opened Messages
  import opened Oracles
  import opened Events

  // ---- One call ----

  function FindTool(tools: seq<Tool>, name: string): Option<Tool> {
    if tools == [] then None
    else if tools[0].name == name then Some(tools[0])
    else FindTool(tools[1..], name)
  }

  predicate MarkedSequential(tools: seq<Tool>, call: ToolCall) {
    var tool := FindTool(tools, call.name);
    tool.Some? && tool.value.executionMode == Some(Sequential)
  }

  predicate RunsSequentially(env: Env, tools: seq<Tool>, calls: seq<ToolCall>) {
    env.toolExecution == Sequential || exists i :: 0 <= i < |calls| && MarkedSequential(tools, calls[i])
  }

  function ErrorOutput(message: string): ToolOutput {
    ToolOutput(message, "{}", None)
  }

  function Refused(call: ToolCall, message: string): Finalized {
    Finalized(call, ErrorOutput(message), true)
  }

  datatype Preparation = Prepared(call: ToolCall, args: string) | Immediate(outcome: Finalized)

  /** The preflight of a call. `aborted` is the abort signal after the `beforeToolCall` hook. */
  function Prepare(env: Env, at: nat, tools: seq<Tool>, call: ToolCall, aborted: bool): Preparation {
    var tool := FindTool(tools, call.name);
    if tool.None? then Immediate(Refused(call, "Tool " + call.name + " not found"))
    else match env.toolArguments(at, tool.value, call)
      case Threw(error) => Immediate(Refused(call, error))
      case Returned(args) =>
        if env.beforeToolCall.Some? then
          match env.beforeToolCall.value(at, call, args)
          case Threw(error) => Immediate(Refused(call, error))
          case Returned(verdict) =>
            if aborted then Immediate(Refused(call, "Operation aborted"))
            else if verdict.Block? then Immediate(Refused(call, BlockReason(verdict.reason)))
            else Prepared(call, args)
        else if aborted then Immediate(Refused(call, "Operation aborted"))
        else Prepared(call, args)
  }

  function BlockReason(reason: Option<string>): string {
    if reason.Some? && reason.value != "" then reason.value else "Tool execution was blocked"
  }

  /** A call is let through exactly when its tool exists, its arguments are valid, the hook allows it
      and the run has not been aborted; otherwise it is answered with an error at once. */
  lemma PreparedExactlyWhenAllowed(env: Env, at: nat, tools: seq<Tool>, call: ToolCall, aborted: bool)
    ensures var p := Prepare(env, at, tools, call, aborted);
      var tool := FindTool(tools, call.name);
      && (p.Prepared? <==>
            && !aborted && tool.Some?
            && env.toolArguments(at, tool.value, call).Returned?
            && (env.beforeToolCall.Some? ==>
                  env.beforeToolCall.value(at, call, env.toolArguments(at, tool.value, call).value) == Returned(Allow)))
      && (p.Immediate? ==> p.outcome.call == call && p.outcome.isError && p.outcome.output.terminate != Some(true))
  {
    var tool := FindTool(tools, call.name);
    if tool.Some? && env.toolArguments(at, tool.value, call).Returned? && env.beforeToolCall.Some? {
      match env.beforeToolCall.value(at, call, env.toolArguments(at, tool.value, call).value)
      case Threw(_) =>
      case Returned(v) => assert v.Allow? <==> v == Allow;
    }
  }

  function Or<T>(o: Option<T>, d: T): T {
    if o.Some? then o.value else d
  }

  /** Turns an execution into the final result of a call, including the `afterToolCall` hook. */
  function Settle(env: Env, at: nat, call: ToolCall, args: string, result: Attempt<ToolOutput>): Finalized {
    var output := if result.Returned? then result.value else ErrorOutput(result.error);
    var isError := result.Threw?;
    if env.afterToolCall.None? then Finalized(call, output, isError)
    else match env.afterToolCall.value(at, call, args, output, isError)
      case Threw(error) => Refused(call, error)
      case Returned(o) =>
        Finalized(call,
          ToolOutput(Or(o.content, output.content), Or(o.details, output.details),
            if o.terminate.Some? then o.terminate else output.terminate),
          Or(o.isError, isError))
  }

  // ---- The events of one call ----

  function Updates(slot: nat, call: ToolCall, updates: seq<string>): seq<Event> {
    seq(|updates|, i requires 0 <= i < |updates| => ToolUpdate(slot, call, updates[i]))
  }

  function EndOf(slot: nat, f: Finalized): Event {
    ToolEnd(slot, f.call, f.output, f.isError)
  }

  function CallEvents(slot: nat, f: Finalized, updates: seq<string>): seq<Event> {
    [ToolStart(slot, f.call)] + Updates(slot, f.call, updates) + [EndOf(slot, f)]
  }

  /** The events of one call within a trace. */
  function Project(es: seq<Event>, slot: nat): seq<Event> {
    if es == [] then []
    else
      var e := es[|es| - 1];
      Project(es[..|es| - 1], slot) + (if IsToolEvent(e) && e.slot == slot then [e] else [])
  }

  lemma ProjectSnoc(es: seq<Event>, e: Event, slot: nat)
    ensures Project(es + [e], slot) ==
      Project(es, slot) + (if IsToolEvent(e) && e.slot == slot then [e] else [])
  {
    assert (es + [e])[..|es|] == es;
  }

  lemma {:induction false} ProjectAppend(a: seq<Event>, b: seq<Event>, slot: nat)
    ensures Project(a + b, slot) == Project(a, slot) + Project(b, slot)
  {
    if b == [] {
      assert a + b == a;
    } else {
      var b' := b[..|b| - 1];
      ProjectAppend(a, b', slot);
      assert a + b == (a + b') + [b[|b| - 1]];
      ProjectSnoc(a + b', b[|b| - 1], slot);
    }
  }

  /** The slots of the starts in a trace, in order. */
  function StartOrder(es: seq<Event>): seq<nat> {
    if es == [] then []
    else StartOrder(es[..|es| - 1]) + (if es[|es| - 1].ToolStart? then [es[|es| - 1].slot] else [])
  }

  lemma StartOrderSnoc(es: seq<Event>, e: Event)
    ensures StartOrder(es + [e]) == StartOrder(es) + (if e.ToolStart? then [e.slot] else [])
  {
    assert (es + [e])[..|es|] == es;
  }

  function Range(n: nat): seq<nat> {
    seq(n, i => i)
  }

  /** All events belong to calls of the batch. */
  predicate OnlyTools(es: seq<Event>, n: nat) {
    forall i :: 0 <= i < |es| ==> IsToolEvent(es[i]) && es[i].slot < n
  }

  /** The events of the preflight: starts in source order; a call that is not let through ends at once. */
  function PreflightEvents(outs: seq<Finalized>, through: seq<bool>): seq<Event>
    requires |outs| == |through|
  {
    if outs == [] then []
    else
      var n := |outs| - 1;
      PreflightEvents(outs[..n], through[..n]) + [ToolStart(n, outs[n].call)]
        + (if through[n] then [] else [EndOf(n, outs[n])])
  }

  /** The preflight is a barrier: it comes first, and no call starts after it. */
  predicate Barrier(es: seq<Event>, pre: seq<Event>) {
    pre <= es && forall i :: |pre| <= i < |es| ==> !es[i].ToolStart?
  }

  /** The tool events of a parallel batch: first the preflight, which starts all calls in source order and
      lets some of them through; then the events of those, arbitrarily interleaved. Each call has its own
      start, updates and end in this order. */
  ghost predicate ParallelPhase(es: seq<Event>, outs: seq<Finalized>, updates: seq<seq<string>>, through: seq<bool>)
    requires |outs| == |updates| == |through|
  {
    && OnlyTools(es, |outs|)
    && StartOrder(es) == Range(|outs|)
    && (forall s :: 0 <= s < |outs| ==> Project(es, s) == CallEvents(s, outs[s], updates[s]))
    && Barrier(es, PreflightEvents(outs, through))
  }

  /** The events of a batch that runs call by call. */
  function SequentialEvents(outs: seq<Finalized>, updates: seq<seq<string>>): seq<Event>
    requires |outs| == |updates|
  {
    if outs == [] then []
    else
      var n := |outs| - 1;
      SequentialEvents(outs[..n], updates[..n]) + CallAndResult(n, outs[n], updates[n])
  }

  function CallAndResult(slot: nat, f: Finalized, updates: seq<string>): seq<Event> {
    CallEvents(slot, f, updates) + [MessageStart(ResultMessage(f)), MessageEnd(ResultMessage(f))]
  }

  lemma SequentialSnoc(t: seq<Event>, outs: seq<Finalized>, updates: seq<seq<string>>, f: Finalized, us: seq<string>)
    requires |outs| == |updates|
    ensures t + SequentialEvents(outs, updates) + CallAndResult(|outs|, f, us) ==
      t + SequentialEvents(outs + [f], updates + [us])
  {
    assert (outs + [f])[..|outs|] == outs && (updates + [us])[..|outs|] == updates;
    Assoc(t, SequentialEvents(outs, updates), CallAndResult(|outs|, f, us));
  }

  // ---- Concurrent execution as steps of tasks ----

  /** A call after the preflight. `updates` of a finished task records the partial results shown. */
  datatype Task =
    | Ready(call: ToolCall, args: string)
    | Executing(call: ToolCall, args: string, execution: Execution, sent: nat)
    | Settled(outcome: Finalized, updates: seq<string>)
    | Done(outcome: Finalized, updates: seq<string>)

  predicate ValidTask(t: Task) {
    t.Executing? ==> t.sent <= |t.execution.updates|
  }

  function TaskCall(t: Task): ToolCall {
    match t
    case Ready(call, _) => call
    case Executing(call, _, _, _) => call
    case Settled(outcome, _) => outcome.call
    case Done(outcome, _) => outcome.call
  }

  /** One uninterrupted step of the task in `slot` at time `at`, and the events it emits. */
  function Advance(env: Env, slot: nat, at: nat, t: Task): (Task, seq<Event>)
    requires ValidTask(t)
  {
    match t
    case Ready(call, args) => (Executing(call, args, env.execute(at, call, args), 0), [])
    case Executing(call, args, execution, sent) =>
      if sent < |execution.updates|
      then (t.(sent := sent + 1), [ToolUpdate(slot, call, execution.updates[sent])])
      else (Settled(Settle(env, at, call, args, execution.result), execution.updates), [])
    case Settled(outcome, updates) => (Done(outcome, updates), [EndOf(slot, outcome)])
    case Done(_, _) => (t, [])
  }

  /** What a trace shows of a task. */
  function ShownOf(slot: nat, t: Task): seq<Event>
    requires ValidTask(t)
  {
    match t
    case Ready(call, _) => [ToolStart(slot, call)]
    case Executing(call, _, execution, sent) =>
      [ToolStart(slot, call)] + Updates(slot, call, execution.updates[..sent])
    case Settled(outcome, updates) => [ToolStart(slot, outcome.call)] + Updates(slot, outcome.call, updates)
    case Done(outcome, updates) => CallEvents(slot, outcome, updates)
  }

  lemma AdvanceShows(env: Env, slot: nat, at: nat, t: Task)
    requires ValidTask(t)
    ensures var (t', es) := Advance(env, slot, at, t);
      && ValidTask(t') && TaskCall(t') == TaskCall(t)
      && ShownOf(slot, t') == ShownOf(slot, t) + es
      && |es| <= 1 && (forall e :: e in es ==> IsToolEvent(e) && !e.ToolStart? && e.slot == slot)
  {
    match t {
      case Executing(call, args, execution, sent) =>
        if sent < |execution.updates| {
          assert execution.updates[..sent + 1] == execution.updates[..sent] + [execution.updates[sent]];
        } else {
          assert execution.updates[..sent] == execution.updates;
        }
      case Ready(call, args) =>
        assert Updates(slot, call, env.execute(at, call, args).updates[..0]) == [];
      case _ =>
    }
  }

  /** A scheduling decision: which task moves, and when. */
  datatype Pick = Pick(slot: nat, at: nat)

  ghost predicate ValidTasks(tasks: seq<Task>) {
    forall i :: 0 <= i < |tasks| ==> ValidTask(tasks[i])
  }

  /** Tasks and emitted events after any sequence of scheduling decisions. */
  ghost function RunPicks(env: Env, tasks: seq<Task>, picks: seq<Pick>): (r: (seq<Task>, seq<Event>))
    requires ValidTasks(tasks)
    ensures |r.0| == |tasks| && ValidTasks(r.0)
  {
    if picks == [] then (tasks, [])
    else
      var (ts, es) := RunPicks(env, tasks, picks[..|picks| - 1]);
      var p := picks[|picks| - 1];
      if p.slot < |ts| then
        AdvanceShows(env, p.slot, p.at, ts[p.slot]);
        var (t', es') := Advance(env, p.slot, p.at, ts[p.slot]);
        (ts[p.slot := t'], es + es')
      else (ts, es)
  }

  lemma RunPicksSnoc(env: Env, tasks: seq<Task>, picks: seq<Pick>, p: Pick)
    requires ValidTasks(tasks) && p.slot < |tasks|
    ensures var (ts, es) := RunPicks(env, tasks, picks);
      var (t', es') := Advance(env, p.slot, p.at, ts[p.slot]);
      RunPicks(env, tasks, picks + [p]) == (ts[p.slot := t'], es + es')
  {
    assert (picks + [p])[..|picks|] == picks;
  }

  /** The preflight trace shows every task as it stands, started in source order. */
  ghost predicate Shows(pre: seq<Event>, tasks: seq<Task>)
    requires ValidTasks(tasks)
  {
    && OnlyTools(pre, |tasks|)
    && StartOrder(pre) == Range(|tasks|)
    && forall s :: 0 <= s < |tasks| ==> Project(pre, s) == ShownOf(s, tasks[s])
  }

  /** One more event of a task that has started. */
  lemma ShowsEvent(trace: seq<Event>, tasks: seq<Task>, e: Event, t: Task)
    requires ValidTasks(tasks) && Shows(trace, tasks) && ValidTask(t)
    requires IsToolEvent(e) && !e.ToolStart? && e.slot < |tasks|
    requires ShownOf(e.slot, t) == ShownOf(e.slot, tasks[e.slot]) + [e]
    ensures Shows(trace + [e], tasks[e.slot := t])
  {
    StartOrderSnoc(trace, e);
    forall s | 0 <= s < |tasks| ensures Project(trace + [e], s) == ShownOf(s, tasks[e.slot := t][s]) {
      ProjectSnoc(trace, e, s);
    }
  }

  /** The start of the next task. */
  lemma ShowsStart(trace: seq<Event>, tasks: seq<Task>, e: Event, t: Task)
    requires ValidTasks(tasks) && Shows(trace, tasks) && ValidTask(t)
    requires e.ToolStart? && e.slot == |tasks| && ShownOf(e.slot, t) == [e]
    ensures ValidTasks(tasks + [t]) && Shows(trace + [e], tasks + [t])
  {
    NotYetShown(trace, |tasks|);
    StartOrderSnoc(trace, e);
    assert Range(|tasks| + 1) == Range(|tasks|) + [|tasks|];
    forall s | 0 <= s < |tasks| + 1 ensures Project(trace + [e], s) == ShownOf(s, (tasks + [t])[s]) {
      ProjectSnoc(trace, e, s);
    }
  }

  lemma ShowsNothing()
    ensures Shows([], [])
  {
  }

  lemma {:induction false} NotYetShown(es: seq<Event>, n: nat)
    requires OnlyTools(es, n)
    ensures Project(es, n) == []
  {
    if es != [] {
      NotYetShown(es[..|es| - 1], n);
    }
  }

  lemma StepShows(env: Env, trace: seq<Event>, tasks: seq<Task>, p: Pick)
    requires ValidTasks(tasks) && Shows(trace, tasks) && p.slot < |tasks|
    ensures var (t', es) := Advance(env, p.slot, p.at, tasks[p.slot]);
      ValidTask(t') && Shows(trace + es, tasks[p.slot := t'])
  {
    var (t', es) := Advance(env, p.slot, p.at, tasks[p.slot]);
    AdvanceShows(env, p.slot, p.at, tasks[p.slot]);
    if es == [] {
      assert trace + es == trace;
    } else {
      assert es[0] in es && es == [es[0]];
      ShowsEvent(trace, tasks, es[0], t');
    }
  }

  /** However the tasks interleave, the trace shows every task as it stands. */
  lemma {:induction false} EveryInterleavingShows(env: Env, pre: seq<Event>, tasks: seq<Task>, picks: seq<Pick>)
    requires ValidTasks(tasks) && Shows(pre, tasks)
    ensures var (ts, es) := RunPicks(env, tasks, picks);
      Shows(pre + es, ts) && forall s :: 0 <= s < |ts| ==> TaskCall(ts[s]) == TaskCall(tasks[s])
    decreases |picks|
  {
    if picks == [] {
      assert pre + [] == pre;
    } else {
      var before := picks[..|picks| - 1];
      var p := picks[|picks| - 1];
      EveryInterleavingShows(env, pre, tasks, before);
      var (ts, es) := RunPicks(env, tasks, before);
      if p.slot < |ts| {
        StepShows(env, pre + es, ts, p);
        AdvanceShows(env, p.slot, p.at, ts[p.slot]);
        var (t', es') := Advance(env, p.slot, p.at, ts[p.slot]);
        assert pre + (es + es') == (pre + es) + es';
      }
    }
  }

  function Outcomes(tasks: seq<Task>): (outs: seq<Finalized>)
    requires forall i :: 0 <= i < |tasks| ==> tasks[i].Done?
    ensures |outs| == |tasks|
    ensures forall i :: 0 <= i < |tasks| ==> outs[i] == tasks[i].outcome
  {
    seq(|tasks|, i requires 0 <= i < |tasks| => tasks[i].outcome)
  }

  function ShownUpdates(tasks: seq<Task>): (us: seq<seq<string>>)
    requires forall i :: 0 <= i < |tasks| ==> tasks[i].Done?
    ensures |us| == |tasks|
    ensures forall i :: 0 <= i < |tasks| ==> us[i] == tasks[i].updates
  {
    seq(|tasks|, i requires 0 <= i < |tasks| => tasks[i].updates)
  }

  // ---- The preflight ----

  predicate Preflighted(t: Task) {
    t.Ready? || (t.Done? && t.updates == [])
  }

  predicate AllPreflighted(tasks: seq<Task>) {
    forall i :: 0 <= i < |tasks| ==> Preflighted(tasks[i])
  }

  /** What the preflight of some tasks has shown, call by call. */
  function ShownBefore(tasks: seq<Task>): seq<Event>
    requires AllPreflighted(tasks)
  {
    if tasks == [] then [] else ShownBefore(tasks[..|tasks| - 1]) + ShownOf(|tasks| - 1, tasks[|tasks| - 1])
  }

  lemma ShownBeforeSnoc(tasks: seq<Task>, t: Task)
    requires AllPreflighted(tasks) && Preflighted(t)
    ensures AllPreflighted(tasks + [t])
    ensures ShownBefore(tasks + [t]) == ShownBefore(tasks) + ShownOf(|tasks|, t)
  {
    assert (tasks + [t])[..|tasks|] == tasks;
  }

  function Through(tasks: seq<Task>): (through: seq<bool>)
    ensures |through| == |tasks| && forall i :: 0 <= i < |tasks| ==> through[i] == tasks[i].Ready?
  {
    seq(|tasks|, i requires 0 <= i < |tasks| => tasks[i].Ready?)
  }

  lemma ShowsSnoc(pre: seq<Event>, tasks: seq<Task>, t: Task)
    requires ValidTasks(tasks) && Shows(pre, tasks) && Preflighted(t)
    ensures ValidTasks(tasks + [t]) && Shows(pre + ShownOf(|tasks|, t), tasks + [t])
  {
    var n := |tasks|;
    var start := ToolStart(n, TaskCall(t));
    if t.Ready? {
      ShowsStart(pre, tasks, start, t);
      assert ShownOf(n, t) == [start];
    } else {
      var end := EndOf(n, t.outcome);
      var started := Ready(t.outcome.call, "");
      assert Updates(n, t.outcome.call, []) == [];
      assert ShownOf(n, t) == [start] + [end];
      ShowsStart(pre, tasks, start, started);
      ShowsEvent(pre + [start], tasks + [started], end, t);
      assert (tasks + [started])[n := t] == tasks + [t];
      Assoc(pre, [start], [end]);
    }
  }

  lemma {:induction false} PreflightShows(tasks: seq<Task>)
    requires AllPreflighted(tasks)
    ensures ValidTasks(tasks) && Shows(ShownBefore(tasks), tasks)
  {
    if tasks == [] {
      ShowsNothing();
    } else {
      var front, last := tasks[..|tasks| - 1], tasks[|tasks| - 1];
      assert tasks == front + [last] && Preflighted(last);
      assert ShownBefore(tasks) == ShownBefore(front) + ShownOf(|front|, last);
      hide ShownBefore, Shows, ValidTasks, ShownOf;
      PreflightShows(front);
      ShowsSnoc(ShownBefore(front), front, last);
    }
  }

  /** What the tasks are by the end does not change what their preflight showed. */
  lemma {:induction false} PreflightInHindsight(tasks: seq<Task>, outs: seq<Finalized>)
    requires AllPreflighted(tasks) && |outs| == |tasks|
    requires forall i :: 0 <= i < |tasks| ==>
      outs[i].call == TaskCall(tasks[i]) && (tasks[i].Done? ==> outs[i] == tasks[i].outcome)
    ensures ShownBefore(tasks) == PreflightEvents(outs, Through(tasks))
  {
    if tasks != [] {
      var n := |tasks| - 1;
      PreflightInHindsight(tasks[..n], outs[..n]);
      assert Through(tasks)[..n] == Through(tasks[..n]);
      var call := outs[n].call;
      assert Updates(n, call, []) == [];
      assert ShownOf(n, tasks[n]) == [ToolStart(n, call)] + (if tasks[n].Ready? then [] else [EndOf(n, outs[n])]);
      Assoc(ShownBefore(tasks[..n]), [ToolStart(n, call)], if tasks[n].Ready? then [] else [EndOf(n, outs[n])]);
    }
  }

  lemma InHindsight(tasks: seq<Task>, ts: seq<Task>)
    requires AllPreflighted(tasks) && |ts| == |tasks| && forall s :: 0 <= s < |ts| ==> ts[s].Done?
    requires forall s :: 0 <= s < |ts| ==> TaskCall(ts[s]) == TaskCall(tasks[s])
    requires forall s :: 0 <= s < |ts| && tasks[s].Done? ==> ts[s] == tasks[s]
    ensures ShownBefore(tasks) == PreflightEvents(Outcomes(ts), Through(tasks))
    ensures forall s :: 0 <= s < |ts| ==> Outcomes(ts)[s].call == TaskCall(tasks[s])
  {
    var outs := Outcomes(ts);
    forall i | 0 <= i < |tasks|
      ensures outs[i].call == TaskCall(tasks[i]) && (tasks[i].Done? ==> outs[i] == tasks[i].outcome)
    {
      assert outs[i] == ts[i].outcome && TaskCall(ts[i]) == TaskCall(tasks[i]);
    }
    PreflightInHindsight(tasks, outs);
  }

  /** No task starts after the preflight, and a finished one stays as it is. */
  lemma {:induction false} NothingStartsLater(env: Env, tasks: seq<Task>, picks: seq<Pick>)
    requires ValidTasks(tasks)
    ensures var (ts, es) := RunPicks(env, tasks, picks);
      && (forall e :: e in es ==> !e.ToolStart?)
      && forall i :: 0 <= i < |tasks| && tasks[i].Done? ==> ts[i] == tasks[i]
    decreases |picks|
  {
    if picks != [] {
      var before, p := picks[..|picks| - 1], picks[|picks| - 1];
      NothingStartsLater(env, tasks, before);
      var (ts, es) := RunPicks(env, tasks, before);
      if p.slot < |ts| { AdvanceShows(env, p.slot, p.at, ts[p.slot]); }
    }
  }

  /** Every complete interleaving is a parallel phase: each call ends exactly once, after its start, and
      no call runs before all have started. */
  lemma CompleteInterleaving(env: Env, tasks: seq<Task>, picks: seq<Pick>)
    requires AllPreflighted(tasks)
    requires forall t :: t in RunPicks(env, tasks, picks).0 ==> t.Done?
    ensures var (ts, es) := RunPicks(env, tasks, picks);
      && ParallelPhase(ShownBefore(tasks) + es, Outcomes(ts), ShownUpdates(ts), Through(tasks))
      && forall s :: 0 <= s < |ts| ==> Outcomes(ts)[s].call == TaskCall(tasks[s])
  {
    PreflightShows(tasks);
    EveryInterleavingShows(env, ShownBefore(tasks), tasks, picks);
    NothingStartsLater(env, tasks, picks);
    var (ts, es) := RunPicks(env, tasks, picks);
    forall s | 0 <= s < |ts| ensures ts[s].Done? { assert ts[s] in ts; }
    hide *;
    InHindsight(tasks, ts);
    BarrierOf(ShownBefore(tasks), es);
    PhaseOf(ShownBefore(tasks) + es, ts, Through(tasks));
  }

  lemma PhaseOf(trace: seq<Event>, ts: seq<Task>, through: seq<bool>)
    requires ValidTasks(ts) && Shows(trace, ts) && |through| == |ts|
    requires forall s :: 0 <= s < |ts| ==> ts[s].Done?
    requires Barrier(trace, PreflightEvents(Outcomes(ts), through))
    ensures ParallelPhase(trace, Outcomes(ts), ShownUpdates(ts), through)
  {
    hide PreflightEvents, Project, StartOrder, Barrier;
    var outs, updates := Outcomes(ts), ShownUpdates(ts);
    forall s | 0 <= s < |outs| ensures Project(trace, s) == CallEvents(s, outs[s], updates[s]) {
      assert Project(trace, s) == ShownOf(s, ts[s]);
    }
  }

  lemma BarrierOf(pre: seq<Event>, es: seq<Event>)
    requires forall e :: e in es ==> !e.ToolStart?
    ensures Barrier(pre + es, pre)
  {
    forall i | |pre| <= i < |pre + es| ensures !(pre + es)[i].ToolStart? {
      assert (pre + es)[i] == es[i - |pre|];
    }
  }

  // ---- Schedule independence ----

  /** The result of a task when tools and hooks answer as functions of the call. */
  function Destined(env: Env, t: Task): Finalized {
    match t
    case Ready(call, args) => Settle(env, 0, call, args, env.execute(0, call, args).result)
    case Executing(call, args, execution, _) => Settle(env, 0, call, args, execution.result)
    case Settled(outcome, _) => outcome
    case Done(outcome, _) => outcome
  }

  /** The partial results that a task is going to have shown. */
  function DestinedUpdates(env: Env, t: Task): seq<string> {
    match t
    case Ready(call, args) => env.execute(0, call, args).updates
    case Executing(_, _, execution, _) => execution.updates
    case Settled(_, updates) => updates
    case Done(_, updates) => updates
  }

  lemma AdvanceKeepsDestiny(env: Env, slot: nat, at: nat, t: Task)
    requires env.Stable() && ValidTask(t)
    ensures Destined(env, Advance(env, slot, at, t).0) == Destined(env, t)
    ensures DestinedUpdates(env, Advance(env, slot, at, t).0) == DestinedUpdates(env, t)
  {
    match t {
      case Ready(call, args) => assert env.execute(at, call, args) == env.execute(0, call, args);
      case Executing(call, args, execution, sent) =>
        SettleIsStable(env, at, call, args, execution.result);
      case _ =>
    }
  }

  lemma SettleIsStable(env: Env, at: nat, call: ToolCall, args: string, result: Attempt<ToolOutput>)
    requires env.Stable()
    ensures Settle(env, at, call, args, result) == Settle(env, 0, call, args, result)
  {
    if env.afterToolCall.Some? {
      var f := env.afterToolCall.value;
      var output := if result.Returned? then result.value else ErrorOutput(result.error);
      assert f(at, call, args, output, result.Threw?) == f(0, call, args, output, result.Threw?);
    }
  }

  lemma {:induction false} ScheduleIndependence(env: Env, tasks: seq<Task>, picks: seq<Pick>)
    requires env.Stable() && ValidTasks(tasks)
    ensures forall s :: 0 <= s < |tasks| ==>
      && Destined(env, RunPicks(env, tasks, picks).0[s]) == Destined(env, tasks[s])
      && DestinedUpdates(env, RunPicks(env, tasks, picks).0[s]) == DestinedUpdates(env, tasks[s])
    decreases |picks|
  {
    if picks != [] {
      var before := picks[..|picks| - 1];
      var p := picks[|picks| - 1];
      ScheduleIndependence(env, tasks, before);
      var ts := RunPicks(env, tasks, before).0;
      if p.slot < |ts| {
        AdvanceKeepsDestiny(env, p.slot, p.at, ts[p.slot]);
      }
    }
  }

  /** Any two complete interleavings of the same calls end with the same results and have shown the same
      partial results, whenever each step was taken and whatever else ran in between. */
  lemma AnyTwoSchedulesAgree(env: Env, tasks: seq<Task>, picks: seq<Pick>, picks': seq<Pick>)
    requires env.Stable() && ValidTasks(tasks)
    requires forall t :: t in RunPicks(env, tasks, picks).0 ==> t.Done?
    requires forall t :: t in RunPicks(env, tasks, picks').0 ==> t.Done?
    ensures Outcomes(RunPicks(env, tasks, picks).0) == Outcomes(RunPicks(env, tasks, picks').0)
    ensures ShownUpdates(RunPicks(env, tasks, picks).0) == ShownUpdates(RunPicks(env, tasks, picks').0)
  {
    ScheduleIndependence(env, tasks, picks);
    ScheduleIndependence(env, tasks, picks');
    var ts, ts' := RunPicks(env, tasks, picks).0, RunPicks(env, tasks, picks').0;
    forall s | 0 <= s < |tasks|
      ensures Outcomes(ts)[s] == Outcomes(ts')[s] && ShownUpdates(ts)[s] == ShownUpdates(ts')[s]
    {
      assert ts[s] in ts && ts'[s] in ts';
      assert Destined(env, ts[s]) == Destined(env, ts'[s]);
      assert DestinedUpdates(env, ts[s]) == DestinedUpdates(env, ts'[s]);
    }
  }

  lemma PrepareIsStable(env: Env, at: nat, tools: seq<Tool>, call: ToolCall, aborted: bool)
    requires env.Stable()
    ensures Prepare(env, at, tools, call, aborted) == Prepare(env, 0, tools, call, aborted)
  {
    var tool := FindTool(tools, call.name);
    if tool.Some? {
      assert env.toolArguments(at, tool.value, call) == env.toolArguments(0, tool.value, call);
      if env.beforeToolCall.Some? && env.toolArguments(0, tool.value, call).Returned? {
        var f := env.beforeToolCall.value;
        var args := env.toolArguments(0, tool.value, call).value;
        assert f(at, call, args) == f(0, call, args);
      }
    }
  }

  // ---- The answer to a call ----

  /** When a call was prepared, let through or refused, executed and settled, and whether the abort signal
      was set when it was let through or refused. */
  datatype Moments = Moments(prepared: nat, decided: nat, executed: nat, settled: nat, aborted: bool)

  /** What a call is answered with: its result, the partial results shown, and whether it was let through. */
  datatype Answer = Answer(outcome: Finalized, updates: seq<string>, through: bool)

  function AnswerAt(env: Env, tools: seq<Tool>, call: ToolCall, w: Moments): (answer: Answer)
    ensures answer.outcome.call == call
  {
    PreparedExactlyWhenAllowed(env, w.prepared, tools, call, w.aborted);
    match Prepare(env, w.prepared, tools, call, w.aborted)
    case Immediate(outcome) => Answer(outcome, [], false)
    case Prepared(_, args) =>
      var execution := env.execute(w.executed, call, args);
      Answer(Settle(env, w.settled, call, args, execution.result), execution.updates, true)
  }

  const AT_ONCE := Moments(0, 0, 0, 0, false)

  /** The answers that calls have in every execution mode, absent aborts. */
  function AnswersTo(env: Env, tools: seq<Tool>, calls: seq<ToolCall>): (answers: seq<Answer>)
    ensures |answers| == |calls|
    ensures forall i :: 0 <= i < |calls| ==> answers[i] == AnswerAt(env, tools, calls[i], AT_ONCE)
  {
    seq(|calls|, i requires 0 <= i < |calls| => AnswerAt(env, tools, calls[i], AT_ONCE))
  }

  /** With stable oracles the moments do not matter. */
  lemma AnswerIsStable(env: Env, tools: seq<Tool>, call: ToolCall, w: Moments)
    requires env.Stable() && !w.aborted
    ensures AnswerAt(env, tools, call, w) == AnswerAt(env, tools, call, AT_ONCE)
  {
    PrepareIsStable(env, w.prepared, tools, call, false);
    match Prepare(env, 0, tools, call, false)
    case Immediate(_) =>
    case Prepared(c, args) =>
      PreparedExactlyWhenAllowed(env, 0, tools, call, false);
      SettleIsStable(env, w.settled, call, args, env.execute(0, call, args).result);
      assert env.execute(w.executed, call, args) == env.execute(0, call, args);
  }

  /** A task on its way to the answer of its call. */
  predicate OnItsWay(env: Env, tools: seq<Tool>, call: ToolCall, t: Task, through: bool, w: Moments) {
    match t
    case Ready(c, args) =>
      through && c == call && Prepare(env, w.prepared, tools, call, w.aborted) == Prepared(call, args)
    case Executing(c, args, execution, _) =>
      && through && c == call && Prepare(env, w.prepared, tools, call, w.aborted) == Prepared(call, args)
      && execution == env.execute(w.executed, call, args)
    case Settled(outcome, updates) => AnswerAt(env, tools, call, w) == Answer(outcome, updates, through)
    case Done(outcome, updates) => AnswerAt(env, tools, call, w) == Answer(outcome, updates, through)
  }

  lemma AdvanceStaysOnItsWay(env: Env, tools: seq<Tool>, call: ToolCall, slot: nat, at: nat, t: Task, through: bool,
      w: Moments) returns (v: Moments)
    requires ValidTask(t) && OnItsWay(env, tools, call, t, through, w)
    ensures OnItsWay(env, tools, call, Advance(env, slot, at, t).0, through, v)
    ensures v == w.(executed := v.executed, settled := v.settled)
  {
    v := match t
      case Ready(_, _) => w.(executed := at)
      case Executing(_, _, execution, sent) => if sent < |execution.updates| then w else w.(settled := at)
      case _ => w;
  }

  /** Whatever is scheduled, every task ends with an answer to its own call. */
  lemma {:induction false} TasksStayOnTheirWay(env: Env, tools: seq<Tool>, call: ToolCall, tasks: seq<Task>,
      picks: seq<Pick>, s: nat, through: bool, w: Moments) returns (v: Moments)
    requires ValidTasks(tasks) && s < |tasks| && OnItsWay(env, tools, call, tasks[s], through, w)
    ensures OnItsWay(env, tools, call, RunPicks(env, tasks, picks).0[s], through, v)
    ensures v == w.(executed := v.executed, settled := v.settled)
    decreases |picks|
  {
    v := w;
    if picks != [] {
      var before, p := picks[..|picks| - 1], picks[|picks| - 1];
      v := TasksStayOnTheirWay(env, tools, call, tasks, before, s, through, w);
      var ts := RunPicks(env, tasks, before).0;
      if p.slot == s { v := AdvanceStaysOnItsWay(env, tools, call, s, p.at, ts[s], through, v); }
    }
  }
}
