/** Running the tool calls of one assistant message, one by one or concurrently. */
module ToolExecution {
  import opened Messages
  import opened Oracles
  import opened Events
  import opened Runtime
  import opened ToolBatch
  import opened ToolAnswers
  import opened RunLog

  method PrepareToolCall(agent: Agent, tools: seq<Tool>, call: ToolCall) returns (p: Preparation)
    requires agent.Valid() && agent.activeRun
    modifies agent, agent.transcript, agent.steering, agent.followUp
    ensures agent.Emitted([]) && agent.trace == old(agent.trace)
    ensures old(agent.clock) <= agent.clock
    ensures p == Prepare(agent.env, old(agent.clock), tools, call, agent.aborted)
  {
    var env := agent.env;
    var at := agent.clock;
    var tool := FindTool(tools, call.name);
    if tool.None? {
      return Immediate(Refused(call, "Tool " + call.name + " not found"));
    }
    var args;
    match env.toolArguments(at, tool.value, call) {
      case Threw(error) => return Immediate(Refused(call, error));
      case Returned(validated) => args := validated;
    }
    if env.beforeToolCall.Some? {
      var answer := env.beforeToolCall.value(at, call, args);
      agent.Await();
      match answer {
        case Threw(error) => return Immediate(Refused(call, error));
        case Returned(verdict) =>
          if agent.aborted {
            return Immediate(Refused(call, "Operation aborted"));
          }
          if verdict.Block? {
            return Immediate(Refused(call, BlockReason(verdict.reason)));
          }
      }
    }
    if agent.aborted {
      return Immediate(Refused(call, "Operation aborted"));
    }
    return Prepared(call, args);
  }

  lemma UpdatesSnoc(slot: nat, call: ToolCall, updates: seq<string>, i: nat)
    requires i <= |updates|
    ensures Updates(slot, call, updates[..0]) == []
    ensures i < |updates| ==>
      Updates(slot, call, updates[..i + 1]) == Updates(slot, call, updates[..i]) + [ToolUpdate(slot, call, updates[i])]
  {
  }

  /** Emits the partial results of one execution. */
  method EmitUpdates(agent: Agent, slot: nat, call: ToolCall, updates: seq<string>)
    requires agent.Valid() && agent.activeRun
    modifies agent, agent.transcript, agent.steering, agent.followUp
    ensures agent.Emitted(Updates(slot, call, updates))
  {
    hide Agent.Valid, Updates;
    UpdatesSnoc(slot, call, updates, 0);
    for i := 0 to |updates|
      invariant agent.Emitted(Updates(slot, call, updates[..i]))
    {
      var e := ToolUpdate(slot, call, updates[i]);
      UpdatesSnoc(slot, call, updates, i);
      Assoc(old(agent.trace), Updates(slot, call, updates[..i]), [e]);
      agent.ProcessEvents(e);
    }
    assert updates[..|updates|] == updates;
  }

  /** Executes one prepared call to its end, as the sequential mode does. */
  method ExecuteAndFinalize(agent: Agent, slot: nat, call: ToolCall, args: string)
    returns (f: Finalized, ghost updates: seq<string>, ghost settled: nat)
    requires agent.Valid() && agent.activeRun
    modifies agent, agent.transcript, agent.steering, agent.followUp
    ensures agent.Emitted(Updates(slot, call, updates))
    ensures f.call == call
    ensures updates == agent.env.execute(old(agent.clock), call, args).updates
    ensures f == Settle(agent.env, settled, call, args, agent.env.execute(old(agent.clock), call, args).result)
    ensures SettledAs(agent.env, settled, call, args, agent.env.execute(old(agent.clock), call, args).result, f)
  {
    hide SettledAs;
    var execution := agent.env.execute(agent.clock, call, args);
    updates := execution.updates;
    EmitUpdates(agent, slot, call, execution.updates);
    settled := agent.clock;
    f := Settle(agent.env, agent.clock, call, args, execution.result);
    SettleMeans(agent.env, agent.clock, call, args, execution.result);
    ghost var es := Updates(slot, call, updates);
    Assoc(old(agent.trace), es, []);
    assert es + [] == es;
    agent.Await();
  }

  lemma AnswerOfPrepared(env: Env, tools: seq<Tool>, call: ToolCall, w: Moments, p: Preparation, f: Finalized,
      updates: seq<string>)
    requires p == Prepare(env, w.prepared, tools, call, w.aborted)
    requires match p
      case Immediate(outcome) => f == outcome && updates == []
      case Prepared(c, args) =>
        && updates == env.execute(w.executed, call, args).updates
        && f == Settle(env, w.settled, call, args, env.execute(w.executed, call, args).result)
    ensures AnswerAt(env, tools, call, w) == Answer(f, updates, p.Prepared?)
  {
  }

  /** Start, preflight and execution of one call. */
  method StartAndExecute(agent: Agent, tools: seq<Tool>, slot: nat, call: ToolCall)
    returns (f: Finalized, ghost updates: seq<string>, ghost through: bool)
    requires agent.Valid() && agent.activeRun
    modifies agent, agent.transcript, agent.steering, agent.followUp
    ensures f.call == call && agent.Emitted([ToolStart(slot, call)] + Updates(slot, call, updates))
    ensures AnswersCall(agent.env, tools, call, Answer(f, updates, through), agent.origin.clock, old(agent.clock),
      agent.clock)
  {
    hide Agent.Valid, Env.Aborts, AnswerAt;
    ghost var start := [ToolStart(slot, call)];
    agent.ProcessEvents(ToolStart(slot, call));
    ghost var at := agent.clock;
    var preparation := PrepareToolCall(agent, tools, call);
    agent.Signal();
    ghost var w := Moments(at, agent.clock, agent.clock, 0, agent.aborted);
    Assoc(old(agent.trace), start, []);
    PreparedExactlyWhenAllowed(agent.env, at, tools, call, agent.aborted);
    through := preparation.Prepared?;
    if preparation.Immediate? {
      f, updates := preparation.outcome, [];
      assert start + Updates(slot, call, updates) == start;
    } else {
      ghost var settled;
      f, updates, settled := ExecuteAndFinalize(agent, slot, call, preparation.args);
      w := w.(settled := settled);
      Assoc(old(agent.trace), start, Updates(slot, call, updates));
    }
    AnswerOfPrepared(agent.env, tools, call, w, preparation, f, updates);
  }

  /** The end event and the result message of one call. */
  method FinishCall(agent: Agent, slot: nat, f: Finalized)
    requires agent.Valid() && agent.activeRun
    modifies agent, agent.transcript, agent.steering, agent.followUp
    ensures agent.Emitted([EndOf(slot, f)] + [MessageStart(ResultMessage(f)), MessageEnd(ResultMessage(f))])
  {
    agent.ProcessEvents(EndOf(slot, f));
    Assoc(old(agent.trace), [EndOf(slot, f)], [MessageStart(ResultMessage(f)), MessageEnd(ResultMessage(f))]);
    agent.EmitMessage(ResultMessage(f));
  }

  /** One round of the sequential loop. */
  method RunOneCall(agent: Agent, tools: seq<Tool>, slot: nat, call: ToolCall)
    returns (f: Finalized, ghost updates: seq<string>, ghost through: bool)
    requires agent.Valid() && agent.activeRun
    modifies agent, agent.transcript, agent.steering, agent.followUp
    ensures agent.Emitted(CallAndResult(slot, f, updates))
    ensures AnswersCall(agent.env, tools, call, Answer(f, updates, through), agent.origin.clock, old(agent.clock),
      agent.clock)
  {
    hide AnswersCall;
    f, updates, through := StartAndExecute(agent, tools, slot, call);
    ghost var first := [ToolStart(slot, call)] + Updates(slot, call, updates);
    ghost var rest := [EndOf(slot, f)] + [MessageStart(ResultMessage(f)), MessageEnd(ResultMessage(f))];
    Assoc(first, [EndOf(slot, f)], [MessageStart(ResultMessage(f)), MessageEnd(ResultMessage(f))]);
    assert first + rest == CallAndResult(slot, f, updates);
    Assoc(old(agent.trace), first, rest);
    ghost var decided := agent.clock;
    FinishCall(agent, slot, f);
    StillAnswered(agent.env, tools, call, Answer(f, updates, through), agent.origin.clock, old(agent.clock), decided,
      agent.clock);
  }

  lemma StillAnswered(env: Env, tools: seq<Tool>, call: ToolCall, answer: Answer, since: nat, start: nat, was: nat,
      now: nat)
    requires AnswersCall(env, tools, call, answer, since, start, was) && was <= now
    ensures AnswersCall(env, tools, call, answer, since, start, now)
  {
    var w :| AnswerAt(env, tools, call, w) == answer && Timely(env, w, since, start, was);
    assert AnswerAt(env, tools, call, w) == answer && Timely(env, w, since, start, now);
  }

  /** The first calls are answered, and none but the very first started after an abort. */
  ghost predicate AnsweredSoFar(env: Env, tools: seq<Tool>, calls: seq<ToolCall>, answers: seq<Answer>, times: Times) {
    && |answers| == |times.starts| <= |calls|
    && (forall i :: 0 < i < |answers| ==> !env.Aborts(times.since, times.starts[i]))
    && forall i :: 0 <= i < |answers| ==>
         AnswersCall(env, tools, calls[i], answers[i], times.since, times.starts[i], times.until)
  }

  lemma AnsweredSnoc(env: Env, tools: seq<Tool>, calls: seq<ToolCall>, answers: seq<Answer>, times: Times,
      answer: Answer, start: nat, now: nat)
    requires AnsweredSoFar(env, tools, calls, answers, times) && |answers| < |calls| && times.until <= now
    requires answers == [] || !env.Aborts(times.since, start)
    requires AnswersCall(env, tools, calls[|answers|], answer, times.since, start, now)
    ensures AnsweredSoFar(env, tools, calls, answers + [answer], Times(times.since, times.starts + [start], now))
  {
    hide AnswersCall, Env.Aborts;
    var all, starts := answers + [answer], times.starts + [start];
    forall i | 0 <= i < |all| ensures AnswersCall(env, tools, calls[i], all[i], times.since, starts[i], now) {
      if i < |answers| {
        StillAnswered(env, tools, calls[i], answers[i], times.since, times.starts[i], times.until, now);
      }
    }
  }

  lemma AnswersSnoc(outs: seq<Finalized>, updates: seq<seq<string>>, through: seq<bool>,
      f: Finalized, us: seq<string>, t: bool)
    requires |outs| == |updates| == |through|
    ensures AnswersOf(outs + [f], updates + [us], through + [t]) ==
            AnswersOf(outs, updates, through) + [Answer(f, us, t)]
  {
  }

  method ExecuteToolCallsSequential(agent: Agent, tools: seq<Tool>, calls: seq<ToolCall>)
    returns (outs: seq<Finalized>, ghost updates: seq<seq<string>>, ghost through: seq<bool>, ghost times: Times)
    requires agent.Valid() && agent.activeRun
    modifies agent, agent.transcript, agent.steering, agent.followUp
    ensures |updates| == |through| == |outs|
    ensures agent.Emitted(SequentialEvents(outs, updates))
    ensures Answers(agent.env, tools, calls, AnswersOf(outs, updates, through), times)
    ensures times.since == agent.origin.clock && times.until == agent.clock
  {
    hide AnswersCall, Agent.Valid, AnswersOf, SequentialEvents, AnsweredSoFar, Env.Aborts;
    outs, updates, through, times := [], [], [], Times(agent.origin.clock, [], agent.clock);
    NoAnswers(agent.env, tools, calls, times.since, times.until);
    ghost var answers: seq<Answer> := [];
    var i := 0;
    while i < |calls|
      invariant 0 <= i <= |calls| && |outs| == |updates| == |through| == |answers| == i
      invariant answers == AnswersOf(outs, updates, through)
      invariant agent.Emitted(SequentialEvents(outs, updates))
      invariant AnsweredSoFar(agent.env, tools, calls, answers, times)
      invariant times.since == agent.origin.clock && times.until == agent.clock
      invariant i > 0 ==> !agent.aborted
    {
      var f; ghost var us, t;
      ghost var start := agent.clock;
      agent.Signal();
      f, us, t := RunOneCall(agent, tools, i, calls[i]);
      AnsweredSnoc(agent.env, tools, calls, answers, times, Answer(f, us, t), start, agent.clock);
      SequentialSnoc(old(agent.trace), outs, updates, f, us);
      AnswersSnoc(outs, updates, through, f, us, t);
      outs, updates, through, answers := outs + [f], updates + [us], through + [t], answers + [Answer(f, us, t)];
      times := Times(times.since, times.starts + [start], agent.clock);
      i := i + 1;
      if agent.aborted {
        break;
      }
    }
    agent.Signal();
    AllAnswered(agent.env, tools, calls, answers, times);
  }

  lemma AllAnswered(env: Env, tools: seq<Tool>, calls: seq<ToolCall>, answers: seq<Answer>, times: Times)
    requires AnsweredSoFar(env, tools, calls, answers, times) && (calls != [] ==> answers != [])
    requires |answers| < |calls| ==> env.Aborts(times.since, times.until)
    ensures Answers(env, tools, calls, answers, times)
  {
  }

  lemma NoAnswers(env: Env, tools: seq<Tool>, calls: seq<ToolCall>, since: nat, until: nat)
    ensures AnswersOf([], [], []) == [] && SequentialEvents([], []) == []
    ensures AnsweredSoFar(env, tools, calls, [], Times(since, [], until))
  {
  }

  // ---- Concurrent execution ----

  /** The task is on its way to an answer of its own call. */
  ghost predicate Underway(env: Env, tools: seq<Tool>, call: ToolCall, t: Task, since: nat, start: nat, until: nat) {
    exists w :: OnItsWay(env, tools, call, t, t.Ready?, w) && Timely(env, w, since, start, until)
  }

  /** The tasks of the first calls are on their way, and none but the very first started after an abort. */
  ghost predicate AllUnderway(env: Env, tools: seq<Tool>, calls: seq<ToolCall>, tasks: seq<Task>, times: Times) {
    && |tasks| == |times.starts| <= |calls|
    && (forall i :: 0 < i < |tasks| ==> !env.Aborts(times.since, times.starts[i]))
    && forall i :: 0 <= i < |tasks| ==>
         Underway(env, tools, calls[i], tasks[i], times.since, times.starts[i], times.until)
  }

  lemma StillUnderway(env: Env, tools: seq<Tool>, call: ToolCall, t: Task, since: nat, start: nat, was: nat, now: nat)
    requires Underway(env, tools, call, t, since, start, was) && was <= now
    ensures Underway(env, tools, call, t, since, start, now)
  {
    var w :| OnItsWay(env, tools, call, t, t.Ready?, w) && Timely(env, w, since, start, was);
    assert OnItsWay(env, tools, call, t, t.Ready?, w) && Timely(env, w, since, start, now);
  }

  lemma UnderwaySnoc(env: Env, tools: seq<Tool>, calls: seq<ToolCall>, tasks: seq<Task>, times: Times, t: Task,
      start: nat, now: nat)
    requires AllUnderway(env, tools, calls, tasks, times) && |tasks| < |calls| && times.until <= now
    requires tasks == [] || !env.Aborts(times.since, start)
    requires Underway(env, tools, calls[|tasks|], t, times.since, start, now)
    ensures AllUnderway(env, tools, calls, tasks + [t], Times(times.since, times.starts + [start], now))
  {
    hide Underway, Env.Aborts;
    var all, starts := tasks + [t], times.starts + [start];
    forall i | 0 <= i < |all| ensures Underway(env, tools, calls[i], all[i], times.since, starts[i], now) {
      if i < |tasks| {
        StillUnderway(env, tools, calls[i], tasks[i], times.since, times.starts[i], times.until, now);
      }
    }
  }

  /** Start and preflight of one call; a refused call ends at once. */
  method PreflightOne(agent: Agent, tools: seq<Tool>, slot: nat, call: ToolCall) returns (t: Task)
    requires agent.Valid() && agent.activeRun
    modifies agent, agent.transcript, agent.steering, agent.followUp
    ensures Preflighted(t) && agent.Emitted(ShownOf(slot, t))
    ensures Underway(agent.env, tools, call, t, agent.origin.clock, old(agent.clock), agent.clock)
  {
    hide Agent.Valid, Env.Aborts;
    ghost var start := [ToolStart(slot, call)];
    agent.ProcessEvents(ToolStart(slot, call));
    ghost var at := agent.clock;
    var preparation := PrepareToolCall(agent, tools, call);
    agent.Signal();
    ghost var w := Moments(at, agent.clock, 0, 0, agent.aborted);
    Assoc(old(agent.trace), start, []);
    PreparedExactlyWhenAllowed(agent.env, at, tools, call, agent.aborted);
    match preparation {
      case Immediate(outcome) =>
        t := Done(outcome, []);
        assert Updates(slot, call, []) == [];
        assert ShownOf(slot, t) == start + [EndOf(slot, outcome)];
        Assoc(old(agent.trace), start, [EndOf(slot, outcome)]);
        agent.ProcessEvents(EndOf(slot, outcome));
      case Prepared(_, args) =>
        t := Ready(call, args);
    }
    assert OnItsWay(agent.env, tools, call, t, t.Ready?, w);
    assert Timely(agent.env, w, agent.origin.clock, old(agent.clock), agent.clock);
  }

  /** The sequential preflight of a concurrent batch. It is cut short only by an abort, and no call but the
      first starts after one. */
  method Preflight(agent: Agent, tools: seq<Tool>, calls: seq<ToolCall>) returns (tasks: seq<Task>, ghost times: Times)
    requires agent.Valid() && agent.activeRun
    modifies agent, agent.transcript, agent.steering, agent.followUp
    ensures AllPreflighted(tasks) && agent.Emitted(ShownBefore(tasks))
    ensures AllUnderway(agent.env, tools, calls, tasks, times)
    ensures calls != [] ==> tasks != []
    ensures |tasks| < |calls| ==> agent.env.Aborts(times.since, times.until)
    ensures times.since == agent.origin.clock && times.until == agent.clock
  {
    hide Underway, Agent.Valid, AllUnderway, Env.Aborts;
    tasks, times := [], Times(agent.origin.clock, [], agent.clock);
    NoneUnderway(agent.env, tools, calls, times.since, times.until);
    assert ShownBefore(tasks) == [];
    var i := 0;
    while i < |calls|
      invariant 0 <= i <= |calls| && |tasks| == i
      invariant AllPreflighted(tasks) && agent.Emitted(ShownBefore(tasks))
      invariant AllUnderway(agent.env, tools, calls, tasks, times)
      invariant times.since == agent.origin.clock && times.until == agent.clock
      invariant i > 0 ==> !agent.aborted
    {
      ghost var start := agent.clock;
      agent.Signal();
      var t := PreflightOne(agent, tools, i, calls[i]);
      UnderwaySnoc(agent.env, tools, calls, tasks, times, t, start, agent.clock);
      ShownBeforeSnoc(tasks, t);
      Assoc(old(agent.trace), ShownBefore(tasks), ShownOf(i, t));
      tasks, times := tasks + [t], Times(times.since, times.starts + [start], agent.clock);
      i := i + 1;
      if agent.aborted {
        break;
      }
    }
    agent.Signal();
  }

  lemma NoneUnderway(env: Env, tools: seq<Tool>, calls: seq<ToolCall>, since: nat, until: nat)
    ensures AllUnderway(env, tools, calls, [], Times(since, [], until))
  {
  }

  function Total(xs: seq<nat>): nat {
    if xs == [] then 0 else xs[0] + Total(xs[1..])
  }

  lemma {:induction false} TotalUpdate(xs: seq<nat>, i: nat, x: nat)
    requires i < |xs|
    ensures Total(xs[i := x]) == Total(xs) - xs[i] + x
  {
    if i == 0 {
      assert xs[0 := x][1..] == xs[1..];
    } else {
      TotalUpdate(xs[1..], i - 1, x);
      assert xs[i := x][1..] == xs[1..][i - 1 := x];
    }
  }

  /** How many steps a task that has started still needs. */
  function Remaining(t: Task): nat
    requires ValidTask(t)
  {
    match t
    case Ready(_, _) => 0
    case Executing(_, _, execution, sent) => |execution.updates| - sent + 2
    case Settled(_, _) => 1
    case Done(_, _) => 0
  }

  function Unstarted(tasks: seq<Task>): nat {
    Total(seq(|tasks|, i requires 0 <= i < |tasks| => if tasks[i].Ready? then 1 else 0))
  }

  ghost function Work(tasks: seq<Task>): nat
    requires ValidTasks(tasks)
  {
    Total(seq(|tasks|, i requires 0 <= i < |tasks| => Remaining(tasks[i])))
  }

  /** Every step of an unfinished task makes progress. */
  lemma StepsMakeProgress(env: Env, tasks: seq<Task>, slot: nat, at: nat)
    requires ValidTasks(tasks) && slot < |tasks| && !tasks[slot].Done?
    ensures var t' := Advance(env, slot, at, tasks[slot]).0;
      var after := tasks[slot := t'];
      && ValidTask(t')
      && (Unstarted(after) < Unstarted(tasks) || (Unstarted(after) == Unstarted(tasks) && Work(after) < Work(tasks)))
  {
    var t' := Advance(env, slot, at, tasks[slot]).0;
    AdvanceShows(env, slot, at, tasks[slot]);
    var after := tasks[slot := t'];
    var rs := seq(|tasks|, i requires 0 <= i < |tasks| => if tasks[i].Ready? then 1 else 0);
    TotalUpdate(rs, slot, if t'.Ready? then 1 else 0);
    assert seq(|after|, i requires 0 <= i < |after| => if after[i].Ready? then 1 else 0)
      == rs[slot := if t'.Ready? then 1 else 0];
    var ws := seq(|tasks|, i requires 0 <= i < |tasks| => Remaining(tasks[i]));
    TotalUpdate(ws, slot, Remaining(t'));
    assert seq(|after|, i requires 0 <= i < |after| => Remaining(after[i])) == ws[slot := Remaining(t')];
  }

  function Unfinished(tasks: seq<Task>, from: nat := 0): (open: seq<nat>)
    requires from <= |tasks|
    ensures forall s :: s in open ==> from <= s < |tasks| && !tasks[s].Done?
    ensures open == [] ==> forall s :: from <= s < |tasks| ==> tasks[s].Done?
    decreases |tasks| - from
  {
    if from == |tasks| then []
    else (if tasks[from].Done? then [] else [from]) + Unfinished(tasks, from + 1)
  }

  /** One step of the task in `slot`. */
  method StepTask(agent: Agent, slot: nat, t: Task) returns (t': Task, ghost p: Pick, ghost es: seq<Event>)
    requires agent.Valid() && agent.activeRun && ValidTask(t)
    modifies agent, agent.transcript, agent.steering, agent.followUp
    ensures p.slot == slot && (t', es) == Advance(agent.env, slot, p.at, t)
    ensures agent.Emitted(es)
  {
    p := Pick(slot, agent.clock);
    AdvanceShows(agent.env, slot, agent.clock, t);
    var (next, emitted) := Advance(agent.env, slot, agent.clock, t);
    t', es := next, emitted;
    if |emitted| > 0 {
      assert emitted[0] in emitted && emitted == [emitted[0]];
      agent.ProcessEvents(emitted[0]);
    } else {
      agent.Await();
    }
  }

  /** Runs the tasks of a concurrent batch, in the order of an arbitrary scheduler, until all are done. */
  method RunTasks(agent: Agent, initial: seq<Task>)
    returns (tasks: seq<Task>, ghost picks: seq<Pick>, ghost es: seq<Event>)
    requires agent.Valid() && agent.activeRun && ValidTasks(initial)
    modifies agent, agent.transcript, agent.steering, agent.followUp
    ensures agent.Emitted(es)
    ensures (tasks, es) == RunPicks(agent.env, initial, picks)
    ensures forall s :: 0 <= s < |tasks| ==> tasks[s].Done?
  {
    tasks, picks, es := initial, [], [];
    while true
      invariant agent.Emitted(es) && ValidTasks(tasks)
      invariant (tasks, es) == RunPicks(agent.env, initial, picks)
      decreases Unstarted(tasks), Work(tasks)
    {
      var open := Unfinished(tasks);
      if open == [] {
        return;
      }
      var slot := open[agent.env.schedule(agent.clock) % |open|];
      assert slot in open;
      ghost var before := tasks;
      var t'; ghost var p; ghost var es';
      t', p, es' := StepTask(agent, slot, tasks[slot]);
      StepsMakeProgress(agent.env, before, slot, p.at);
      RunPicksSnoc(agent.env, initial, picks, p);
      Assoc(old(agent.trace), es, es');
      tasks, picks, es := tasks[slot := t'], picks + [p], es + es';
    }
  }

  /** Every batch can be scheduled to its end: the theorems about complete interleavings are never empty. */
  lemma SomeScheduleFinishes(env: Env, initial: seq<Task>) returns (picks: seq<Pick>)
    requires ValidTasks(initial)
    ensures forall t :: t in RunPicks(env, initial, picks).0 ==> t.Done?
  {
    picks := [];
    var tasks := initial;
    while Unfinished(tasks) != []
      invariant ValidTasks(tasks) && tasks == RunPicks(env, initial, picks).0
      decreases Unstarted(tasks), Work(tasks)
    {
      var slot := Unfinished(tasks)[0];
      assert slot in Unfinished(tasks);
      StepsMakeProgress(env, tasks, slot, 0);
      RunPicksSnoc(env, initial, picks, Pick(slot, 0));
      tasks, picks := tasks[slot := Advance(env, slot, 0, tasks[slot]).0], picks + [Pick(slot, 0)];
    }
  }

  method EmitResultMessages(agent: Agent, ms: seq<Message>)
    requires agent.Valid() && agent.activeRun
    modifies agent, agent.transcript, agent.steering, agent.followUp
    ensures agent.Emitted(Pairs(ms))
  {
    for i := 0 to |ms|
      invariant agent.Emitted(Pairs(ms[..i]))
    {
      assert ms[..i + 1] == ms[..i] + [ms[i]];
      PairsSnoc(ms[..i], ms[i]);
      Assoc(old(agent.trace), Pairs(ms[..i]), [MessageStart(ms[i]), MessageEnd(ms[i])]);
      agent.EmitMessage(ms[i]);
    }
    assert ms[..|ms|] == ms;
  }

  /** When all tasks of a batch are done, they answer their calls. */
  lemma DoneTasksAnswer(env: Env, tools: seq<Tool>, calls: seq<ToolCall>, tasks: seq<Task>, picks: seq<Pick>,
      times: Times)
    requires ValidTasks(tasks) && AllUnderway(env, tools, calls, tasks, times)
    requires forall s :: 0 <= s < |tasks| ==> RunPicks(env, tasks, picks).0[s].Done?
    ensures var ts := RunPicks(env, tasks, picks).0;
      AnsweredSoFar(env, tools, calls, AnswersOf(Outcomes(ts), ShownUpdates(ts), Through(tasks)), times)
  {
    hide Env.Aborts;
    var ts := RunPicks(env, tasks, picks).0;
    var answers := AnswersOf(Outcomes(ts), ShownUpdates(ts), Through(tasks));
    forall k | 0 <= k < |tasks|
      ensures AnswersCall(env, tools, calls[k], answers[k], times.since, times.starts[k], times.until)
    {
      assert Underway(env, tools, calls[k], tasks[k], times.since, times.starts[k], times.until);
      var w :| OnItsWay(env, tools, calls[k], tasks[k], tasks[k].Ready?, w)
        && Timely(env, w, times.since, times.starts[k], times.until);
      var v := TasksStayOnTheirWay(env, tools, calls[k], tasks, picks, k, tasks[k].Ready?, w);
      assert AnswerAt(env, tools, calls[k], v) == answers[k];
      assert Timely(env, v, times.since, times.starts[k], times.until);
    }
  }

  method ExecuteToolCallsParallel(agent: Agent, tools: seq<Tool>, calls: seq<ToolCall>)
    returns (outs: seq<Finalized>, ghost updates: seq<seq<string>>, ghost through: seq<bool>, ghost phase: seq<Event>,
      ghost times: Times)
    requires agent.Valid() && agent.activeRun
    modifies agent, agent.transcript, agent.steering, agent.followUp
    ensures |updates| == |through| == |outs| && ParallelPhase(phase, outs, updates, through)
    ensures agent.Emitted(phase + Pairs(Results(outs)))
    ensures Answers(agent.env, tools, calls, AnswersOf(outs, updates, through), times)
    ensures times.since == agent.origin.clock && times.until <= agent.clock
  {
    hide ParallelPhase, AllUnderway, AnsweredSoFar, Agent.Valid, ShownBefore, RunPicks, Env.Aborts;
    var tasks;
    tasks, times := Preflight(agent, tools, calls);
    PreflightShows(tasks);
    ghost var pre := ShownBefore(tasks);
    var done; ghost var picks, es;
    done, picks, es := RunTasks(agent, tasks);
    CompleteInterleaving(agent.env, tasks, picks);
    outs, updates, through, phase := Outcomes(done), ShownUpdates(done), Through(tasks), pre + es;
    Assoc(old(agent.trace), pre, es);
    Assoc(old(agent.trace), phase, Pairs(Results(outs)));
    EmitResultMessages(agent, Results(outs));
    DoneTasksAnswer(agent.env, tools, calls, tasks, picks, times);
    AllAnswered(agent.env, tools, calls, AnswersOf(outs, updates, through), times);
  }
}
