/** What becomes of every tool-call block of a run, from the block to the message in the transcript. */
module CallStories {
  import opened Messages
  import opened Oracles
  import opened Events
  import opened ToolBatch
  import opened ToolAnswers
  import opened ToolLifecycle
  import opened RunLog

  /** The i-th answered call of a turn: it is answered as its tool, the hooks and the abort signal after its
      start demand, its start, partial results and end are shown with that answer, and so is its result
      message. */
  ghost predicate Story(env: Env, t: Turn, call: ToolCall, i: nat)
    requires i < |t.batch.outs|
  {
    var f := t.batch.outs[i];
    && i < |t.times.starts|
    && (exists w :: AnsweredAs(env, t.tools, call, w, Answer(f, t.batch.updates[i], t.batch.through[i])) &&
          Timely(env, w, t.times.since, t.times.starts[i], t.times.until))
    && TellsCall(Project(BatchEvents(t.batch), i), i, f, t.batch.updates[i])
    && Results(t.batch.outs)[i] == ToolResult(call.id, call.name, f.output.content, f.output.details, f.isError)
  }

  lemma AnswerOfCall(env: Env, t: Turn, i: nat)
    requires ValidTurn(env, t) && i < |t.batch.outs|
    ensures i < |ToolCalls(t.message)|
    ensures var call := ToolCalls(t.message)[i];
      && t.batch.outs[i].call == call
      && i < |t.times.starts|
      && exists w :: AnsweredAs(env, t.tools, call, w, AnswersIn(t.batch)[i]) &&
           Timely(env, w, t.times.since, t.times.starts[i], t.times.until)
  {
    var call, answer := ToolCalls(t.message)[i], AnswersIn(t.batch)[i];
    assert AnswersCall(env, t.tools, call, answer, t.times.since, t.times.starts[i], t.times.until);
    var w :| AnswerAt(env, t.tools, call, w) == answer
      && Timely(env, w, t.times.since, t.times.starts[i], t.times.until);
    hide AnswerAt, AnsweredAs, Env.Aborts, ToolCalls, Answers, ParallelPhase;
    AnswerMeans(env, t.tools, call, w);
  }

  lemma TurnStory(env: Env, t: Turn, i: nat)
    requires ValidTurn(env, t) && i < |t.batch.outs|
    ensures i < |ToolCalls(t.message)| && Story(env, t, ToolCalls(t.message)[i], i)
  {
    AnswerOfCall(env, t, i);
    BatchIsComplete(env, t);
    hide ValidTurn, AnsweredAs, WasAborted, BatchEvents, Project, ToolCalls;
    CallEventsTell(i, t.batch.outs[i], t.batch.updates[i]);
    hide CallEvents, TellsCall;
    assert Project(BatchEvents(t.batch), i) == CallEvents(i, t.batch.outs[i], t.batch.updates[i]);
    assert AnswersIn(t.batch)[i] == Answer(t.batch.outs[i], t.batch.updates[i], t.batch.through[i]);
  }

  /** In every turn of every run whose response did not fail, each tool-call block has its story, in order:
      all blocks unless other code had aborted the run, and then still the first ones. */
  lemma EveryBlockHasItsStory(env: Env, start: seq<Message>, tools: seq<Tool>, log: seq<Turn>, k: nat)
    returns (at: seq<nat>)
    requires Run(env, start, tools, log) && k < |log|
    requires log[k].message.stopReason != Error && log[k].message.stopReason != Aborted
    ensures var t := log[k];
      && CallPositions(t.message.content, at)
      && |t.batch.outs| <= |at| && (at != [] ==> t.batch.outs != [])
      && (!WasAborted(env, t) ==> |t.batch.outs| == |at|)
      && forall i :: 0 <= i < |t.batch.outs| ==>
           at[i] < |t.message.content| && t.message.content[at[i]].Call? &&
           Story(env, t, t.message.content[at[i]].call, i)
  {
    var t := log[k];
    assert Follows(env, start, tools, log[..k], t);
    at := CallsAreTheCallBlocks(t.message.content);
    assert ValidTurn(env, t);
    hide Run, Follows, Story, CallPositions, AnswersCall, ParallelPhase, RunsSequentially, Env.Aborts;
    forall i | 0 <= i < |t.batch.outs|
      ensures at[i] < |t.message.content| && t.message.content[at[i]].Call?
      ensures Story(env, t, t.message.content[at[i]].call, i)
    {
      TurnStory(env, t, i);
    }
  }
}
