/** Transcript messages, tools and tool outcomes, without timestamps, usage and cost. */
module Messages {

  datatype Option<+T> = None | Some(value: T)

  /** The outcome of a foreign call that may throw. */
  datatype Attempt<+T> = Returned(value: T) | Threw(error: string)

  lemma Assoc<T>(a: seq<T>, b: seq<T>, c: seq<T>)
    ensures a + b + c == a + (b + c)
  {
  }

  datatype ToolCall = ToolCall(id: string, name: string, arguments: string)

  datatype Block = Text(text: string) | Thinking(thinking: string) | Call(call: ToolCall)

  datatype StopReason = Stop | Length | ToolUse | Error | Aborted

  datatype Message =
    | User(text: string)
    | Assistant(content: seq<Block>, stopReason: StopReason, errorMessage: Option<string>)
    | ToolResult(callId: string, toolName: string, output: string, details: string, isError: bool)
    | Custom(role: string, payload: string)

  type AssistantMessage = m: Message | m.Assistant? witness Assistant([], Stop, None)

  datatype ExecutionMode = Sequential | Parallel

  datatype Tool = Tool(name: string, executionMode: Option<ExecutionMode>)

  datatype ToolOutput = ToolOutput(content: string, details: string, terminate: Option<bool>)

  /** A tool call together with its final result. */
  datatype Finalized = Finalized(call: ToolCall, output: ToolOutput, isError: bool)

  /** A JavaScript array of messages: a reference that several owners can share. */
  class MessageArray {
    var items: seq<Message>

    constructor (initial: seq<Message>)
      ensures items == initial
    {
      items := initial;
    }

    method Push(m: Message)
      modifies this
      ensures items == old(items) + [m]
    {
      items := items + [m];
    }

    method PushAll(ms: seq<Message>)
      modifies this
      ensures items == old(items) + ms
    {
      for i := 0 to |ms|
        invariant items == old(items) + ms[..i]
      {
        assert ms[..i + 1] == ms[..i] + [ms[i]];
        items := items + [ms[i]];
      }
      assert ms[..|ms|] == ms;
    }

    method SetLast(m: Message)
      requires items != []
      modifies this
      ensures items == old(items)[..|old(items)| - 1] + [m]
    {
      items := items[..|items| - 1] + [m];
    }
  }

  /** The tool-call blocks of an assistant message, in source order. */
  function CallsIn(content: seq<Block>): seq<ToolCall> {
    if content == [] then []
    else (if content[0].Call? then [content[0].call] else []) + CallsIn(content[1..])
  }

  /** The positions of the tool-call blocks of a message, in order. */
  predicate CallPositions(content: seq<Block>, at: seq<nat>) {
    && (forall i, j :: 0 <= i < j < |at| ==> at[i] < at[j])
    && (forall i :: 0 <= i < |at| ==> at[i] < |content| && content[at[i]].Call?)
    && (forall p: nat :: p < |content| && content[p].Call? ==> p in at)
  }

  /** The same for the blocks from one position on. */
  predicate PositionsFrom(content: seq<Block>, from: nat, at: seq<nat>) {
    && (forall i, j :: 0 <= i < j < |at| ==> at[i] < at[j])
    && (forall i :: 0 <= i < |at| ==> from <= at[i] < |content| && content[at[i]].Call?)
    && (forall p: nat :: from <= p < |content| && content[p].Call? ==> p in at)
  }

  lemma OneBlockEarlier(content: seq<Block>, from: nat, at: seq<nat>)
    requires from < |content| && PositionsFrom(content, from + 1, at)
    ensures PositionsFrom(content, from, if content[from].Call? then [from] + at else at)
  {
  }

  /** The calls are those of the blocks at the positions. */
  predicate CallsAt(content: seq<Block>, at: seq<nat>, calls: seq<ToolCall>) {
    && |calls| == |at|
    && forall i :: 0 <= i < |at| ==> at[i] < |content| && content[at[i]].Call? && calls[i] == content[at[i]].call
  }

  lemma OneCallEarlier(content: seq<Block>, from: nat, at: seq<nat>, calls: seq<ToolCall>)
    requires from < |content| && content[from].Call? && CallsAt(content, at, calls)
    ensures CallsAt(content, [from] + at, [content[from].call] + calls)
  {
  }

  lemma NextBlock(content: seq<Block>, from: nat)
    requires from < |content|
    ensures CallsIn(content[from..]) ==
      (if content[from].Call? then [content[from].call] else []) + CallsIn(content[from + 1..])
  {
    assert content[from..][1..] == content[from + 1..];
  }

  lemma {:induction false} CallsFrom(content: seq<Block>, from: nat) returns (at: seq<nat>)
    requires from <= |content|
    ensures PositionsFrom(content, from, at) && CallsAt(content, at, CallsIn(content[from..]))
    decreases |content| - from
  {
    at := [];
    if from < |content| {
      var rest := CallsFrom(content, from + 1);
      hide PositionsFrom, CallsAt, CallsIn;
      OneBlockEarlier(content, from, rest);
      NextBlock(content, from);
      if content[from].Call? {
        OneCallEarlier(content, from, rest, CallsIn(content[from + 1..]));
        at := [from] + rest;
      } else {
        assert [] + CallsIn(content[from + 1..]) == CallsIn(content[from + 1..]);
        at := rest;
      }
    }
  }

  /** Every tool-call block is a call, and the calls are in the order of the blocks. */
  lemma CallsAreTheCallBlocks(content: seq<Block>) returns (at: seq<nat>)
    ensures CallPositions(content, at) && CallsAt(content, at, CallsIn(content))
  {
    at := CallsFrom(content, 0);
    assert content[0..] == content;
  }

  function ToolCalls(m: AssistantMessage): seq<ToolCall> {
    CallsIn(m.content)
  }

  predicate Failed(m: AssistantMessage) {
    m.stopReason == Error || m.stopReason == Aborted
  }

  /** The transcript message of a finished call. */
  function ResultMessage(f: Finalized): Message {
    ToolResult(f.call.id, f.call.name, f.output.content, f.output.details, f.isError)
  }

  function Results(outs: seq<Finalized>): (r: seq<Message>)
    ensures |r| == |outs|
    ensures forall i :: 0 <= i < |outs| ==> r[i] == ResultMessage(outs[i])
  {
    seq(|outs|, i requires 0 <= i < |outs| => ResultMessage(outs[i]))
  }

  lemma ResultsSnoc(outs: seq<Finalized>, f: Finalized)
    ensures Results(outs + [f]) == Results(outs) + [ResultMessage(f)]
  {
  }

  predicate ShouldTerminate(outs: seq<Finalized>) {
    |outs| > 0 && forall i :: 0 <= i < |outs| ==> outs[i].output.terminate == Some(true)
  }
}
