/** Lifecycle events, the state an agent reduces them into, and the grammar of a trace. */
module Events {
  import opened Messages

  /** Tool events carry the position of their call in the batch (`slot`), so that two calls with the
      same identifier can still be told apart in a trace. */
  datatype Event =
    | AgentStart
    | AgentEnd(messages: seq<Message>)
    | TurnStart
    | TurnEnd(message: Message, toolResults: seq<Message>)
    | MessageStart(message: Message)
    | MessageUpdate(message: Message)
    | MessageEnd(message: Message)
    | ToolStart(slot: nat, call: ToolCall)
    | ToolUpdate(slot: nat, call: ToolCall, partialResult: string)
    | ToolEnd(slot: nat, call: ToolCall, output: ToolOutput, isError: bool)

  predicate IsToolEvent(e: Event) {
    e.ToolStart? || e.ToolUpdate? || e.ToolEnd?
  }

  predicate HasMessage(e: Event) {
    e.MessageStart? || e.MessageUpdate? || e.MessageEnd?
  }

  // ---- The reducer ----

  datatype View = View(
    messages: seq<Message>,
    streaming: Option<Message>,
    pending: set<string>,
    errorMessage: Option<string>)

  function Reduce(v: View, e: Event): View {
    match e
    case MessageStart(m) => v.(streaming := Some(m))
    case MessageUpdate(m) => v.(streaming := Some(m))
    case MessageEnd(m) => v.(streaming := None, messages := v.messages + [m])
    case ToolStart(_, c) => v.(pending := v.pending + {c.id})
    case ToolEnd(_, c, _, _) => v.(pending := v.pending - {c.id})
    case TurnEnd(m, _) =>
      if m.Assistant? && m.errorMessage.Some? && m.errorMessage.value != ""
      then v.(errorMessage := m.errorMessage) else v
    case AgentEnd(_) => v.(streaming := None)
    case _ => v
  }

  function ReduceAll(v: View, es: seq<Event>): View {
    if es == [] then v else Reduce(ReduceAll(v, es[..|es| - 1]), es[|es| - 1])
  }

  lemma ReduceSnoc(v: View, es: seq<Event>, e: Event)
    ensures ReduceAll(v, es + [e]) == Reduce(ReduceAll(v, es), e)
  {
    assert (es + [e])[..|es|] == es;
  }

  lemma {:induction false} ReduceAppend(v: View, a: seq<Event>, b: seq<Event>)
    ensures ReduceAll(v, a + b) == ReduceAll(ReduceAll(v, a), b)
  {
    if b == [] {
      assert a + b == a;
    } else {
      var b' := b[..|b| - 1];
      ReduceAppend(v, a, b');
      assert a + b == (a + b') + [b[|b| - 1]];
      ReduceSnoc(v, a + b', b[|b| - 1]);
    }
  }

  /** The events that say whether a message is being shown. */
  predicate ShowsOrHides(e: Event) {
    HasMessage(e) || e.AgentEnd?
  }

  /** The streaming message is the one that the latest such event shows, or none if that event ends it. */
  lemma {:induction false} StreamingIsTheLatestShown(v: View, es: seq<Event>, k: nat)
    requires k < |es| && ShowsOrHides(es[k]) && forall i :: k < i < |es| ==> !ShowsOrHides(es[i])
    ensures ReduceAll(v, es).streaming ==
      if es[k].MessageStart? || es[k].MessageUpdate? then Some(es[k].message) else None
  {
    var n := |es| - 1;
    if k < n {
      StreamingIsTheLatestShown(v, es[..n], k);
    }
  }

  /** A turn that ended with an error. */
  predicate ReportsError(e: Event) {
    e.TurnEnd? && e.message.Assistant? && e.message.errorMessage.Some? && e.message.errorMessage.value != ""
  }

  /** The error of the agent is the one its latest failed turn reported. */
  lemma {:induction false} ErrorIsTheLatestReported(v: View, es: seq<Event>, k: nat)
    requires k < |es| && ReportsError(es[k]) && forall i :: k < i < |es| ==> !ReportsError(es[i])
    ensures ReduceAll(v, es).errorMessage == es[k].message.errorMessage
  {
    var n := |es| - 1;
    if k < n {
      ErrorIsTheLatestReported(v, es[..n], k);
    }
  }

  lemma {:induction false} NoErrorUnlessReported(v: View, es: seq<Event>)
    requires forall i :: 0 <= i < |es| ==> !ReportsError(es[i])
    ensures ReduceAll(v, es).errorMessage == v.errorMessage
  {
    if es != [] { NoErrorUnlessReported(v, es[..|es| - 1]); }
  }

  // ---- Completed messages ----

  /** The payloads of all `message_end` events, in order. */
  function Ended(es: seq<Event>): seq<Message> {
    if es == [] then []
    else Ended(es[..|es| - 1]) + (if es[|es| - 1].MessageEnd? then [es[|es| - 1].message] else [])
  }

  lemma {:induction false} EndedAppend(a: seq<Event>, b: seq<Event>)
    ensures Ended(a + b) == Ended(a) + Ended(b)
  {
    if b == [] {
      assert a + b == a;
    } else {
      var b' := b[..|b| - 1];
      EndedAppend(a, b');
      assert (a + b)[..|a + b| - 1] == a + b';
      assert (a + b)[|a + b| - 1] == b[|b| - 1];
    }
  }

  lemma EndedSnoc(es: seq<Event>, e: Event)
    ensures Ended(es + [e]) == if e.MessageEnd? then Ended(es) + [e.message] else Ended(es)
  {
    assert (es + [e])[..|es|] == es;
  }

  /** The agent transcript grows by exactly the completed messages. */
  lemma {:induction false} TranscriptIsEnded(v: View, es: seq<Event>)
    ensures ReduceAll(v, es).messages == v.messages + Ended(es)
  {
    if es != [] {
      TranscriptIsEnded(v, es[..|es| - 1]);
    }
  }

  /** The start and end events of messages that are not streamed. */
  function Pairs(ms: seq<Message>): seq<Event> {
    if ms == [] then [] else Pairs(ms[..|ms| - 1]) + [MessageStart(ms[|ms| - 1]), MessageEnd(ms[|ms| - 1])]
  }

  lemma PairsSnoc(ms: seq<Message>, m: Message)
    ensures Pairs(ms + [m]) == Pairs(ms) + [MessageStart(m), MessageEnd(m)]
  {
    assert (ms + [m])[..|ms|] == ms;
  }

  lemma {:induction false} PairsAppend(a: seq<Message>, b: seq<Message>)
    ensures Pairs(a + b) == Pairs(a) + Pairs(b)
  {
    if b == [] {
      assert a + b == a;
    } else {
      var b' := b[..|b| - 1];
      PairsAppend(a, b');
      assert (a + b)[..|a + b| - 1] == a + b';
    }
  }

  lemma {:induction false} EndedPairs(ms: seq<Message>)
    ensures Ended(Pairs(ms)) == ms
  {
    if ms != [] {
      var m := ms[|ms| - 1];
      EndedPairs(ms[..|ms| - 1]);
      EndedAppend(Pairs(ms[..|ms| - 1]), [MessageStart(m), MessageEnd(m)]);
      assert [MessageStart(m), MessageEnd(m)][..1] == [MessageStart(m)];
      assert Ended([MessageStart(m)]) == [];
      assert ms == ms[..|ms| - 1] + [m];
    }
  }

  // ---- The nesting of events ----

  datatype Phase = Before | Between | InTurn | InMessage | After | Broken

  function Step(p: Phase, e: Event): Phase {
    match e
    case AgentStart => if p == Before then Between else Broken
    case TurnStart => if p == Between then InTurn else Broken
    case MessageStart(_) => if p == InTurn then InMessage else Broken
    case MessageUpdate(_) => if p == InMessage then InMessage else Broken
    case MessageEnd(_) => if p == InMessage then InTurn else Broken
    case TurnEnd(_, _) => if p == InTurn then Between else Broken
    case AgentEnd(_) => if p == Between then After else Broken
    case _ => if p == InTurn then InTurn else Broken
  }

  function Scan(p: Phase, es: seq<Event>): Phase {
    if es == [] then p else Step(Scan(p, es[..|es| - 1]), es[|es| - 1])
  }

  lemma ScanSnoc(p: Phase, es: seq<Event>, e: Event)
    ensures Scan(p, es + [e]) == Step(Scan(p, es), e)
  {
    assert (es + [e])[..|es|] == es;
  }

  lemma {:induction false} NothingEndsInToolEvents(es: seq<Event>)
    requires forall i :: 0 <= i < |es| ==> IsToolEvent(es[i])
    ensures Ended(es) == []
  {
    if es != [] {
      NothingEndsInToolEvents(es[..|es| - 1]);
    }
  }

  // ---- Streamed responses ----

  /** One streamed message: a start, updates, and the end that carries the final message. */
  predicate StreamBlock(es: seq<Event>, final: Message) {
    && |es| >= 2
    && es[0].MessageStart?
    && es[|es| - 1] == MessageEnd(final)
    && forall i :: 0 < i < |es| - 1 ==> es[i].MessageUpdate?
  }

  lemma {:induction false} NothingEndsInStreamPrefix(es: seq<Event>, final: Message, n: nat)
    requires StreamBlock(es, final) && n < |es|
    ensures Ended(es[..n]) == []
    decreases n
  {
    if n > 0 {
      assert es[..n][..n - 1] == es[..n - 1];
      NothingEndsInStreamPrefix(es, final, n - 1);
    }
  }

  lemma StreamEnds(es: seq<Event>, final: Message)
    requires StreamBlock(es, final)
    ensures Ended(es) == [final]
  {
    NothingEndsInStreamPrefix(es, final, |es| - 1);
  }
}
