/** The proxy client's in-place reconstruction of an assistant message from events without `partial`.

    What the message must be after any sequence of events is defined globally, by the latest start of each
    block and the deltas since; the method updates one block at a time. */
module ProxyMessage {
  import opened Messages

  type Json = map<string, string>

  /** `parseStreamingJson`: None stands for a falsy result. */
  type Parser = string -> Option<Json>

  datatype Content =
    | TextContent(text: string, signature: Option<string>)
    | ThinkingContent(text: string, signature: Option<string>)
    | ToolCallContent(id: string, name: string, arguments: Json, partialJson: Option<string>)

  datatype ProxyEvent =
    | Start
    | TextStart(index: nat)
    | TextDelta(index: nat, delta: string)
    | TextEnd(index: nat, signature: Option<string>)
    | ThinkingStart(index: nat)
    | ThinkingDelta(index: nat, delta: string)
    | ThinkingEnd(index: nat, signature: Option<string>)
    | ToolCallStart(index: nat, id: string, name: string)
    | ToolCallDelta(index: nat, delta: string)
    | ToolCallEnd(index: nat)
    | Done(reason: StopReason)
    | Failure(reason: StopReason, errorMessage: Option<string>)
    | Unhandled(name: string)

  /** What the client's own stream announces; every event also carries the message itself. */
  datatype Announcement =
    | Plain(event: ProxyEvent)
    | TextEnded(index: nat, text: string)
    | ThinkingEnded(index: nat, text: string)
    | ToolCallEnded(index: nat, toolCall: Content)
    | DoneWith(reason: StopReason)
    | FailedWith(reason: StopReason)

  /** A template literal or `+=` shows a deleted property as this text. */
  const UNDEFINED := "undefined"

  // ---- The reference: what a sequence of events means ----

  datatype Part = Opening | Delta | Ending | CallEnding

  predicate Addresses(e: ProxyEvent, i: nat) {
    !e.Start? && !e.Done? && !e.Failure? && !e.Unhandled? && e.index == i
  }

  predicate At(e: ProxyEvent, part: Part, i: nat) {
    match part
    case Opening => (e.TextStart? || e.ThinkingStart? || e.ToolCallStart?) && e.index == i
    case Delta => (e.TextDelta? || e.ThinkingDelta? || e.ToolCallDelta?) && e.index == i
    case Ending => (e.TextEnd? || e.ThinkingEnd?) && e.index == i
    case CallEnding => e.ToolCallEnd? && e.index == i
  }

  /** The position of the latest such event for block `i`, or -1. */
  function LastAt(es: seq<ProxyEvent>, part: Part, i: nat): (k: int)
    ensures -1 <= k < |es|
    ensures k >= 0 ==> At(es[k], part, i)
    ensures forall j :: k < j < |es| ==> !At(es[j], part, i)
  {
    if es == [] then -1
    else if At(es[|es| - 1], part, i) then |es| - 1
    else LastAt(es[..|es| - 1], part, i)
  }

  /** The deltas for block `i`, concatenated. */
  function Deltas(es: seq<ProxyEvent>, i: nat): string {
    if es == [] then ""
    else if At(es[|es| - 1], Delta, i) then Deltas(es[..|es| - 1], i) + es[|es| - 1].delta
    else Deltas(es[..|es| - 1], i)
  }

  function Signature(es: seq<ProxyEvent>, i: nat): Option<string> {
    var k := LastAt(es, Ending, i);
    if k < 0 then None else es[k].signature
  }

  /** The text handed to the parser. `toolcall_end` deletes it, so deltas that follow one are appended to
      the word "undefined". */
  function JsonText(es: seq<ProxyEvent>, i: nat): string {
    var k := LastAt(es, CallEnding, i);
    if k < 0 then Deltas(es, i) else UNDEFINED + Deltas(es[k + 1..], i)
  }

  function Parsed(parse: Parser, text: string): Json {
    match parse(text)
    case Some(json) => json
    case None => map[]
  }

  function ArgumentsOf(es: seq<ProxyEvent>, i: nat, parse: Parser): Json {
    var k := LastAt(es, Delta, i);
    if k < 0 then map[] else Parsed(parse, JsonText(es[..k + 1], i))
  }

  function PartialJsonOf(es: seq<ProxyEvent>, i: nat): Option<string> {
    if LastAt(es, CallEnding, i) > LastAt(es, Delta, i) then None else Some(JsonText(es, i))
  }

  /** The latest start of block `i`; `Start` if there is none. */
  function Opener(es: seq<ProxyEvent>, i: nat): (e: ProxyEvent)
    ensures e.Start? || At(e, Opening, i)
  {
    var k := LastAt(es, Opening, i);
    if k < 0 then Start else es[k]
  }

  /** The events after the latest start of block `i`. */
  function Since(es: seq<ProxyEvent>, i: nat): seq<ProxyEvent> {
    es[LastAt(es, Opening, i) + 1..]
  }

  /** Block `i`: of the kind of its latest start, with what came since. */
  function BlockAt(es: seq<ProxyEvent>, i: nat, parse: Parser): Option<Content> {
    var since := Since(es, i);
    match Opener(es, i)
    case TextStart(_) => Some(TextContent(Deltas(since, i), Signature(since, i)))
    case ThinkingStart(_) => Some(ThinkingContent(Deltas(since, i), Signature(since, i)))
    case ToolCallStart(_, id, name) =>
      Some(ToolCallContent(id, name, ArgumentsOf(since, i, parse), PartialJsonOf(since, i)))
    case _ => None
  }

  /** One more than the largest index ever started: the length of the content array, holes included. */
  function Extent(es: seq<ProxyEvent>): (n: nat)
    ensures forall k, i: nat :: 0 <= k < |es| && At(es[k], Opening, i) ==> i < n
    ensures n > 0 ==> exists k :: 0 <= k < |es| && At(es[k], Opening, n - 1)
  {
    if es == [] then 0
    else
      var n := Extent(es[..|es| - 1]);
      var e := es[|es| - 1];
      if (e.TextStart? || e.ThinkingStart? || e.ToolCallStart?) && e.index >= n then
        assert At(es[|es| - 1], Opening, e.index);
        e.index + 1
      else
        n
  }

  function Contents(es: seq<ProxyEvent>, parse: Parser): (c: seq<Option<Content>>)
    ensures |c| == Extent(es)
  {
    seq(Extent(es), i requires 0 <= i => BlockAt(es, i, parse))
  }

  /** The latest reason given, `stop` before any. */
  function ReasonOf(es: seq<ProxyEvent>): StopReason {
    if es == [] then Stop
    else if es[|es| - 1].Done? || es[|es| - 1].Failure? then es[|es| - 1].reason
    else ReasonOf(es[..|es| - 1])
  }

  function ErrorOf(es: seq<ProxyEvent>): Option<string> {
    if es == [] then None
    else if es[|es| - 1].Failure? then es[|es| - 1].errorMessage
    else ErrorOf(es[..|es| - 1])
  }

  /** Deltas and the ends of texts need a block of their own kind; `toolcall_end` needs none. */
  predicate Admissible(es: seq<ProxyEvent>, e: ProxyEvent) {
    match e
    case TextDelta(i, _) => Opener(es, i).TextStart?
    case TextEnd(i, _) => Opener(es, i).TextStart?
    case ThinkingDelta(i, _) => Opener(es, i).ThinkingStart?
    case ThinkingEnd(i, _) => Opener(es, i).ThinkingStart?
    case ToolCallDelta(i, _) => Opener(es, i).ToolCallStart?
    case _ => true
  }

  predicate Accepted(es: seq<ProxyEvent>) {
    forall k :: 0 <= k < |es| ==> Admissible(es[..k], es[k])
  }

  // ---- One event at a time ----

  /** Assignment to an array element, which may leave holes. */
  function Put(c: seq<Option<Content>>, i: nat, block: Content): (r: seq<Option<Content>>)
    ensures |r| == if i < |c| then |c| else i + 1
    ensures forall j :: 0 <= j < |r| ==>
      r[j] == if j == i then Some(block) else if j < |c| then c[j] else None
  {
    if i < |c| then c[i := Some(block)] else c + seq(i - |c|, _ => None) + [Some(block)]
  }

  /** How an event changes the message of whoever sends or receives it: one block, nothing else. */
  ghost predicate Step(c: seq<Option<Content>>, e: ProxyEvent, c': seq<Option<Content>>, parse: Parser) {
    match e
    case TextStart(i) => c' == Put(c, i, TextContent("", None))
    case ThinkingStart(i) => c' == Put(c, i, ThinkingContent("", None))
    case ToolCallStart(i, id, name) => c' == Put(c, i, ToolCallContent(id, name, map[], Some("")))
    case TextDelta(i, delta) =>
      i < |c| && c[i].Some? && c[i].value.TextContent? &&
      c' == c[i := Some(TextContent(c[i].value.text + delta, c[i].value.signature))]
    case TextEnd(i, signature) =>
      i < |c| && c[i].Some? && c[i].value.TextContent? &&
      c' == c[i := Some(TextContent(c[i].value.text, signature))]
    case ThinkingDelta(i, delta) =>
      i < |c| && c[i].Some? && c[i].value.ThinkingContent? &&
      c' == c[i := Some(ThinkingContent(c[i].value.text + delta, c[i].value.signature))]
    case ThinkingEnd(i, signature) =>
      i < |c| && c[i].Some? && c[i].value.ThinkingContent? &&
      c' == c[i := Some(ThinkingContent(c[i].value.text, signature))]
    case ToolCallDelta(i, delta) =>
      i < |c| && c[i].Some? && c[i].value.ToolCallContent? &&
      var json := (if c[i].value.partialJson.Some? then c[i].value.partialJson.value else UNDEFINED) + delta;
      c' == c[i := Some(c[i].value.(partialJson := Some(json), arguments := Parsed(parse, json)))]
    case ToolCallEnd(i) =>
      if i < |c| && c[i].Some? && c[i].value.ToolCallContent?
      then c' == c[i := Some(c[i].value.(partialJson := None))]
      else c' == c
    case _ => c' == c
  }

  // ---- Both views agree ----

  lemma Prefix(es: seq<ProxyEvent>, e: ProxyEvent)
    ensures (es + [e])[..|es|] == es && (es + [e])[|es|] == e && |es + [e]| == |es| + 1
  {}

  lemma LastAtSnoc(es: seq<ProxyEvent>, e: ProxyEvent, part: Part, i: nat)
    ensures LastAt(es + [e], part, i) == if At(e, part, i) then |es| else LastAt(es, part, i)
  {
    Prefix(es, e);
  }

  lemma DeltasSnoc(es: seq<ProxyEvent>, e: ProxyEvent, i: nat)
    ensures Deltas(es + [e], i) == if At(e, Delta, i) then Deltas(es, i) + e.delta else Deltas(es, i)
  {
    Prefix(es, e);
  }

  lemma NoDeltas(i: nat)
    ensures Deltas([], i) == ""
  {}

  lemma SinceSnoc(es: seq<ProxyEvent>, e: ProxyEvent, i: nat)
    ensures Since(es + [e], i) == if At(e, Opening, i) then [] else Since(es, i) + [e]
    ensures Opener(es + [e], i) == if At(e, Opening, i) then e else Opener(es, i)
  {
    LastAtSnoc(es, e, Opening, i);
  }

  /** One more event after the last `toolcall_end`. */
  lemma TextSnoc(text: string, es: seq<ProxyEvent>, k: nat, e: ProxyEvent, i: nat)
    requires k < |es|
    ensures text + Deltas((es + [e])[k + 1..], i) ==
      if At(e, Delta, i) then text + Deltas(es[k + 1..], i) + e.delta else text + Deltas(es[k + 1..], i)
  {
    hide Deltas;
    assert (es + [e])[k + 1..] == es[k + 1..] + [e];
    DeltasSnoc(es[k + 1..], e, i);
    if At(e, Delta, i) { Assoc(text, Deltas(es[k + 1..], i), e.delta); }
  }

  lemma JsonTextSnoc(es: seq<ProxyEvent>, e: ProxyEvent, i: nat)
    ensures JsonText(es + [e], i) ==
      if At(e, CallEnding, i) then UNDEFINED
      else if At(e, Delta, i) then JsonText(es, i) + e.delta
      else JsonText(es, i)
  {
    hide LastAt, Deltas;
    LastAtSnoc(es, e, CallEnding, i);
    var k := LastAt(es, CallEnding, i);
    if At(e, CallEnding, i) {
      assert (es + [e])[|es| + 1..] == [];
      NoDeltas(i);
      assert UNDEFINED + "" == UNDEFINED;
    } else if k < 0 {
      DeltasSnoc(es, e, i);
    } else {
      TextSnoc(UNDEFINED, es, k, e, i);
    }
  }

  lemma ArgumentsSnoc(es: seq<ProxyEvent>, e: ProxyEvent, i: nat, parse: Parser)
    ensures ArgumentsOf(es + [e], i, parse) ==
      if At(e, Delta, i) then Parsed(parse, JsonText(es + [e], i)) else ArgumentsOf(es, i, parse)
    ensures PartialJsonOf(es + [e], i) ==
      if At(e, CallEnding, i) then None
      else if At(e, Delta, i) then Some(JsonText(es + [e], i))
      else PartialJsonOf(es, i)
  {
    hide LastAt, JsonText;
    LastAtSnoc(es, e, Delta, i);
    LastAtSnoc(es, e, CallEnding, i);
    JsonTextSnoc(es, e, i);
    var k := LastAt(es, Delta, i);
    if At(e, Delta, i) {
      assert (es + [e])[..|es| + 1] == es + [e];
    } else if k >= 0 {
      assert (es + [e])[..k + 1] == es[..k + 1];
    }
  }

  lemma SignatureSnoc(es: seq<ProxyEvent>, e: ProxyEvent, i: nat)
    ensures Signature(es + [e], i) == if At(e, Ending, i) then e.signature else Signature(es, i)
  {
    LastAtSnoc(es, e, Ending, i);
  }

  /** An event leaves every other block alone. */
  lemma OtherBlocks(es: seq<ProxyEvent>, e: ProxyEvent, i: nat, parse: Parser)
    requires !Addresses(e, i)
    ensures BlockAt(es + [e], i, parse) == BlockAt(es, i, parse)
  {
    hide LastAt, Deltas, Since, Opener, Signature, ArgumentsOf, PartialJsonOf, JsonText;
    assert !At(e, Opening, i) && !At(e, Delta, i) && !At(e, Ending, i) && !At(e, CallEnding, i);
    SinceSnoc(es, e, i);
    var since := Since(es, i);
    DeltasSnoc(since, e, i);
    SignatureSnoc(since, e, i);
    ArgumentsSnoc(since, e, i, parse);
  }

  lemma ExtentSnoc(es: seq<ProxyEvent>, e: ProxyEvent)
    ensures Extent(es + [e]) ==
      if (e.TextStart? || e.ThinkingStart? || e.ToolCallStart?) &&
          e.index >= Extent(es) then e.index + 1 else Extent(es)
  {
    Prefix(es, e);
  }

  /** A block exists exactly if it was started, and has the kind of its latest start. */
  lemma KindOfBlock(es: seq<ProxyEvent>, i: nat, parse: Parser)
    ensures var block := BlockAt(es, i, parse);
      && (Opener(es, i).Start? <==> block.None?)
      && (Opener(es, i).TextStart? <==> block.Some? && block.value.TextContent?)
      && (Opener(es, i).ThinkingStart? <==> block.Some? && block.value.ThinkingContent?)
      && (Opener(es, i).ToolCallStart? <==> block.Some? && block.value.ToolCallContent?)
    ensures i >= Extent(es) ==> Opener(es, i).Start?
  {
    assert Opener(es, i).Start? || At(Opener(es, i), Opening, i);
  }

  /** What an event does to its own block. */
  lemma OwnBlock(es: seq<ProxyEvent>, e: ProxyEvent, i: nat, parse: Parser)
    requires Addresses(e, i)
    requires Admissible(es, e)
    ensures var was := BlockAt(es, i, parse); var becomes := BlockAt(es + [e], i, parse);
      match e
      case TextStart(_) => becomes == Some(TextContent("", None))
      case ThinkingStart(_) => becomes == Some(ThinkingContent("", None))
      case ToolCallStart(_, id, name) => becomes == Some(ToolCallContent(id, name, map[], Some("")))
      case TextDelta(_, delta) => was.Some? && was.value.TextContent? &&
        becomes == Some(TextContent(was.value.text + delta, was.value.signature))
      case TextEnd(_, signature) => was.Some? && was.value.TextContent? &&
        becomes == Some(TextContent(was.value.text, signature))
      case ThinkingDelta(_, delta) => was.Some? && was.value.ThinkingContent? &&
        becomes == Some(ThinkingContent(was.value.text + delta, was.value.signature))
      case ThinkingEnd(_, signature) => was.Some? && was.value.ThinkingContent? &&
        becomes == Some(ThinkingContent(was.value.text, signature))
      case _ => true
  {
    hide LastAt, Deltas, Since, Signature, ArgumentsOf, PartialJsonOf, JsonText;
    KindOfBlock(es, i, parse);
    SinceSnoc(es, e, i);
    var since := Since(es, i);
    DeltasSnoc(since, e, i);
    SignatureSnoc(since, e, i);
    if At(e, Opening, i) { NothingSince(i, parse); }
  }

  lemma NothingSince(i: nat, parse: Parser)
    ensures Deltas([], i) == "" && Signature([], i) == None
    ensures ArgumentsOf([], i, parse) == map[] && PartialJsonOf([], i) == Some("")
  {}

  /** What an event of a tool call does to its own block. */
  lemma OwnCall(es: seq<ProxyEvent>, e: ProxyEvent, i: nat, parse: Parser)
    requires (e.ToolCallDelta? || e.ToolCallEnd?) && e.index == i && Admissible(es, e)
    ensures var was := BlockAt(es, i, parse); var becomes := BlockAt(es + [e], i, parse);
      if was.Some? && was.value.ToolCallContent? then
        if e.ToolCallEnd? then becomes == Some(was.value.(partialJson := None))
        else
          var json := (if was.value.partialJson.Some? then was.value.partialJson.value else UNDEFINED) + e.delta;
          becomes == Some(was.value.(partialJson := Some(json), arguments := Parsed(parse, json)))
      else e.ToolCallEnd? && becomes == was
  {
    hide LastAt, Deltas, Since, Signature, ArgumentsOf, PartialJsonOf, JsonText;
    KindOfBlock(es, i, parse);
    SinceSnoc(es, e, i);
    var since := Since(es, i);
    DeltasSnoc(since, e, i);
    SignatureSnoc(since, e, i);
    ArgumentsSnoc(since, e, i, parse);
    JsonTextSnoc(since, e, i);
    HeldText(since, i);
  }

  /** The text kept in the block is what the parser gets extended. */
  lemma HeldText(es: seq<ProxyEvent>, i: nat)
    ensures JsonText(es, i) == if PartialJsonOf(es, i).Some? then PartialJsonOf(es, i).value else UNDEFINED
  {
    var k := LastAt(es, CallEnding, i);
    if PartialJsonOf(es, i).None? {
      NoDeltasAfter(es[k + 1..], i);
    }
  }

  lemma {:induction false} NoDeltasAfter(es: seq<ProxyEvent>, i: nat)
    requires forall j :: 0 <= j < |es| ==> !At(es[j], Delta, i)
    ensures Deltas(es, i) == ""
  {
    if es != [] { NoDeltasAfter(es[..|es| - 1], i); }
  }

  /** The local step and the global meaning agree. */
  lemma StepGivesContents(es: seq<ProxyEvent>, e: ProxyEvent, c': seq<Option<Content>>, parse: Parser)
    requires Step(Contents(es, parse), e, c', parse)
    ensures Admissible(es, e) && c' == Contents(es + [e], parse)
  {
    hide LastAt, BlockAt, Opener, Extent;
    ExtentSnoc(es, e);
    var c := Contents(es, parse);
    var r := Contents(es + [e], parse);
    if !e.Start? && !e.Done? && !e.Failure? && !e.Unhandled? {
      var i := e.index;
      KindOfBlock(es, i, parse);
      assert Admissible(es, e);
      if e.ToolCallDelta? || e.ToolCallEnd? { OwnCall(es, e, i, parse); } else { OwnBlock(es, e, i, parse); }
    }
    assert |c'| == |r|;
    forall j | 0 <= j < |r| ensures c'[j] == r[j] {
      if !Addresses(e, j) {
        OtherBlocks(es, e, j, parse);
        KindOfBlock(es, j, parse);
      }
    }
  }

  /** Stripping and rebuilding: if the sender changes its own message one step per event, what the events
      alone mean is exactly the sender's message, after every prefix and however the indices interleave. */
  lemma {:induction false} StrippedEventsRebuild(
      es: seq<ProxyEvent>, views: seq<seq<Option<Content>>>, parse: Parser, n: nat)
    requires |views| == |es| + 1 && views[0] == []
    requires forall k :: 0 <= k < |es| ==> Step(views[k], es[k], views[k + 1], parse)
    requires n <= |es|
    ensures Accepted(es[..n]) && views[n] == Contents(es[..n], parse)
  {
    if n > 0 {
      StrippedEventsRebuild(es, views, parse, n - 1);
      hide Contents, Accepted;
      StepGivesContents(es[..n - 1], es[n - 1], views[n], parse);
      AcceptedSnoc(es[..n - 1], es[n - 1]);
      assert es[..n] == es[..n - 1] + [es[n - 1]];
    }
  }

  lemma {:induction false} DeltasAppend(a: seq<ProxyEvent>, b: seq<ProxyEvent>, i: nat)
    ensures Deltas(a + b, i) == Deltas(a, i) + Deltas(b, i)
  {
    if b == [] {
      assert a + b == a;
    } else {
      var n := |b| - 1;
      DeltasAppend(a, b[..n], i);
      assert (a + b)[..|a + b| - 1] == a + b[..n];
      assert At(b[n], Delta, i) ==>
        Deltas(a, i) + (Deltas(b[..n], i) + b[n].delta) == Deltas(a, i) + Deltas(b[..n], i) + b[n].delta;
    }
  }

  /** The text of a list of events is the concatenation of its deltas exactly if the list contains no
      `toolcall_end`, or the deltas before the last one spell "undefined". */
  lemma JsonIsTheDeltas(es: seq<ProxyEvent>, i: nat)
    ensures JsonText(es, i) == Deltas(es, i) <==>
            (LastAt(es, CallEnding, i) < 0 || Deltas(es[..LastAt(es, CallEnding, i)], i) == UNDEFINED)
  {
    hide LastAt, Deltas;
    var k := LastAt(es, CallEnding, i);
    if k >= 0 {
      assert es == es[..k] + ([es[k]] + es[k + 1..]);
      DeltasAppend(es[..k], [es[k]] + es[k + 1..], i);
      DeltasAppend([es[k]], es[k + 1..], i);
      NoDeltasAfter([es[k]], i);
      var before, after := Deltas(es[..k], i), Deltas(es[k + 1..], i);
      assert Deltas(es, i) == before + after && JsonText(es, i) == UNDEFINED + after;
      if UNDEFINED + after == before + after {
        assert |before| == |UNDEFINED|;
        assert before == (before + after)[..|before|] == (UNDEFINED + after)[..|UNDEFINED|] == UNDEFINED;
      }
    }
  }

  /** The events of a tool call since its start up to its last delta: what its arguments are read from. */
  function ReadFrom(es: seq<ProxyEvent>, i: nat): seq<ProxyEvent> {
    var since := Since(es, i);
    since[..LastAt(since, Delta, i) + 1]
  }

  lemma {:induction false} DeltasUpToLast(es: seq<ProxyEvent>, i: nat)
    ensures Deltas(es[..LastAt(es, Delta, i) + 1], i) == Deltas(es, i)
  {
    if es != [] {
      var n := |es| - 1;
      if At(es[n], Delta, i) {
        assert es[..n + 1] == es;
      } else {
        DeltasUpToLast(es[..n], i);
        assert es[..n][..LastAt(es, Delta, i) + 1] == es[..LastAt(es, Delta, i) + 1];
      }
    }
  }

  lemma AllDeltasAreRead(es: seq<ProxyEvent>, i: nat)
    ensures Deltas(ReadFrom(es, i), i) == Deltas(Since(es, i), i)
  {
    hide Deltas, LastAt, Since;
    DeltasUpToLast(Since(es, i), i);
  }

  /** No delta of the call came after a `toolcall_end`, or the deltas before it spell "undefined". */
  predicate ReadCorrectly(es: seq<ProxyEvent>, i: nat) {
    var read := ReadFrom(es, i);
    var k := LastAt(read, CallEnding, i);
    k < 0 || Deltas(read[..k], i) == UNDEFINED
  }

  /** The arguments of a tool call, before and after its end, are the parse of the deltas since its start,
      and none if there were none, whenever no delta came late. */
  lemma ToolArgumentsAreParsedDeltas(es: seq<ProxyEvent>, i: nat, parse: Parser)
    requires Opener(es, i).ToolCallStart? && ReadCorrectly(es, i)
    ensures var call := BlockAt(es, i, parse).value;
      && call.id == Opener(es, i).id && call.name == Opener(es, i).name
      && call.arguments ==
         if LastAt(Since(es, i), Delta, i) < 0 then map[] else Parsed(parse, Deltas(Since(es, i), i))
  {
    hide LastAt, Deltas, JsonText;
    JsonIsTheDeltas(ReadFrom(es, i), i);
    AllDeltasAreRead(es, i);
  }

  /** For every parser the arguments are the parse of the deltas, if and only if no delta came late or the
      deltas before the end spell "undefined". */
  lemma ArgumentsRightIffReadCorrectly(es: seq<ProxyEvent>, i: nat)
    requires Opener(es, i).ToolCallStart? && LastAt(Since(es, i), Delta, i) >= 0
    ensures (forall parse: Parser :: BlockAt(es, i, parse).value.arguments == Parsed(parse, Deltas(Since(es, i), i)))
            <==> ReadCorrectly(es, i)
  {
    var read := ReadFrom(es, i);
    var deltas := Deltas(Since(es, i), i);
    JsonIsTheDeltas(read, i);
    AllDeltasAreRead(es, i);
    hide LastAt, Deltas, JsonText;
    forall parse: Parser ensures BlockAt(es, i, parse).value.arguments == Parsed(parse, JsonText(read, i)) {}
    var telling: Parser := text => if text == deltas then Some(map["right" := ""]) else None;
    if JsonText(read, i) != deltas {
      assert "right" in Parsed(telling, deltas) && "right" !in BlockAt(es, i, telling).value.arguments;
    }
  }

  function LateDelta(x: string, y: string): seq<ProxyEvent> {
    [ToolCallStart(0, "call", "tool"), ToolCallDelta(0, x), ToolCallEnd(0), ToolCallDelta(0, y)]
  }

  lemma LateDeltaAccepted(x: string, y: string)
    ensures Accepted(LateDelta(x, y)) && Since(LateDelta(x, y), 0) == LateDelta(x, y)[1..]
    ensures Opener(LateDelta(x, y), 0) == LateDelta(x, y)[0]
  {
    var es := LateDelta(x, y);
    assert At(es[0], Opening, 0);
    forall k | 1 <= k <= 4 ensures LastAt(es[..k], Opening, 0) == 0 {
      assert At(es[..k][0], Opening, 0) && forall j :: 1 <= j < k ==> !At(es[..k][j], Opening, 0);
    }
    assert es[..4] == es;
  }

  lemma SingleEvent(e: ProxyEvent, i: nat)
    ensures Deltas([e], i) == if At(e, Delta, i) then e.delta else ""
  {
    DeltasSnoc([], e, i);
    assert [] + [e] == [e];
    assert At(e, Delta, i) ==> "" + e.delta == e.delta;
  }

  lemma LateDeltaTexts(x: string, y: string)
    ensures var since := LateDelta(x, y)[1..];
      && LastAt(since, Delta, 0) == 2 && LastAt(since, CallEnding, 0) == 1
      && Deltas(since, 0) == x + y && JsonText(since, 0) == UNDEFINED + y
      && Deltas(since[..1], 0) == x
  {
    var b, c, d := ToolCallDelta(0, x), ToolCallEnd(0), ToolCallDelta(0, y);
    var since := LateDelta(x, y)[1..];
    assert since[0] == b && since[1] == c && since[2] == d && |since| == 3;
    hide Deltas, LastAt, LateDelta;
    assert since[..1] == [b] && since[1..] == [c] + [d] && since[2..] == [d];
    assert LastAt(since, Delta, 0) == 2;
    assert At(since[1], CallEnding, 0) && LastAt(since, CallEnding, 0) == 1;
    assert since == [b] + ([c] + [d]);
    DeltasAppend([b], [c] + [d], 0);
    DeltasAppend([c], [d], 0);
    SingleEvent(b, 0);
    SingleEvent(c, 0);
    SingleEvent(d, 0);
    assert "" + y == y;
  }

  /** Events the code accepts after which the arguments are the parse of "undefined" and the last delta
      instead of both deltas. */
  lemma LateDeltaIsMisread(x: string, y: string, parse: Parser)
    ensures Accepted(LateDelta(x, y))
    ensures Deltas(Since(LateDelta(x, y), 0), 0) == x + y
    ensures BlockAt(LateDelta(x, y), 0, parse).Some? && BlockAt(LateDelta(x, y), 0, parse).value.ToolCallContent?
    ensures BlockAt(LateDelta(x, y), 0, parse).value.arguments == Parsed(parse, UNDEFINED + y)
    ensures ReadCorrectly(LateDelta(x, y), 0) <==> x == UNDEFINED
  {
    var es, since := LateDelta(x, y), LateDelta(x, y)[1..];
    assert |since| == 3 && since[..3] == since && es[0].ToolCallStart?;
    LateDeltaAccepted(x, y);
    LateDeltaTexts(x, y);
    hide LastAt, Deltas, JsonText, Since, Accepted, LateDelta, Opener;
  }

  // ---- The client's message ----

  lemma AcceptedSnoc(es: seq<ProxyEvent>, e: ProxyEvent)
    ensures Accepted(es + [e]) <==> Accepted(es) && Admissible(es, e)
    ensures ReasonOf(es + [e]) == if e.Done? || e.Failure? then e.reason else ReasonOf(es)
    ensures ErrorOf(es + [e]) == if e.Failure? then e.errorMessage else ErrorOf(es)
  {
    Prefix(es, e);
    assert forall k :: 0 <= k < |es| ==> (es + [e])[..k] == es[..k];
    if Accepted(es + [e]) {
      assert (es + [e])[..|es|] == es;
      forall k | 0 <= k < |es| ensures Admissible(es[..k], es[k]) {
        assert Admissible((es + [e])[..k], (es + [e])[k]);
      }
    }
  }

  function Mismatch(e: ProxyEvent): string {
    match e
    case TextDelta(_, _) => "Received text_delta for non-text content"
    case TextEnd(_, _) => "Received text_end for non-text content"
    case ThinkingDelta(_, _) => "Received thinking_delta for non-thinking content"
    case ThinkingEnd(_, _) => "Received thinking_end for non-thinking content"
    case _ => "Received toolcall_delta for non-toolCall content"
  }

  /** What the stream announces when `e` arrives after the events `es`. */
  function Announced(es: seq<ProxyEvent>, e: ProxyEvent, parse: Parser): Option<Announcement> {
    match e
    case TextEnd(i, _) => Some(TextEnded(i, Deltas(Since(es, i), i)))
    case ThinkingEnd(i, _) => Some(ThinkingEnded(i, Deltas(Since(es, i), i)))
    case ToolCallEnd(i) =>
      if Opener(es, i).ToolCallStart? then Some(ToolCallEnded(i, BlockAt(es, i, parse).value.(partialJson := None)))
      else None
    case Done(reason) => Some(DoneWith(reason))
    case Failure(reason, _) => Some(FailedWith(reason))
    case Unhandled(_) => None
    case _ => Some(Plain(e))
  }

  /** Events that are not passed on: unknown ones, and the end of a tool call that never started. */
  predicate IsSilent(es: seq<ProxyEvent>, k: nat, parse: Parser)
    requires k < |es|
  {
    || es[k].Unhandled?
    || (es[k].ToolCallEnd? &&
        var block := BlockAt(es[..k], es[k].index, parse);
        block.None? || !block.value.ToolCallContent?)
  }

  /** What the announcement of event k says: starts and deltas are passed on, the end of a block comes with
      what the block holds, and the conclusion with its reason. */
  predicate Tells(es: seq<ProxyEvent>, k: nat, a: Announcement, parse: Parser)
    requires k < |es|
  {
    match es[k]
    case TextEnd(i, _) =>
      var block := BlockAt(es[..k], i, parse);
      block.Some? && block.value.TextContent? && a == TextEnded(i, block.value.text)
    case ThinkingEnd(i, _) =>
      var block := BlockAt(es[..k], i, parse);
      block.Some? && block.value.ThinkingContent? && a == ThinkingEnded(i, block.value.text)
    case ToolCallEnd(i) =>
      var block := BlockAt(es[..k], i, parse);
      && block.Some? && block.value.ToolCallContent?
      && a == ToolCallEnded(i, ToolCallContent(block.value.id, block.value.name, block.value.arguments, None))
    case Done(reason) => a == DoneWith(reason)
    case Failure(reason, _) => a == FailedWith(reason)
    case Unhandled(_) => false
    case _ => a == Plain(es[k])
  }

  lemma AnnouncedTells(es: seq<ProxyEvent>, e: ProxyEvent, parse: Parser)
    requires Admissible(es, e)
    ensures Announced(es, e, parse).None? <==> IsSilent(es + [e], |es|, parse)
    ensures Announced(es, e, parse).Some? ==> Tells(es + [e], |es|, Announced(es, e, parse).value, parse)
  {
    assert (es + [e])[..|es|] == es && (es + [e])[|es|] == e;
    hide Deltas, LastAt, Signature, ArgumentsOf, PartialJsonOf, Since, Opener, Extent;
    if e.TextEnd? || e.ThinkingEnd? || e.ToolCallEnd? { KindOfBlock(es, e.index, parse); }
  }

  /** An event fits if the block it needs is there: deltas need a block of their own kind, and so do the ends
      of texts and thoughts. */
  lemma FitsItsBlock(es: seq<ProxyEvent>, e: ProxyEvent, parse: Parser)
    ensures Admissible(es, e) <==>
      && (e.TextDelta? || e.TextEnd? ==>
            BlockAt(es, e.index, parse).Some? && BlockAt(es, e.index, parse).value.TextContent?)
      && (e.ThinkingDelta? || e.ThinkingEnd? ==>
            BlockAt(es, e.index, parse).Some? && BlockAt(es, e.index, parse).value.ThinkingContent?)
      && (e.ToolCallDelta? ==>
            BlockAt(es, e.index, parse).Some? && BlockAt(es, e.index, parse).value.ToolCallContent?)
  {
    if e.TextDelta? || e.TextEnd? || e.ThinkingDelta? || e.ThinkingEnd? || e.ToolCallDelta? {
      KindOfBlock(es, e.index, parse);
    }
    hide BlockAt, Opener;
  }

  class PartialMessage {
    const parse: Parser
    var content: seq<Option<Content>>
    var stopReason: StopReason
    var errorMessage: Option<string>

    /** The events processed so far; they determine the message. */
    ghost var seen: seq<ProxyEvent>

    ghost predicate Valid()
      reads this
    {
      && Accepted(seen)
      && content == Contents(seen, parse)
      && stopReason == ReasonOf(seen)
      && errorMessage == ErrorOf(seen)
    }

    constructor (parse: Parser)
      ensures Valid() && seen == [] && this.parse == parse
    {
      this.parse := parse;
      content, stopReason, errorMessage, seen := [], Stop, None, [];
    }

    /** The array element at `i`; holes and elements beyond the end are undefined. */
    function Get(i: nat): (c: Option<Content>)
      requires Valid()
      reads this
      ensures c == BlockAt(seen, i, parse)
      ensures c == if i < |content| then content[i] else None
    {
      KindOfBlock(seen, i, parse);
      if i < |content| then content[i] else None
    }

    method SetBlock(e: ProxyEvent, i: nat, block: Content)
      requires Valid() && !e.Done? && !e.Failure?
      requires Step(content, e, Put(content, i, block), parse)
      modifies this
      ensures Valid() && seen == old(seen) + [e] && Step(old(content), e, content, parse)
    {
      hide Contents, Accepted, ReasonOf, ErrorOf;
      StepGivesContents(seen, e, Put(content, i, block), parse);
      AcceptedSnoc(seen, e);
      content := Put(content, i, block);
      seen := seen + [e];
    }

    /** Records an event that leaves the content alone. */
    ghost method Note(e: ProxyEvent)
      requires Valid() && Step(content, e, content, parse)
      modifies this`seen
      ensures seen == old(seen) + [e] && Accepted(seen) && content == Contents(seen, parse)
    {
      StepGivesContents(seen, e, content, parse);
      AcceptedSnoc(seen, e);
      seen := seen + [e];
    }

    /** An event is processed exactly if it fits its block: one block changes, and the stream may announce it.
        Otherwise it is rejected and changes nothing. */
    twostate predicate Processed(e: ProxyEvent, new r: Attempt<Option<Announcement>>)
      reads this
    {
      && Valid()
      && (r.Returned? <==> Admissible(old(seen), e))
      && (r.Returned? ==> seen == old(seen) + [e] && r.value == Announced(old(seen), e, parse))
      && (r.Returned? ==> Step(old(content), e, content, parse))
      && (r.Threw? ==> seen == old(seen) && r.error == Mismatch(e))
    }

    /** The events of text blocks. */
    method ProcessText(e: ProxyEvent) returns (r: Attempt<Option<Announcement>>)
      requires Valid() && (e.TextStart? || e.TextDelta? || e.TextEnd?)
      modifies this
      ensures Processed(e, r)
    {
      hide LastAt, Deltas, Since, Signature, ArgumentsOf, PartialJsonOf, JsonText, Opener, Contents, Accepted, Extent,
           ReasonOf, ErrorOf;
      AcceptedSnoc(seen, e);
      match e
      case TextStart(i) =>
        SetBlock(e, i, TextContent("", None));
        return Returned(Some(Plain(e)));
      case TextDelta(i, delta) =>
        KindOfBlock(seen, i, parse);
        var c := Get(i);
        if c.None? || !c.value.TextContent? { return Threw("Received text_delta for non-text content"); }
        SetBlock(e, i, TextContent(c.value.text + delta, c.value.signature));
        return Returned(Some(Plain(e)));
      case TextEnd(i, signature) =>
        KindOfBlock(seen, i, parse);
        var c := Get(i);
        if c.None? || !c.value.TextContent? { return Threw("Received text_end for non-text content"); }
        SetBlock(e, i, TextContent(c.value.text, signature));
        return Returned(Some(TextEnded(i, c.value.text)));
    }

    /** The events of thinking blocks. */
    method ProcessThinking(e: ProxyEvent) returns (r: Attempt<Option<Announcement>>)
      requires Valid() && (e.ThinkingStart? || e.ThinkingDelta? || e.ThinkingEnd?)
      modifies this
      ensures Processed(e, r)
    {
      hide LastAt, Deltas, Since, Signature, ArgumentsOf, PartialJsonOf, JsonText, Opener, Contents, Accepted, Extent,
           ReasonOf, ErrorOf;
      AcceptedSnoc(seen, e);
      match e
      case ThinkingStart(i) =>
        SetBlock(e, i, ThinkingContent("", None));
        return Returned(Some(Plain(e)));
      case ThinkingDelta(i, delta) =>
        KindOfBlock(seen, i, parse);
        var c := Get(i);
        if c.None? || !c.value.ThinkingContent? { return Threw("Received thinking_delta for non-thinking content"); }
        SetBlock(e, i, ThinkingContent(c.value.text + delta, c.value.signature));
        return Returned(Some(Plain(e)));
      case ThinkingEnd(i, signature) =>
        KindOfBlock(seen, i, parse);
        var c := Get(i);
        if c.None? || !c.value.ThinkingContent? { return Threw("Received thinking_end for non-thinking content"); }
        SetBlock(e, i, ThinkingContent(c.value.text, signature));
        return Returned(Some(ThinkingEnded(i, c.value.text)));
    }

    /** The events of tool calls. */
    method ProcessToolCall(e: ProxyEvent) returns (r: Attempt<Option<Announcement>>)
      requires Valid() && (e.ToolCallStart? || e.ToolCallDelta? || e.ToolCallEnd?)
      modifies this
      ensures Processed(e, r)
    {
      hide LastAt, Deltas, Since, Signature, ArgumentsOf, PartialJsonOf, JsonText, Opener, Contents, Accepted, Extent,
           ReasonOf, ErrorOf;
      AcceptedSnoc(seen, e);
      match e
      case ToolCallStart(i, id, name) =>
        SetBlock(e, i, ToolCallContent(id, name, map[], Some("")));
        return Returned(Some(Plain(e)));
      case ToolCallDelta(i, delta) =>
        KindOfBlock(seen, i, parse);
        var c := Get(i);
        if c.None? || !c.value.ToolCallContent? { return Threw("Received toolcall_delta for non-toolCall content"); }
        var json := (if c.value.partialJson.Some? then c.value.partialJson.value else UNDEFINED) + delta;
        SetBlock(e, i, c.value.(partialJson := Some(json), arguments := Parsed(parse, json)));
        return Returned(Some(Plain(e)));
      case ToolCallEnd(i) =>
        KindOfBlock(seen, i, parse);
        var c := Get(i);
        if c.None? || !c.value.ToolCallContent? {
          Note(e);
          return Returned(None);
        }
        var call := c.value.(partialJson := None);
        SetBlock(e, i, call);
        return Returned(Some(ToolCallEnded(i, call)));
    }

    /** Returns an announcement, or throws exactly if the event does not fit its block. */
    method Process(e: ProxyEvent) returns (r: Attempt<Option<Announcement>>)
      requires Valid()
      modifies this
      ensures Processed(e, r)
      ensures r.Returned? ==> (r.value.None? <==> IsSilent(seen, |old(seen)|, parse))
      ensures r.Returned? && r.value.Some? ==> Tells(seen, |old(seen)|, r.value.value, parse)
    {
      hide LastAt, Deltas, Since, Opener, Contents, Accepted, Extent, ReasonOf, ErrorOf, IsSilent, Tells;
      AcceptedSnoc(seen, e);
      if Admissible(seen, e) { AnnouncedTells(seen, e, parse); }
      match e
      case TextStart(_) => r := ProcessText(e);
      case TextDelta(_, _) => r := ProcessText(e);
      case TextEnd(_, _) => r := ProcessText(e);
      case ThinkingStart(_) => r := ProcessThinking(e);
      case ThinkingDelta(_, _) => r := ProcessThinking(e);
      case ThinkingEnd(_, _) => r := ProcessThinking(e);
      case ToolCallStart(_, _, _) => r := ProcessToolCall(e);
      case ToolCallDelta(_, _) => r := ProcessToolCall(e);
      case ToolCallEnd(_) => r := ProcessToolCall(e);
      case Done(reason) =>
        Note(e);
        stopReason := reason;
        return Returned(Some(DoneWith(reason)));
      case Failure(reason, error) =>
        Note(e);
        stopReason, errorMessage := reason, error;
        return Returned(Some(FailedWith(reason)));
      case Unhandled(_) =>
        Note(e);
        return Returned(None);
      case Start =>
        Note(e);
        return Returned(Some(Plain(e)));
    }
  }
}
