/** The proxy client's read loop: decoded text arrives in chunks, complete lines are dispatched, an
    unfinished line is carried over in a buffer. What is dispatched depends on the whole text alone. */
module ProxyStream {
  import opened Messages
  import opened ProxyMessage
  import opened ProxyAnnouncements
  import opened Strings

  /** `JSON.parse` of one payload. */
  type Decoder = string -> Attempt<ProxyEvent>

  const PREFIX := "data: "
  const ABORTED := "Request aborted by user"

  /** The lines a text has finished: all pieces but the last. */
  function CompleteLines(text: string): seq<string> {
    Init(Split(text, '\n'))
  }

  /** The part of a text that is carried over. */
  function Remainder(text: string): string {
    Last(Split(text, '\n'))
  }

  /** The payload of a line, if it carries one. */
  function Payload(line: string): (p: Option<string>)
    ensures p.Some? ==> p.value != "" && IsTrimmed(p.value) && PREFIX <= line
  {
    if PREFIX <= line && Trim(line[|PREFIX|..]) != "" then Some(Trim(line[|PREFIX|..])) else None
  }

  /** Only lines of this form carry a payload: the field name, a blank, and more than white space. */
  lemma DataLinesCarry(line: string)
    ensures Payload(line).Some? <==> "data: " <= line && Trim(line[6..]) != ""
    ensures Payload(line).Some? ==> Payload(line).value == Trim(line[6..])
  {
    hide Trim;
  }

  function Carried(line: string): seq<string> {
    match Payload(line)
    case Some(p) => [p]
    case None => []
  }

  function Payloads(lines: seq<string>): seq<string> {
    if lines == [] then [] else Payloads(Init(lines)) + Carried(Last(lines))
  }

  predicate IsTerminal(a: Announcement) {
    a.DoneWith? || a.FailedWith?
  }

  /** The last announcement is terminal. */
  predicate Terminated(pushed: seq<Announcement>) {
    pushed != [] && IsTerminal(Last(pushed))
  }

  /** At most one announcement is terminal, and only the last can be. */
  predicate OnlyTheLast(pushed: seq<Announcement>) {
    forall k :: 0 <= k < |pushed| - 1 ==> !IsTerminal(pushed[k])
  }

  /** `EventStream.push`: nothing gets in after a terminal event. */
  function Push(pushed: seq<Announcement>, a: Announcement): seq<Announcement> {
    if Terminated(pushed) then pushed else pushed + [a]
  }

  /** How far dispatching got: the accepted events, the announcements and the error that stopped it. */
  datatype Progress = Progress(seen: seq<ProxyEvent>, pushed: seq<Announcement>, error: Option<string>)

  const NOTHING := Progress([], [], None)

  function Dispatch(p: Progress, payload: string, decode: Decoder, parse: Parser): Progress {
    if p.error.Some? then p
    else
      match decode(payload)
      case Threw(error) => p.(error := Some(error))
      case Returned(e) =>
        if !Admissible(p.seen, e) then p.(error := Some(Mismatch(e)))
        else
          match Announced(p.seen, e, parse)
          case None => p.(seen := p.seen + [e])
          case Some(a) => p.(seen := p.seen + [e], pushed := Push(p.pushed, a))
  }

  function DispatchAll(p: Progress, payloads: seq<string>, decode: Decoder, parse: Parser): Progress {
    if payloads == [] then p else Dispatch(DispatchAll(p, Init(payloads), decode, parse), Last(payloads), decode, parse)
  }

  // ---- Lines and payloads ----

  lemma PayloadsSnoc(lines: seq<string>, line: string)
    ensures Payloads(lines + [line]) == Payloads(lines) + Carried(line)
  {
    assert Init(lines + [line]) == lines;
  }

  lemma {:induction false} PayloadsAppend(a: seq<string>, b: seq<string>)
    ensures Payloads(a + b) == Payloads(a) + Payloads(b)
  {
    if b == [] {
      assert a + b == a;
    } else {
      hide Payloads, Carried;
      var front, last := b[..|b| - 1], b[|b| - 1];
      assert b == front + [last];
      Assoc(a, front, [last]);
      PayloadsAppend(a, front);
      PayloadsSnoc(front, last);
      PayloadsSnoc(a + front, last);
      Assoc(Payloads(a), Payloads(front), Carried(last));
    }
  }

  lemma {:induction false} DispatchAppend(p: Progress, a: seq<string>, b: seq<string>, decode: Decoder, parse: Parser)
    ensures DispatchAll(p, a + b, decode, parse) == DispatchAll(DispatchAll(p, a, decode, parse), b, decode, parse)
  {
    if b == [] {
      assert a + b == a;
    } else {
      assert Init(a + b) == a + Init(b) && Last(a + b) == Last(b);
      DispatchAppend(p, a, Init(b), decode, parse);
    }
  }

  /** An error ends the dispatch. */
  lemma {:induction false} ErrorsStick(p: Progress, payloads: seq<string>, decode: Decoder, parse: Parser)
    requires p.error.Some?
    ensures DispatchAll(p, payloads, decode, parse) == p
  {
    if payloads != [] { ErrorsStick(p, Init(payloads), decode, parse); }
  }

  /** The loop's step: splitting the buffer and the next chunk yields exactly the newly finished lines and
      the new remainder. */
  lemma ChunkStep(text: string, chunk: string)
    ensures CompleteLines(text + chunk) == CompleteLines(text) + CompleteLines(Remainder(text) + chunk)
    ensures Remainder(text + chunk) == Remainder(Remainder(text) + chunk)
  {
    SplitAppend(text, chunk, '\n');
    var pieces := Split(Remainder(text) + chunk, '\n');
    assert Init(CompleteLines(text) + pieces) == CompleteLines(text) + Init(pieces);
  }

  /** A final line without a line feed is never dispatched. */
  lemma UnfinishedLineIsDropped(text: string, tail: string)
    requires '\n' !in tail
    ensures CompleteLines(text + tail) == CompleteLines(text)
  {
    ChunkStep(text, tail);
    PiecesAreFree(text, '\n', |Split(text, '\n')| - 1);
    SplitWhole(Remainder(text) + tail, '\n');
  }

  /** Nothing of the text is lost: lines and remainder give it back. */
  lemma NothingIsLost(text: string)
    ensures Join(CompleteLines(text) + [Remainder(text)], "\n") == text
  {
    hide Join, Split;
    JoinSplit(text, '\n');
    assert CompleteLines(text) + [Remainder(text)] == Split(text, '\n');
  }

  /** What can be framed: a payload without line breaks that trimming leaves alone. */
  predicate Framable(payload: string) {
    payload != "" && IsTrimmed(payload) && '\n' !in payload
  }

  /** A server-sent event with one payload. */
  function Frame(payload: string): string {
    PREFIX + payload + "\n\n"
  }

  function Frames(payloads: seq<string>): string {
    if payloads == [] then "" else Frames(Init(payloads)) + Frame(Last(payloads))
  }

  lemma FrameLines(payload: string)
    requires Framable(payload)
    ensures Split(Frame(payload), '\n') == [PREFIX + payload, "", ""]
    ensures Payload(PREFIX + payload) == Some(payload)
  {
    SplitHead(PREFIX + payload, "\n", '\n');
    SplitHead("", "", '\n');
    assert Frame(payload) == (PREFIX + payload) + ['\n'] + "\n";
    assert "\n" == "" + ['\n'] + "";
    assert (PREFIX + payload)[|PREFIX|..] == payload;
  }

  lemma DataLine(payload: string)
    requires Payload(PREFIX + payload) == Some(payload)
    ensures Payloads([PREFIX + payload, ""]) == [payload]
  {
    var line := PREFIX + payload;
    assert Init([line, ""]) == [line] && Init([line]) == [];
    assert Payload("") == None;
    assert Payloads([line]) == [payload];
  }

  /** Framing round trip: the payloads of the frames are the payloads framed. */
  lemma {:induction false} FramesDeliverPayloads(payloads: seq<string>)
    requires forall k :: 0 <= k < |payloads| ==> Framable(payloads[k])
    ensures Payloads(CompleteLines(Frames(payloads))) == payloads
    ensures Remainder(Frames(payloads)) == ""
  {
    if payloads == [] {
      NoFrames();
    } else {
      var front, last := Init(payloads), Last(payloads);
      assert Frames(payloads) == Frames(front) + Frame(last);
      assert payloads == front + [last];
      hide *;
      FramesDeliverPayloads(front);
      OneMoreFrame(Frames(front), last);
    }
  }

  lemma NoFrames()
    ensures Payloads(CompleteLines("")) == [] && Remainder("") == ""
  {}

  lemma OneMoreFrame(text: string, payload: string)
    requires Framable(payload) && Remainder(text) == ""
    ensures Payloads(CompleteLines(text + Frame(payload))) == Payloads(CompleteLines(text)) + [payload]
    ensures Remainder(text + Frame(payload)) == ""
  {
    FrameLines(payload);
    ChunkStep(text, Frame(payload));
    DataLine(payload);
    assert CompleteLines(Frame(payload)) == [PREFIX + payload, ""];
    hide *;
    assert "" + Frame(payload) == Frame(payload);
    PayloadsAppend(CompleteLines(text), [PREFIX + payload, ""]);
  }

  // ---- What dispatching achieves ----

  /** The accepted events are those of the payloads, up to the first payload that does not decode or does
      not fit; there the dispatch stopped with the matching error. */
  predicate Reached(p: Progress, payloads: seq<string>, decode: Decoder) {
    && |p.seen| <= |payloads| && Accepted(p.seen)
    && (forall k :: 0 <= k < |p.seen| ==> decode(payloads[k]) == Returned(p.seen[k]))
    && (p.error.None? <==> |p.seen| == |payloads|)
    && (p.error.Some? ==>
          match decode(payloads[|p.seen|])
          case Threw(error) => p.error == Some(error)
          case Returned(e) => !Admissible(p.seen, e) && p.error == Some(Mismatch(e)))
  }

  lemma ReachedSnoc(p: Progress, payloads: seq<string>, payload: string, decode: Decoder, parse: Parser)
    requires Reached(p, payloads, decode)
    ensures Reached(Dispatch(p, payload, decode, parse), payloads + [payload], decode)
  {
    hide Accepted, Admissible, Announced, Push, Mismatch;
    var all := payloads + [payload];
    assert forall k :: 0 <= k < |payloads| ==> all[k] == payloads[k];
    if p.error.None? && decode(payload).Returned? {
      AcceptedSnoc(p.seen, decode(payload).value);
    }
  }

  /** Dispatching gets as far as the payloads allow. */
  lemma {:induction false} DispatchStopsAtFirstError(payloads: seq<string>, decode: Decoder, parse: Parser)
    ensures Reached(DispatchAll(NOTHING, payloads, decode, parse), payloads, decode)
  {
    if payloads != [] {
      DispatchStopsAtFirstError(Init(payloads), decode, parse);
      assert payloads == Init(payloads) + [Last(payloads)];
      hide Reached, Dispatch;
      ReachedSnoc(DispatchAll(NOTHING, Init(payloads), decode, parse), Init(payloads), Last(payloads), decode, parse);
    }
  }

  lemma PushKeepsTheLast(pushed: seq<Announcement>, a: Announcement)
    requires OnlyTheLast(pushed)
    ensures OnlyTheLast(Push(pushed, a))
    ensures Terminated(Push(pushed, a)) <==> Terminated(pushed) || IsTerminal(a)
  {
  }

  /** The stream announces at most one terminal event, as its last, and it does so exactly if an accepted
      event concluded the response. */
  lemma {:induction false} TerminatedIffConcluded(payloads: seq<string>, decode: Decoder, parse: Parser)
    ensures var p := DispatchAll(NOTHING, payloads, decode, parse);
      OnlyTheLast(p.pushed) && (Terminated(p.pushed) <==> Concluded(p.seen))
  {
    if payloads != [] {
      TerminatedIffConcluded(Init(payloads), decode, parse);
      hide OnlyTheLast, Terminated, Concluded, Push, Admissible;
      var p := DispatchAll(NOTHING, Init(payloads), decode, parse);
      if p.error.None? && decode(Last(payloads)).Returned? {
        var e := decode(Last(payloads)).value;
        ConcludedSnoc(p.seen, e);
        if Announced(p.seen, e, parse).Some? {
          PushKeepsTheLast(p.pushed, Announced(p.seen, e, parse).value);
        }
      }
    }
  }

  /** The stream announces the accepted events, each as it should, in order, up to the first conclusion. */
  lemma {:induction false} DispatchIsHeard(payloads: seq<string>, decode: Decoder, parse: Parser)
    ensures var p := DispatchAll(NOTHING, payloads, decode, parse); Heard(p.seen, p.pushed, parse)
  {
    if payloads == [] {
      NothingHeard(parse);
    } else {
      DispatchIsHeard(Init(payloads), decode, parse);
      TerminatedIffConcluded(Init(payloads), decode, parse);
      hide OnlyTheLast, Terminated, Concluded, Heard, Admissible, Announced;
      var p := DispatchAll(NOTHING, Init(payloads), decode, parse);
      if p.error.None? && decode(Last(payloads)).Returned? && Admissible(p.seen, decode(Last(payloads)).value) {
        HeardSnoc(p.seen, decode(Last(payloads)).value, p.pushed, parse);
      }
    }
  }

  /** How the result follows from what was heard and how the reading ended. */
  lemma ResultSettles(es: seq<ProxyEvent>, told: seq<Announcement>, parse: Parser, error: Option<string>,
      aborted: bool, pushed: seq<Announcement>, result: Option<Announcement>)
    requires Heard(es, told, parse) && (Terminated(told) <==> Concluded(es))
    requires pushed == if error.Some? then Push(told, FailedWith(if aborted then Aborted else Error)) else told
    requires result == if Terminated(pushed) then Some(Last(pushed)) else None
    ensures Settles(es, error, aborted, result)
    ensures pushed ==
      told + (if error.Some? && !Concluded(es) then [FailedWith(if aborted then Aborted else Error)] else [])
  {
    assert told + [] == told;
    hide Heard;
    forall k | FirstConclusion(es, k)
      ensures result == Some(if es[k].Done? then DoneWith(es[k].reason) else FailedWith(es[k].reason))
    {
      ConclusionIsToldLast(es, k, told, parse);
    }
  }

  /** Wire round trip: framing the encoded events and dispatching whatever chunks they arrive in yields the
      events, and so the sender's message. */
  lemma WireRoundTrip(es: seq<ProxyEvent>, views: seq<seq<Option<Content>>>, payloads: seq<string>,
                      decode: Decoder, parse: Parser)
    requires |payloads| == |es|
    requires forall k :: 0 <= k < |es| ==>
      Framable(payloads[k]) && decode(payloads[k]) == Returned(es[k])
    requires |views| == |es| + 1 && views[0] == []
    requires forall k :: 0 <= k < |es| ==> Step(views[k], es[k], views[k + 1], parse)
    ensures var p := DispatchAll(NOTHING, Payloads(CompleteLines(Frames(payloads))), decode, parse);
      p.error == None && p.seen == es && Contents(p.seen, parse) == views[|es|]
  {
    hide Step, Contents, Admissible, CompleteLines, Payloads, Frames, DispatchAll, Framable;
    FramesDeliverPayloads(payloads);
    StrippedEventsRebuild(es, views, parse, |es|);
    assert es[..|es|] == es;
    FittingEventsAreAllAccepted(es, payloads, decode, parse);
  }

  lemma OneMoreFits(p: Progress, payload: string, e: ProxyEvent, decode: Decoder, parse: Parser)
    requires p.error == None && decode(payload) == Returned(e) && Admissible(p.seen, e)
    ensures var q := Dispatch(p, payload, decode, parse); q.error == None && q.seen == p.seen + [e]
  {
    hide Admissible, Announced, Push;
  }

  lemma {:induction false} FittingEventsAreAllAccepted(es: seq<ProxyEvent>, payloads: seq<string>, decode: Decoder,
      parse: Parser)
    requires |payloads| == |es| && Accepted(es)
    requires forall k :: 0 <= k < |es| ==> decode(payloads[k]) == Returned(es[k])
    ensures var p := DispatchAll(NOTHING, payloads, decode, parse); p.error == None && p.seen == es
  {
    if es != [] {
      assert Init(es) + [Last(es)] == es;
      hide Accepted, Admissible, Dispatch;
      AcceptedSnoc(Init(es), Last(es));
      FittingEventsAreAllAccepted(Init(es), Init(payloads), decode, parse);
      OneMoreFits(DispatchAll(NOTHING, Init(payloads), decode, parse), Last(payloads), Last(es), decode, parse);
    }
  }

  // ---- The client ----

  function Concat(chunks: seq<string>): string {
    if chunks == [] then "" else Concat(Init(chunks)) + Last(chunks)
  }

  /** How dispatching the complete lines of a text ends. */
  function ProgressOn(text: string, decode: Decoder, parse: Parser): Progress {
    DispatchAll(NOTHING, Payloads(CompleteLines(text)), decode, parse)
  }

  lemma ProgressGrows(text: string, more: string, decode: Decoder, parse: Parser)
    ensures ProgressOn(text + more, decode, parse) ==
      DispatchAll(ProgressOn(text, decode, parse), Payloads(CompleteLines(Remainder(text) + more)), decode, parse)
    ensures ProgressOn(text, decode, parse).error.Some? ==>
      ProgressOn(text + more, decode, parse) == ProgressOn(text, decode, parse)
  {
    hide CompleteLines, Remainder, DispatchAll;
    ChunkStep(text, more);
    var lines, more' := CompleteLines(text), CompleteLines(Remainder(text) + more);
    PayloadsAppend(lines, more');
    DispatchAppend(NOTHING, Payloads(lines), Payloads(more'), decode, parse);
    if ProgressOn(text, decode, parse).error.Some? {
      ErrorsStick(ProgressOn(text, decode, parse), Payloads(more'), decode, parse);
    }
  }

  lemma EmptyText(decode: Decoder, parse: Parser)
    ensures ProgressOn("", decode, parse) == NOTHING && Remainder("") == ""
  {}

  lemma {:induction false} ConcatSplits(chunks: seq<string>, n: nat)
    requires n <= |chunks|
    ensures Concat(chunks) == Concat(chunks[..n]) + Concat(chunks[n..])
  {
    if n == |chunks| {
      assert chunks[..n] == chunks;
    } else {
      ConcatSplits(Init(chunks), n);
      assert Init(chunks)[..n] == chunks[..n] && Init(chunks[n..]) == Init(chunks)[n..];
    }
  }

  lemma LineStep(p: Progress, lines: seq<string>, n: nat, decode: Decoder, parse: Parser)
    requires n < |lines|
    ensures var r := DispatchAll(p, Payloads(lines[..n + 1]), decode, parse);
      && r == DispatchAll(DispatchAll(p, Payloads(lines[..n]), decode, parse), Payloads([lines[n]]), decode, parse)
      && (r.error.Some? ==> DispatchAll(p, Payloads(lines), decode, parse) == r)
  {
    hide Payloads, DispatchAll;
    assert lines[..n + 1] == lines[..n] + [lines[n]];
    PayloadsAppend(lines[..n], [lines[n]]);
    DispatchAppend(p, Payloads(lines[..n]), Payloads([lines[n]]), decode, parse);
    var r := DispatchAll(p, Payloads(lines[..n + 1]), decode, parse);
    assert lines == lines[..n + 1] + lines[n + 1..];
    PayloadsAppend(lines[..n + 1], lines[n + 1..]);
    DispatchAppend(p, Payloads(lines[..n + 1]), Payloads(lines[n + 1..]), decode, parse);
    if r.error.Some? { ErrorsStick(r, Payloads(lines[n + 1..]), decode, parse); }
  }

  lemma OneLine(p: Progress, line: string, decode: Decoder, parse: Parser)
    ensures DispatchAll(p, Payloads([line]), decode, parse) ==
      match Payload(line)
      case None => p
      case Some(payload) => Dispatch(p, payload, decode, parse)
  {
    hide Dispatch, Payload;
    assert Init([line]) == [];
    if Payload(line).Some? { assert Init([Payload(line).value]) == []; }
  }

  class ProxyClient {
    const decode: Decoder
    const partial: PartialMessage
    var pushed: seq<Announcement>
    var done: bool
    /** What `result()` resolves to; None while it is pending. */
    var result: Option<Announcement>

    ghost predicate Valid()
      reads this, partial
    {
      partial.Valid() && Consistent() && done == Terminated(pushed)
    }

    /** The result is the terminal announcement, if there is one. */
    ghost predicate Consistent()
      reads this
    {
      result == if Terminated(pushed) then Some(Last(pushed)) else None
    }

    ghost function Now(error: Option<string>): Progress
      reads this, partial
    {
      Progress(partial.seen, pushed, error)
    }

    constructor (decode: Decoder, parse: Parser)
      ensures Valid() && fresh(partial) && Now(None) == NOTHING
      ensures this.decode == decode && partial.parse == parse
    {
      this.decode, pushed, done, result := decode, [], false, None;
      partial := new PartialMessage(parse);
    }

    /** `EventStream.push`. */
    method Announce(a: Announcement)
      requires Consistent() && done == Terminated(pushed)
      modifies this
      ensures Consistent() && done == Terminated(pushed)
      ensures pushed == Push(old(pushed), a)
    {
      if done { return; }
      if IsTerminal(a) {
        done := true;
        result := Some(a);
      }
      pushed := pushed + [a];
    }

    /** `EventStream.end` without a result: it resolves nothing. */
    method End()
      modifies this`done
      ensures done
    {
      done := true;
    }

    /** One payload: parse it, process it, announce the result; throws if either throws. */
    method HandlePayload(payload: string) returns (error: Option<string>)
      requires Valid()
      modifies this, partial
      ensures Valid()
      ensures Now(error) == Dispatch(old(Now(None)), payload, decode, partial.parse)
    {
      match decode(payload)
      case Threw(e) =>
        return Some(e);
      case Returned(e) =>
        var r := partial.Process(e);
        match r
        case Threw(e) => return Some(e);
        case Returned(None) => return None;
        case Returned(Some(a)) =>
          Announce(a);
          return None;
    }

    method HandleLine(line: string) returns (error: Option<string>)
      requires Valid()
      modifies this, partial
      ensures Valid()
      ensures Now(error) == DispatchAll(old(Now(None)), Payloads([line]), decode, partial.parse)
    {
      hide DispatchAll, Dispatch, Payloads, PartialMessage.Valid, Consistent, Terminated, Trim;
      ghost var before := Now(None);
      OneLine(before, line, decode, partial.parse);
      error := None;
      if PREFIX <= line {
        var data := Trim(line[|PREFIX|..]);
        if data != "" { error := HandlePayload(data); }
      }
    }

    /** The inner loop, over the lines a chunk has finished. */
    method HandleLines(lines: seq<string>) returns (error: Option<string>)
      requires Valid()
      modifies this, partial
      ensures Valid()
      ensures Now(error) == DispatchAll(old(Now(None)), Payloads(lines), decode, partial.parse)
    {
      error := None;
      assert lines[..0] == [] && lines[..|lines|] == lines;
      ghost var before := Now(None);
      for n := 0 to |lines|
        invariant Valid()
        invariant error == None
        invariant Now(None) == DispatchAll(before, Payloads(lines[..n]), decode, partial.parse)
      {
        hide *;
        LineStep(before, lines, n, decode, partial.parse);
        error := HandleLine(lines[n]);
        if error.Some? { return; }
      }
    }

    /** One pass of the outer loop: `text` is what arrived before. */
    method HandleChunk(buffer: string, chunk: string, ghost text: string)
      returns (buffer': string, error: Option<string>)
      requires Valid() && buffer == Remainder(text) && Now(None) == ProgressOn(text, decode, partial.parse)
      modifies this, partial
      ensures Valid() && buffer' == Remainder(text + chunk)
      ensures Now(error) == ProgressOn(text + chunk, decode, partial.parse)
    {
      hide DispatchAll, Payloads, Split;
      ChunkStep(text, chunk);
      ProgressGrows(text, chunk, decode, partial.parse);
      var lines := Split(buffer + chunk, '\n');
      buffer' := Last(lines);
      error := HandleLines(Init(lines));
    }

    /** The outer loop. `abortAt` reads are made before the signal is seen aborted; `ending` is the error of
        the last read, None if the reader is done. Returns the error that ended the loop, if any, and
        whether the signal was aborted by then. */
    method ReadAll(chunks: seq<string>, ending: Option<string>, abortAt: nat)
      returns (error: Option<string>, aborted: bool)
      requires Valid() && Now(None) == NOTHING
      modifies this, partial
      ensures Valid()
      ensures var text := Concat(if abortAt < |chunks| then chunks[..abortAt] else chunks);
        var p := ProgressOn(text, decode, partial.parse);
        && Now(None) == p.(error := None)
        && aborted == (abortAt <= |chunks| && p.error.None?)
        && error == if p.error.Some? then p.error
                    else if aborted && (abortAt < |chunks| || ending.None?) then Some(ABORTED)
                    else ending
    {
      hide CompleteLines, Remainder, DispatchAll, Payloads, PartialMessage.Valid;
      var buffer := "";
      ghost var all := if abortAt < |chunks| then chunks[..abortAt] else chunks;
      EmptyText(decode, partial.parse);
      assert chunks[..0] == [];
      for n := 0 to |chunks|
        invariant Valid() && n <= abortAt
        invariant buffer == Remainder(Concat(chunks[..n]))
        invariant Now(None) == ProgressOn(Concat(chunks[..n]), decode, partial.parse)
      {
        if abortAt <= n {
          assert chunks[..n] == all;
          return Some(ABORTED), true;
        }
        assert Init(chunks[..n + 1]) == chunks[..n] && Last(chunks[..n + 1]) == chunks[n];
        aborted := false;
        buffer, error := HandleChunk(buffer, chunks[n], Concat(chunks[..n]));
        if error.Some? {
          ConcatSplits(all, n + 1);
          assert all[..n + 1] == chunks[..n + 1];
          ProgressGrows(Concat(chunks[..n + 1]), Concat(all[n + 1..]), decode, partial.parse);
          return;
        }
      }
      assert chunks[..|chunks|] == chunks == all;
      aborted := abortAt <= |chunks|;
      error := if ending.None? && aborted then Some(ABORTED) else ending;
    }

    /** The `catch` branch: the message tells the error, and the stream announces it. */
    method Catch(error: string, reason: StopReason)
      requires Consistent() && done == Terminated(pushed) && OnlyTheLast(pushed)
      modifies this, partial`stopReason, partial`errorMessage
      ensures partial.stopReason == reason && partial.errorMessage == Some(error)
      ensures pushed == Push(old(pushed), FailedWith(reason))
      ensures Consistent() && done == Terminated(pushed) && OnlyTheLast(pushed)
    {
      hide OnlyTheLast, Terminated, Push;
      partial.stopReason, partial.errorMessage := reason, Some(error);
      PushKeepsTheLast(pushed, FailedWith(reason));
      Announce(FailedWith(reason));
    }

    /** `streamProxy` from the first read on, with its `catch` branch. What it leaves is a function of the text
        that arrived, however it was cut into chunks. The accepted events are announced in order up to the first
        conclusion, which settles the response; without one an error that ended the loop does, and a text that
        just ends early leaves `result()` pending forever. */
    method StreamProxy(chunks: seq<string>, ending: Option<string>, abortAt: nat)
      requires Valid() && Now(None) == NOTHING
      modifies this, partial
      ensures var text := Concat(if abortAt < |chunks| then chunks[..abortAt] else chunks);
        var p := ProgressOn(text, decode, partial.parse);
        var aborted := abortAt <= |chunks| && p.error.None?;
        var error := if p.error.Some? then p.error
                     else if aborted && (abortAt < |chunks| || ending.None?) then Some(ABORTED)
                     else ending;
        var reason := if aborted then Aborted else Error;
        && partial.content == Contents(p.seen, partial.parse)
        && partial.stopReason == (if error.Some? then reason else ReasonOf(p.seen))
        && partial.errorMessage == (if error.Some? then error else ErrorOf(p.seen))
        && Settles(p.seen, error, aborted, result)
        && Heard(p.seen, p.pushed, partial.parse)
        && pushed == p.pushed + (if error.Some? && !Concluded(p.seen) then [FailedWith(reason)] else [])
      ensures done && Consistent() && OnlyTheLast(pushed)
    {
      ghost var text := Concat(if abortAt < |chunks| then chunks[..abortAt] else chunks);
      TerminatedIffConcluded(Payloads(CompleteLines(text)), decode, partial.parse);
      DispatchIsHeard(Payloads(CompleteLines(text)), decode, partial.parse);
      ghost var p := ProgressOn(text, decode, partial.parse);
      hide OnlyTheLast, Terminated, Concluded, Push, DispatchAll, Heard, Settles, CompleteLines, Payloads, Contents;
      var error, aborted := ReadAll(chunks, ending, abortAt);
      if error.Some? {
        Catch(error.value, if aborted then Aborted else Error);
      }
      ResultSettles(p.seen, p.pushed, partial.parse, error, aborted, pushed, result);
      End();
    }
  }
}
