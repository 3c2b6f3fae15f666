/** The queues behind `steer()` and `followUp()`. */
module MessageQueue {
  import opened Messages

  datatype QueueMode = All | OneAtATime

  /** What a drain takes from a queue. */
  function Taken(mode: QueueMode, queued: seq<Message>): seq<Message> {
    if mode == All || queued == [] then queued else queued[..1]
  }

  /** What a queue holds, and how it will be drained. */
  datatype Waiting = Waiting(messages: seq<Message>, mode: QueueMode)

  function TakenFrom(w: Waiting): seq<Message> {
    Taken(w.mode, w.messages)
  }

  /** A FIFO queue with a ledger. Every message that was enqueued and not withdrawn by `Clear` is,
      in order of arrival, delivered (in a transcript), in flight (drained, not yet delivered) or
      still queued. */
  class PendingMessageQueue {
    var messages: seq<Message>
    var mode: QueueMode
    ghost var accepted: seq<Message>
    ghost var delivered: seq<Message>
    ghost var inFlight: seq<Message>

    ghost predicate Valid()
      reads this
    {
      accepted == delivered + inFlight + messages
    }

    ghost function Now(): Waiting
      reads this
    {
      Waiting(messages, mode)
    }

    /** The part of the ledger that only the agent's own code moves. */
    twostate predicate LedgerKept()
      reads this
    {
      delivered == old(delivered) && inFlight == old(inFlight)
    }

    constructor (mode: QueueMode)
      ensures Valid() && this.mode == mode && messages == [] && accepted == []
    {
      this.mode := mode;
      messages, accepted, delivered, inFlight := [], [], [], [];
    }

    method Enqueue(m: Message)
      requires Valid()
      modifies this
      ensures Valid() && LedgerKept() && mode == old(mode)
      ensures messages == old(messages) + [m] && accepted == old(accepted) + [m]
    {
      messages := messages + [m];
      accepted := accepted + [m];
    }

    method HasItems() returns (b: bool)
      ensures b <==> messages != []
    {
      b := |messages| > 0;
    }

    method Drain() returns (drained: seq<Message>)
      requires Valid()
      modifies this
      ensures Valid() && mode == old(mode) && accepted == old(accepted) && delivered == old(delivered)
      ensures drained + messages == old(messages)
      ensures drained == [] <==> old(messages) == []
      ensures mode == All ==> messages == []
      ensures mode == OneAtATime ==> |drained| <= 1
      ensures drained == Taken(mode, old(messages))
      ensures inFlight == old(inFlight) + drained
    {
      if mode == All {
        drained := messages;
        messages := [];
        inFlight := inFlight + drained;
        return;
      }
      if |messages| == 0 {
        return [];
      }
      drained := [messages[0]];
      assert drained + messages[1..] == messages;
      messages := messages[1..];
      inFlight := inFlight + drained;
    }

    method Clear()
      requires Valid()
      modifies this
      ensures Valid() && LedgerKept() && mode == old(mode)
      ensures messages == [] && accepted == old(delivered) + old(inFlight)
    {
      messages := [];
      accepted := delivered + inFlight;
    }

    /** Records that the oldest message in flight has reached the transcript. */
    ghost method Deliver()
      requires Valid() && inFlight != []
      modifies this`delivered, this`inFlight
      ensures Valid()
      ensures delivered == old(delivered) + [old(inFlight)[0]] && inFlight == old(inFlight)[1..]
    {
      assert inFlight == [inFlight[0]] + inFlight[1..];
      delivered := delivered + [inFlight[0]];
      inFlight := inFlight[1..];
    }
  }
}
