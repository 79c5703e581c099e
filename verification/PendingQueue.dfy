/** The steering and follow-up queues of packages/agent/src/agent.ts. */
module PendingQueue {
  import opened Messages

  datatype QueueMode = All | OneAtATime

  /** What one drain gives: everything that waits, or the oldest message only. */
  function Drained(mode: QueueMode, waiting: seq<Message>): seq<Message> {
    if mode == All || waiting == [] then waiting else [waiting[0]]
  }

  lemma DrainedIs(mode: QueueMode, waiting: seq<Message>)
    ensures mode == All ==> Drained(mode, waiting) == waiting
    ensures mode == OneAtATime && waiting != [] ==> Drained(mode, waiting) == [waiting[0]]
    ensures waiting == [] ==> Drained(mode, waiting) == []
  {
  }

  /** A queue with its history: enqueued is everything ever queued and not cleared while
      waiting, taken is everything drained so far. */
  class PendingMessageQueue {
    var messages: seq<Message>
    var mode: QueueMode
    ghost var enqueued: seq<Message>
    ghost var taken: seq<Message>

    /** Conservation, first in first out: what was queued is what was drained, in order,
        followed by what still waits. */
    ghost predicate Valid()
      reads this
    {
      enqueued == taken + messages
    }

    constructor (mode: QueueMode)
      ensures Valid() && messages == [] && taken == [] && this.mode == mode
    {
      this.mode := mode;
      messages, enqueued, taken := [], [], [];
    }

    method Enqueue(message: Message)
      requires Valid()
      modifies `messages, `enqueued
      ensures Valid() && enqueued == old(enqueued) + [message]
    {
      messages := messages + [message];
      enqueued := enqueued + [message];
    }

    method HasItems() returns (r: bool)
      requires Valid()
      ensures r <==> enqueued != taken
    {
      r := |messages| > 0;
    }

    /** Takes everything, or the oldest message only, as the mode says. */
    method Drain() returns (drained: seq<Message>)
      requires Valid()
      modifies `messages, `taken
      ensures Valid()
      ensures taken == old(taken) + drained
      ensures old(messages) == drained + messages
      ensures drained == Drained(mode, old(messages))
      ensures mode == All ==> drained == old(messages) && messages == []
      ensures mode == OneAtATime && old(messages) != [] ==>
                drained == [old(messages)[0]] && messages == old(messages)[1..]
      ensures old(messages) == [] ==> drained == []
    {
      if mode == All {
        drained := messages;
        messages := [];
        taken := taken + drained;
        return;
      }
      if |messages| == 0 {
        return [];
      }
      drained := [messages[0]];
      messages := messages[1..];
      taken := taken + drained;
    }

    /** Drops what waits; what was drained stays drained. */
    method Clear()
      requires Valid()
      modifies `messages, `enqueued
      ensures Valid() && messages == [] && enqueued == taken
    {
      messages := [];
      enqueued := taken;
    }
  }
}
