/** The in-process publish/subscribe bus of pkg/protocol/broker.go, one topic of it, as an object. */
module Broker {
  import opened Channels

  const SUBSCRIBER_CAPACITY: nat := 64

  class Topic<M> {
    var subs: set<Channel<M>>

    ghost predicate Valid()
      reads this, subs
    {
      forall ch <- subs :: !ch.closed && ch.cap == SUBSCRIBER_CAPACITY
    }

    constructor ()
      ensures Valid() && subs == {}
    {
      subs := {};
    }

    method Subscribe() returns (ch: Channel<M>)
      requires Valid()
      modifies this
      ensures Valid() && fresh(ch) && ch.buf == [] && !ch.closed && ch.cap == 64
      ensures subs == old(subs) + {ch}
    {
      ch := new Channel(SUBSCRIBER_CAPACITY);
      subs := subs + {ch};
    }

    /** The channel leaves the set before it is closed, so no later publish can meet it. */
    method Unsubscribe(ch: Channel<M>)
      requires Valid() && !ch.closed
      modifies this, ch`closed
      ensures Valid() && ch.closed
      ensures subs == old(subs) - {ch}
    {
      subs := subs - {ch};
      ch.Close();
    }

    /** Each subscriber is offered the message once; a full buffer skips it and nobody else is touched. */
    method Publish(m: M)
      requires Valid()
      modifies subs`buf
      ensures Valid()
      ensures forall ch <- subs :: ch.buf == if |old(ch.buf)| < 64 then old(ch.buf) + [m] else old(ch.buf)
      ensures forall ch <- subs :: ch.buf == Pushed(old(ch.buf), SUBSCRIBER_CAPACITY, m)
    {
      var remaining := subs;
      while remaining != {}
        invariant remaining <= subs && Valid()
        invariant forall ch <- subs - remaining :: ch.buf == Pushed(old(ch.buf), SUBSCRIBER_CAPACITY, m)
        invariant forall ch <- remaining :: ch.buf == old(ch.buf)
      {
        var ch :| ch in remaining;
        var _ := ch.TrySend(m);
        remaining := remaining - {ch};
      }
    }
  }
}
