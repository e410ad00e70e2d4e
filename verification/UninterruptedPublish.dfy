/** A publish of the step system that nobody interrupts, against the publish of the broker object. */
module UninterruptedPublish {
  import opened Channels
  import opened Broker
  import opened BrokerSystem

  /** The state after these events, or None when one of them is not enabled in its turn. */
  ghost function Take<M>(s: State<M>, evs: seq<Event<M>>): Option<State<M>>
    decreases |evs|
  {
    if evs == [] then Some(s)
    else if Can(s, evs[0]) then Take(Do(s, evs[0]), evs[1..])
    else None
  }

  function Sends<M>(p: nat, order: seq<nat>): seq<Event<M>> {
    seq(|order|, i requires 0 <= i < |order| => Send(p, order[i]))
  }

  function Waiting<M>(s: State<M>, p: nat): set<nat>
    requires Looping(s, p)
  {
    Last(s.pubs[p].log).audience - Last(s.pubs[p].log).reached
  }

  /** `p` is in its loop with exactly `order` still to reach, each open. */
  ghost predicate Facing<M>(s: State<M>, p: nat, order: seq<nat>) {
    && !s.panicked && Looping(s, p) && Last(s.pubs[p].log).reached <= Last(s.pubs[p].log).audience
    && RangesOver(order, Waiting(s, p))
    && (forall c <- order :: c in s.subs && !s.subs[c].chan.closed)
  }

  function MessageOf<M>(s: State<M>, p: nat): Item<M>
    requires Looping(s, p)
  {
    Item(p, |s.pubs[p].log| - 1, Last(s.pubs[p].log).msg)
  }

  /** The queues after the rest of the loop. */
  ghost predicate Handed<M>(s: State<M>, s': State<M>, order: seq<nat>, x: Item<M>) {
    s'.subs.Keys == s.subs.Keys &&
    forall c <- s.subs ::
      s'.subs[c].chan.cap == s.subs[c].chan.cap &&
      s'.subs[c].chan.queue ==
      if c in order then Pushed(s.subs[c].chan.queue, s.subs[c].chan.cap, x) else s.subs[c].chan.queue
  }

  lemma OneSend<M>(s: State<M>, p: nat, order: seq<nat>)
    requires order != [] && Facing(s, p, order)
    ensures Can(s, Send(p, order[0])) && !s.subs[order[0]].chan.closed
    ensures var s' := Do(s, Send(p, order[0]));
            Facing(s', p, order[1..]) && MessageOf(s', p) == MessageOf(s, p)
  {
    var c := order[0];
    RangesOverRest(order, Waiting(s, p));
    assert c in order;
    var s' := Do(s, Send(p, c));
    assert Last(s'.pubs[p].log) == Last(s.pubs[p].log).(reached := Last(s.pubs[p].log).reached + {c});
    assert Waiting(s', p) == Waiting(s, p) - {c};
  }

  lemma OneSendHands<M>(s: State<M>, p: nat, c: nat)
    requires Can(s, Send(p, c)) && !s.subs[c].chan.closed
    ensures Handed(s, Do(s, Send(p, c)), [c], MessageOf(s, p))
  {
  }

  lemma HandedInTurn<M>(s: State<M>, s1: State<M>, s2: State<M>, order: seq<nat>, targets: set<nat>, x: Item<M>)
    requires order != [] && RangesOver(order, targets)
    requires Handed(s, s1, [order[0]], x) && Handed(s1, s2, order[1..], x)
    ensures Handed(s, s2, order, x)
  {
    RangesOverRest(order, targets);
  }

  lemma FirstTaken<M>(s: State<M>, p: nat, order: seq<nat>)
    requires order != [] && Can(s, Send(p, order[0]))
    ensures Take(s, Sends(p, order)) == Take(Do(s, Send(p, order[0])), Sends(p, order[1..]))
  {
    assert Sends<M>(p, order)[1..] == Sends(p, order[1..]);
  }

  lemma NothingLeft<M>(s: State<M>, p: nat, x: Item<M>)
    ensures Take(s, Sends(p, [])) == Some(s) && Handed(s, s, [], x)
  {
  }

  lemma {:induction false} LoopRuns<M>(s: State<M>, p: nat, order: seq<nat>)
    requires Facing(s, p, order)
    ensures var r := Take(s, Sends(p, order));
            && r.Some? && Facing(r.value, p, []) && Handed(s, r.value, order, MessageOf(s, p))
    decreases |order|
  {
    if order == [] {
      NothingLeft(s, p, MessageOf(s, p));
    } else {
      OneSend(s, p, order);
      OneSendHands(s, p, order[0]);
      FirstTaken(s, p, order);
      var s1 := Do(s, Send(p, order[0]));
      LoopRuns(s1, p, order[1..]);
      HandedInTurn(s, s1, Take(s1, Sends(p, order[1..])).value, order, Waiting(s, p), MessageOf(s, p));
    }
  }

  lemma LockFaces<M>(s: State<M>, p: nat, topic: TopicName, msg: M, order: seq<nat>)
    requires Inv(s) && Can(s, RLock(p, topic, msg)) && RangesOver(order, Index(s, topic))
    ensures var s0 := Do(s, RLock(p, topic, msg));
            Facing(s0, p, order) && s0.subs == s.subs && MessageOf(s0, p) == Item(p, |PublisherOf(s, p).log|, msg)
  {
    assert Waiting(Do(s, RLock(p, topic, msg)), p) == Index(s, topic);
  }

  lemma NobodyLeft<M>(s: State<M>, p: nat)
    requires Facing(s, p, [])
    ensures Can(s, RUnlock(p)) && Do(s, RUnlock(p)).subs == s.subs
  {
    var call := Last(s.pubs[p].log);
    assert forall c <- call.audience :: c !in Waiting(s, p);
  }

  /** Whatever order the map range takes, a publish that runs without interruption is enabled to its end and does to
      the queues what `Topic.Publish` promises: one push to each subscriber of the topic, nothing to the others. */
  lemma MatchesTopicPublish<M>(s: State<M>, p: nat, topic: TopicName, msg: M, order: seq<nat>)
    requires Inv(s) && Can(s, RLock(p, topic, msg)) && RangesOver(order, Index(s, topic))
    ensures var s0 := Do(s, RLock(p, topic, msg));
            var r := Take(s0, Sends(p, order));
            && r.Some? && Can(r.value, RUnlock(p))
            && forall c <- s.subs :: c in r.value.subs &&
                 Do(r.value, RUnlock(p)).subs[c].chan.queue ==
                 if c in Index(s, topic)
                 then Pushed(s.subs[c].chan.queue, 64, Item(p, |PublisherOf(s, p).log|, msg))
                 else s.subs[c].chan.queue
  {
    LockFaces(s, p, topic, msg, order);
    LoopRuns(Do(s, RLock(p, topic, msg)), p, order);
    NobodyLeft(Take(Do(s, RLock(p, topic, msg)), Sends(p, order)).value, p);
  }
}
