/** Subscribing and unsubscribing without interruption, against `Topic.Subscribe` and `Topic.Unsubscribe`. */
module UninterruptedSubscription {
  import opened Channels
  import opened BrokerSystem
  import opened UninterruptedPublish

  lemma TakeOne<M>(s: State<M>, e: Event<M>, rest: seq<Event<M>>)
    requires Can(s, e)
    ensures Take(s, [e] + rest) == Take(Do(s, e), rest)
  {
    assert ([e] + rest)[1..] == rest;
  }

  lemma TakeNone<M>(s: State<M>)
    ensures Take(s, []) == Some(s)
  {
  }

  /** The events of one subscribe call, with nobody else moving. */
  function SubscribeSteps<M>(c: nat, topic: TopicName): seq<Event<M>> {
    [MakeChan(c, topic)] + ([Lock(c)] + ([Insert(c)] + ([Unlock(c)] + [])))
  }

  function UnsubscribeSteps<M>(c: nat): seq<Event<M>> {
    [Lock(c)] + ([Delete(c)] + ([Unlock(c)] + ([CloseChan(c)] + [])))
  }

  function Subscribed<M>(s: State<M>, c: nat, topic: TopicName): State<M> {
    s.(subs := s.subs[c := Sub(topic, Live, Make(64))], registered := s.registered + {c})
  }

  function Unsubscribed<M>(s: State<M>, c: nat): State<M>
    requires c in s.subs
  {
    s.(subs := s.subs[c := s.subs[c].(life := Closed, chan := s.subs[c].chan.(closed := true))],
       registered := s.registered - {c})
  }

  lemma SubscribeTaken<M>(s: State<M>, c: nat, topic: TopicName)
    requires !s.panicked && c !in s.subs && s.writer == None && s.readers == {}
    ensures Take(s, SubscribeSteps(c, topic)) == Some(Subscribed(s, c, topic))
  {
    var s1 := Do(s, MakeChan(c, topic));
    TakeOne(s, MakeChan(c, topic), [Lock(c)] + ([Insert(c)] + ([Unlock(c)] + [])));
    TakeOne(s1, Lock(c), [Insert(c)] + ([Unlock(c)] + []));
    TakeOne(Do(s1, Lock(c)), Insert(c), [Unlock(c)] + []);
    TakeOne(Do(Do(s1, Lock(c)), Insert(c)), Unlock(c), []);
    TakeNone(Do(Do(Do(s1, Lock(c)), Insert(c)), Unlock(c)));
    assert Do(Do(Do(s1, Lock(c)), Insert(c)), Unlock(c)).subs == Subscribed(s, c, topic).subs;
  }

  lemma UnsubscribeTaken<M>(s: State<M>, c: nat)
    requires !s.panicked && LifeIs(s, c, Live) && !s.subs[c].chan.closed && s.writer == None && s.readers == {}
    ensures Take(s, UnsubscribeSteps(c)) == Some(Unsubscribed(s, c))
  {
    var s1 := Do(s, Lock(c));
    TakeOne(s, Lock(c), [Delete(c)] + ([Unlock(c)] + ([CloseChan(c)] + [])));
    TakeOne(s1, Delete(c), [Unlock(c)] + ([CloseChan(c)] + []));
    CloseTaken(s, Do(s1, Delete(c)), c);
  }

  lemma CloseTaken<M>(s: State<M>, s2: State<M>, c: nat)
    requires !s.panicked && c in s.subs && !s.subs[c].chan.closed && s.writer == None
    requires s2 == s.(subs := s.subs[c := s.subs[c].(life := UnsubDeleted)], registered := s.registered - {c},
                      writer := Some(c))
    ensures Take(s2, [Unlock(c)] + ([CloseChan(c)] + [])) == Some(Unsubscribed(s, c))
  {
    var s3 := Do(s2, Unlock(c));
    TakeOne(s2, Unlock(c), [CloseChan(c)] + []);
    TakeOne(s3, CloseChan(c), []);
    TakeNone(Do(s3, CloseChan(c)));
    assert Do(s3, CloseChan(c)).subs == Unsubscribed(s, c).subs;
  }

  /** Enabled to its end: a fresh, open, empty channel of 64 places joins its topic, and nothing else changes. */
  lemma MatchesTopicSubscribe<M>(s: State<M>, c: nat, topic: TopicName)
    requires Inv(s) && c !in s.subs && s.writer == None && s.readers == {}
    ensures var r := Take(s, SubscribeSteps(c, topic));
            && r.Some? && r.value == Subscribed(s, c, topic)
            && (forall t :: Index(r.value, t) == Index(s, t) + if t == topic then {c} else {})
            && r.value.subs[c].chan.cap == 64 && r.value.subs[c].chan.queue == [] && !r.value.subs[c].chan.closed
  {
    SubscribeTaken(s, c, topic);
  }

  /** Enabled to its end: the channel leaves its map and is closed with what is queued still in it, and nothing else
      changes. */
  lemma MatchesTopicUnsubscribe<M>(s: State<M>, c: nat)
    requires Inv(s) && LifeIs(s, c, Live) && s.writer == None && s.readers == {}
    ensures var r := Take(s, UnsubscribeSteps(c));
            && r.Some? && r.value == Unsubscribed(s, c)
            && (forall t :: Index(r.value, t) == Index(s, t) - {c})
            && r.value.subs[c].chan.closed && r.value.subs[c].chan.queue == s.subs[c].chan.queue
  {
    UnsubscribeTaken(s, c);
  }
}
