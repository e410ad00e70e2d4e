/** Every interleaving of subscribers, unsubscribers and publishers of pkg/protocol/broker.go.
    One atomic step per lock operation, map update, non-blocking send, close and receive. */
module BrokerSystem {
  import opened Channels
  import opened Broker

  datatype TopicName = Progress | Notify

  /** Where the goroutine that owns a channel stands. */
  datatype Life = Made | SubLocked | SubInserted | Live | UnsubLocked | UnsubDeleted | UnsubUnlocked | Closed

  datatype Item<M> = Item(pub: nat, index: nat, msg: M)

  datatype Sub<M> = Sub(topic: TopicName, life: Life, chan: Chan<Item<M>>)

  /** One publish call: the channels its loop ranges over, and those it has already tried. */
  datatype Call<M> = Call(topic: TopicName, msg: M, audience: set<nat>, reached: set<nat>)

  datatype Publisher<M> = Publisher(log: seq<Call<M>>, looping: bool)

  datatype State<M> = State(
    subs: map<nat, Sub<M>>,
    registered: set<nat>,        // the keys of progressSubs and notifySubs together
    pubs: map<nat, Publisher<M>>,
    writer: Option<nat>,         // owner of the write lock
    readers: set<nat>,           // publishers holding the read lock
    panicked: bool)

  datatype Event<M> =
    | MakeChan(c: nat, topic: TopicName)
    | Lock(c: nat)
    | Insert(c: nat)
    | Delete(c: nat)
    | Unlock(c: nat)
    | CloseChan(c: nat)
    | RLock(p: nat, topic: TopicName, msg: M)
    | Send(p: nat, c: nat)
    | RUnlock(p: nat)
    | Recv(c: nat)

  function Init<M>(): State<M> {
    State(map[], {}, map[], None, {}, false)
  }

  function PublisherOf<M>(s: State<M>, p: nat): Publisher<M> {
    if p in s.pubs then s.pubs[p] else Publisher([], false)
  }

  /** The subscriber map of one topic. */
  ghost function Index<M>(s: State<M>, topic: TopicName): set<nat> {
    set c | c in s.registered && c in s.subs && s.subs[c].topic == topic
  }

  function Last<T>(xs: seq<T>): T
    requires xs != []
  {
    xs[|xs| - 1]
  }

  predicate LifeIs<M>(s: State<M>, c: nat, life: Life) {
    c in s.subs && s.subs[c].life == life
  }

  predicate Looping<M>(s: State<M>, p: nat) {
    p in s.pubs && s.pubs[p].looping && s.pubs[p].log != []
  }

  ghost predicate Can<M>(s: State<M>, e: Event<M>) {
    !s.panicked &&
    match e
    case MakeChan(c, _) => c !in s.subs
    case Lock(c) => (LifeIs(s, c, Made) || LifeIs(s, c, Live)) && s.writer == None && s.readers == {}
    case Insert(c) => LifeIs(s, c, SubLocked)
    case Delete(c) => LifeIs(s, c, UnsubLocked)
    case Unlock(c) => LifeIs(s, c, SubInserted) || LifeIs(s, c, UnsubDeleted)
    case CloseChan(c) => LifeIs(s, c, UnsubUnlocked)
    case RLock(p, _, _) => !PublisherOf(s, p).looping && s.writer == None
    case Send(p, c) => Looping(s, p) && c in Last(s.pubs[p].log).audience - Last(s.pubs[p].log).reached && c in s.subs
    case RUnlock(p) => Looping(s, p) && Last(s.pubs[p].log).audience == Last(s.pubs[p].log).reached
    case Recv(c) => LifeIs(s, c, Live) && s.subs[c].chan.queue != []
  }

  function SetLife<M>(s: State<M>, c: nat, life: Life): State<M>
    requires c in s.subs
  {
    s.(subs := s.subs[c := s.subs[c].(life := life)])
  }

  function SetChan<M>(s: State<M>, c: nat, ch: Chan<Item<M>>): State<M>
    requires c in s.subs
  {
    s.(subs := s.subs[c := s.subs[c].(chan := ch)])
  }

  function Reach<M>(log: seq<Call<M>>, c: nat): seq<Call<M>>
    requires log != []
  {
    log[|log| - 1 := Last(log).(reached := Last(log).reached + {c})]
  }

  ghost function Do<M>(s: State<M>, e: Event<M>): State<M>
    requires Can(s, e)
  {
    match e
    case MakeChan(c, topic) =>
      s.(subs := s.subs[c := Sub(topic, Made, Make(SUBSCRIBER_CAPACITY))])
    case Lock(c) =>
      SetLife(s, c, if s.subs[c].life == Made then SubLocked else UnsubLocked).(writer := Some(c))
    case Insert(c) =>
      SetLife(s, c, SubInserted).(registered := s.registered + {c})
    case Delete(c) =>
      SetLife(s, c, UnsubDeleted).(registered := s.registered - {c})
    case Unlock(c) =>
      SetLife(s, c, if s.subs[c].life == SubInserted then Live else UnsubUnlocked).(writer := None)
    case CloseChan(c) =>
      if s.subs[c].chan.closed then s.(panicked := true)
      else SetChan(SetLife(s, c, Closed), c, s.subs[c].chan.(closed := true))
    case RLock(p, topic, msg) =>
      var log := PublisherOf(s, p).log + [Call(topic, msg, Index(s, topic), {})];
      s.(pubs := s.pubs[p := Publisher(log, true)], readers := s.readers + {p})
    case Send(p, c) =>
      if s.subs[c].chan.closed then s.(panicked := true)
      else
        var log := s.pubs[p].log;
        var item := Item(p, |log| - 1, Last(log).msg);
        SetChan(s, c, TrySend(s.subs[c].chan, item)).(pubs := s.pubs[p := Publisher(Reach(log, c), true)])
    case RUnlock(p) =>
      s.(pubs := s.pubs[p := Publisher(s.pubs[p].log, false)], readers := s.readers - {p})
    case Recv(c) =>
      SetChan(s, c, Receive(s.subs[c].chan))
  }

  /** A run: the events are taken one after the other, each one enabled when its turn comes. */
  ghost predicate Feasible<M>(evs: seq<Event<M>>)
    decreases |evs|, 0
  {
    evs == [] || (Feasible(evs[..|evs| - 1]) && Can(Run(evs[..|evs| - 1]), Last(evs)))
  }

  ghost function Run<M>(evs: seq<Event<M>>): State<M>
    requires Feasible(evs)
    decreases |evs|, 1
  {
    if evs == [] then Init() else Do(Run(evs[..|evs| - 1]), Last(evs))
  }

  // ----- What every run keeps -----

  predicate HoldsWriteLock(life: Life) {
    life in {SubLocked, SubInserted, UnsubLocked, UnsubDeleted}
  }

  predicate IsRegistered(life: Life) {
    life in {SubInserted, Live, UnsubLocked}
  }

  /** The read/write lock excludes as it should, and the map and the channels agree with the owners' progress. */
  ghost predicate Disciplined<M>(s: State<M>) {
    && (s.writer.Some? ==> s.readers == {} && s.writer.value in s.subs)
    && (forall c <- s.subs :: HoldsWriteLock(s.subs[c].life) <==> s.writer == Some(c))
    && (forall c <- s.subs :: IsRegistered(s.subs[c].life) <==> c in s.registered)
    && (forall c <- s.subs :: s.subs[c].life == Closed <==> s.subs[c].chan.closed)
    && s.registered <= s.subs.Keys
    && (forall p <- s.pubs :: s.pubs[p].looping <==> p in s.readers)
    && (forall p <- s.readers :: Looping(s, p))
  }

  /** Every call but a running one has tried its whole audience, and none tried anybody else. */
  ghost predicate CallsOk<M>(pub: Publisher<M>) {
    forall i | 0 <= i < |pub.log| ::
      pub.log[i].reached <= pub.log[i].audience &&
      (pub.log[i].reached == pub.log[i].audience || (pub.looping && i == |pub.log| - 1))
  }

  /** A publisher inside its loop ranges over exactly the subscribers of its topic, however many publishers
      hold the read lock together. */
  ghost predicate LoopsOverIndex<M>(s: State<M>) {
    && (forall p <- s.readers ::
          Looping(s, p) && Last(s.pubs[p].log).audience == Index(s, Last(s.pubs[p].log).topic))
    && (forall p <- s.pubs :: CallsOk(s.pubs[p]))
  }

  ghost predicate ChannelsOk<M>(s: State<M>) {
    forall c <- s.subs :: Conserved(s.subs[c].chan) && s.subs[c].chan.cap == SUBSCRIBER_CAPACITY
  }

  /** The items of publisher `p`, in order. */
  function By<M>(items: seq<Item<M>>, p: nat): seq<Item<M>> {
    if items == [] then []
    else By(items[..|items| - 1], p) + if Last(items).pub == p then [Last(items)] else []
  }

  /** The publishes of `p` that reached channel `c`, as items, in the order `p` issued them. */
  function Heard<M>(log: seq<Call<M>>, p: nat, c: nat): seq<Item<M>> {
    if log == [] then []
    else
      var n := |log| - 1;
      Heard(log[..n], p, c) + if c in log[n].reached then [Item(p, n, log[n].msg)] else []
  }

  ghost predicate Exact<M>(s: State<M>, c: nat, p: nat)
    requires c in s.subs
  {
    By(Items(s.subs[c].chan.offers), p) == Heard(PublisherOf(s, p).log, p, c)
  }

  /** Each channel was offered, from each publisher, exactly the publishes that reached it, in order. */
  ghost predicate ExactDelivery<M>(s: State<M>) {
    && (forall c <- s.subs, p: nat :: Exact(s, c, p))
    && (forall p <- s.pubs, i | 0 <= i < |s.pubs[p].log| :: s.pubs[p].log[i].reached <= s.subs.Keys)
  }

  ghost predicate Inv<M>(s: State<M>) {
    !s.panicked && Disciplined(s) && LoopsOverIndex(s) && ChannelsOk(s) && ExactDelivery(s)
  }

  predicate ByOwner<M>(e: Event<M>) {
    e.MakeChan? || e.Lock? || e.Insert? || e.Delete? || e.Unlock? || e.CloseChan?
  }

  lemma MapStepKeepsDiscipline<M>(s: State<M>, e: Event<M>)
    requires Can(s, e) && Disciplined(s) && (e.Lock? || e.Insert? || e.Delete? || e.Unlock?)
    ensures Disciplined(Do(s, e)) && !Do(s, e).panicked
  {
  }

  lemma OwnerStepKeepsDiscipline<M>(s: State<M>, e: Event<M>)
    requires Can(s, e) && Disciplined(s) && ByOwner(e)
    ensures Disciplined(Do(s, e)) && !Do(s, e).panicked
  {
    if !e.MakeChan? && !e.CloseChan? {
      MapStepKeepsDiscipline(s, e);
    }
  }

  lemma OtherStepKeepsDiscipline<M>(s: State<M>, e: Event<M>)
    requires Can(s, e) && Disciplined(s) && LoopsOverIndex(s) && !ByOwner(e)
    ensures Disciplined(Do(s, e)) && !Do(s, e).panicked
  {
    if e.RLock? || e.RUnlock? {
      ReadLockKeepsDiscipline(s, e);
    } else if e.Send? {
      SendKeepsDiscipline(s, e.p, e.c);
    } else {
      RecvKeepsDiscipline(s, e.c);
    }
  }

  lemma ReadLockKeepsDiscipline<M>(s: State<M>, e: Event<M>)
    requires Can(s, e) && Disciplined(s) && (e.RLock? || e.RUnlock?)
    ensures Disciplined(Do(s, e)) && !Do(s, e).panicked
  {
  }

  lemma SendKeepsDiscipline<M>(s: State<M>, p: nat, c: nat)
    requires Can(s, Send(p, c)) && Disciplined(s) && LoopsOverIndex(s)
    ensures Disciplined(Do(s, Send(p, c))) && !Do(s, Send(p, c)).panicked
  {
    assert p in s.readers && c in s.registered;
  }

  lemma RecvKeepsDiscipline<M>(s: State<M>, c: nat)
    requires Can(s, Recv(c)) && Disciplined(s)
    ensures Disciplined(Do(s, Recv(c))) && !Do(s, Recv(c)).panicked
  {
  }

  lemma StepKeepsDiscipline<M>(s: State<M>, e: Event<M>)
    requires Can(s, e) && Disciplined(s) && LoopsOverIndex(s)
    ensures Disciplined(Do(s, e)) && !Do(s, e).panicked
  {
    if ByOwner(e) {
      OwnerStepKeepsDiscipline(s, e);
    } else {
      OtherStepKeepsDiscipline(s, e);
    }
  }

  /** The read lock at work: while some publisher loops, no owner can change the map. */
  lemma OwnerStepKeepsLoops<M>(s: State<M>, e: Event<M>)
    requires Can(s, e) && Disciplined(s) && LoopsOverIndex(s) && ByOwner(e)
    ensures LoopsOverIndex(Do(s, e))
  {
  }

  lemma SendKeepsLoops<M>(s: State<M>, p: nat, c: nat)
    requires Can(s, Send(p, c)) && LoopsOverIndex(s)
    ensures LoopsOverIndex(Do(s, Send(p, c)))
  {
  }

  lemma OtherStepKeepsLoops<M>(s: State<M>, e: Event<M>)
    requires Can(s, e) && Disciplined(s) && LoopsOverIndex(s) && !ByOwner(e) && !e.Send?
    ensures LoopsOverIndex(Do(s, e))
  {
  }

  lemma StepKeepsLoops<M>(s: State<M>, e: Event<M>)
    requires Can(s, e) && Disciplined(s) && LoopsOverIndex(s)
    ensures LoopsOverIndex(Do(s, e))
  {
    if ByOwner(e) {
      OwnerStepKeepsLoops(s, e);
    } else if e.Send? {
      SendKeepsLoops(s, e.p, e.c);
    } else {
      OtherStepKeepsLoops(s, e);
    }
  }

  lemma StepKeepsChannels<M>(s: State<M>, e: Event<M>)
    requires Can(s, e) && ChannelsOk(s)
    ensures ChannelsOk(Do(s, e))
  {
    if e.Send? {
      SendKeepsChannels(s, e.p, e.c);
    } else if e.Recv? {
      RecvKeepsChannels(s, e.c);
    }
  }

  lemma SendKeepsChannels<M>(s: State<M>, p: nat, c: nat)
    requires Can(s, Send(p, c)) && ChannelsOk(s)
    ensures ChannelsOk(Do(s, Send(p, c)))
  {
    var log := s.pubs[p].log;
    TrySendConserves(s.subs[c].chan, Item(p, |log| - 1, Last(log).msg));
  }

  lemma RecvKeepsChannels<M>(s: State<M>, c: nat)
    requires Can(s, Recv(c)) && ChannelsOk(s)
    ensures ChannelsOk(Do(s, Recv(c)))
  {
    ReceiveConserves(s.subs[c].chan);
  }

  lemma HeardReach<M>(log: seq<Call<M>>, p: nat, c: nat, d: nat)
    requires log != [] && c !in Last(log).reached
    ensures Heard(Reach(log, c), p, d) ==
            Heard(log, p, d) + if d == c then [Item(p, |log| - 1, Last(log).msg)] else []
  {
    assert Reach(log, c)[..|log| - 1] == log[..|log| - 1];
  }

  lemma ByAppend<M>(items: seq<Item<M>>, x: Item<M>, p: nat)
    ensures By(items + [x], p) == if x.pub == p then By(items, p) + [x] else By(items, p)
  {
    assert (items + [x])[..|items|] == items;
  }

  lemma ItemsAppend<T>(offers: seq<Offer<T>>, o: Offer<T>)
    ensures Items(offers + [o]) == Items(offers) + [o.item]
  {
  }

  lemma SendKeepsDelivery<M>(s: State<M>, p: nat, c: nat)
    requires Can(s, Send(p, c)) && !s.subs[c].chan.closed && ExactDelivery(s)
    ensures ExactDelivery(Do(s, Send(p, c)))
  {
    var s' := Do(s, Send(p, c));
    var log := s.pubs[p].log;
    var offers := s.subs[c].chan.offers;
    var o := Offer(Item(p, |log| - 1, Last(log).msg), |s.subs[c].chan.queue|);
    forall d <- s'.subs, q: nat
      ensures Exact(s', d, q)
    {
      assert Exact(s, d, q);
      ItemsAppend(offers, o);
      ByAppend(Items(offers), o.item, q);
      HeardReach(log, p, c, d);
    }
  }

  lemma RLockKeepsDelivery<M>(s: State<M>, p: nat, topic: TopicName, msg: M)
    requires Can(s, RLock(p, topic, msg)) && ExactDelivery(s)
    ensures ExactDelivery(Do(s, RLock(p, topic, msg)))
  {
    var s' := Do(s, RLock(p, topic, msg));
    var log := PublisherOf(s, p).log;
    assert (log + [Call(topic, msg, Index(s, topic), {})])[..|log|] == log;
    forall d <- s'.subs, q: nat
      ensures Exact(s', d, q)
    {
      assert Exact(s, d, q);
    }
  }

  lemma MakeKeepsDelivery<M>(s: State<M>, c: nat, topic: TopicName)
    requires Can(s, MakeChan(c, topic)) && ExactDelivery(s)
    ensures ExactDelivery(Do(s, MakeChan(c, topic)))
  {
    var s' := Do(s, MakeChan(c, topic));
    forall d <- s'.subs, q: nat
      ensures Exact(s', d, q)
    {
      if d == c {
        NeverReached(PublisherOf(s, q).log, q, c);
      } else {
        assert Exact(s, d, q);
      }
    }
  }

  lemma QuietStepKeepsDelivery<M>(s: State<M>, e: Event<M>)
    requires Can(s, e) && ExactDelivery(s) && !e.Send? && !e.RLock? && !e.MakeChan?
    ensures ExactDelivery(Do(s, e))
  {
    var s' := Do(s, e);
    forall d <- s'.subs, q: nat
      ensures Exact(s', d, q)
    {
      assert Exact(s, d, q);
    }
  }

  lemma StepKeepsDelivery<M>(s: State<M>, e: Event<M>)
    requires Can(s, e) && ExactDelivery(s)
    requires e.Send? ==> !s.subs[e.c].chan.closed
    ensures ExactDelivery(Do(s, e))
  {
    match e
    case Send(p, c) => SendKeepsDelivery(s, p, c);
    case RLock(p, topic, msg) => RLockKeepsDelivery(s, p, topic, msg);
    case MakeChan(c, topic) => MakeKeepsDelivery(s, c, topic);
    case _ => QuietStepKeepsDelivery(s, e);
  }

  lemma {:induction false} NeverReached<M>(log: seq<Call<M>>, p: nat, c: nat)
    requires forall i | 0 <= i < |log| :: c !in log[i].reached
    ensures Heard(log, p, c) == []
  {
    if log != [] {
      NeverReached(log[..|log| - 1], p, c);
    }
  }

  lemma StepKeepsInv<M>(s: State<M>, e: Event<M>)
    requires Can(s, e) && Inv(s)
    ensures Inv(Do(s, e))
  {
    StepKeepsDiscipline(s, e);
    StepKeepsLoops(s, e);
    StepKeepsChannels(s, e);
    StepKeepsDelivery(s, e);
  }

  /** Safety over whole runs: the invariant holds in every state any interleaving can produce. */
  lemma {:induction false} RunsAreSafe<M>(evs: seq<Event<M>>)
    requires Feasible(evs)
    ensures Inv(Run(evs))
    decreases |evs|
  {
    if evs != [] {
      RunsAreSafe(evs[..|evs| - 1]);
      StepKeepsInv(Run(evs[..|evs| - 1]), Last(evs));
    }
  }

  // ----- Main results -----

  /** In a state that keeps the invariant, every send still to be made has an open, registered target. */
  lemma SendIsOpen<M>(s: State<M>, p: nat, c: nat)
    requires Inv(s) && Can(s, Send(p, c))
    ensures p in s.readers && c in s.registered && !s.subs[c].chan.closed
    ensures s.subs[c].topic == Last(s.pubs[p].log).topic
  {
  }

  /** Close safety: whatever a mid-loop publisher has still to reach is registered, open and of its topic,
      so no send meets a closed channel; a consumer that has not unsubscribed never sees its channel closed. */
  lemma CloseSafety<M>(evs: seq<Event<M>>, p: nat, c: nat)
    requires Feasible(evs)
    ensures !Run(evs).panicked
    ensures Can(Run(evs), Send(p, c)) ==>
              c in Run(evs).registered && !Run(evs).subs[c].chan.closed &&
              Run(evs).subs[c].topic == Last(Run(evs).pubs[p].log).topic
    ensures LifeIs(Run(evs), c, Live) ==> !Run(evs).subs[c].chan.closed
  {
    RunsAreSafe(evs);
    if Can(Run(evs), Send(p, c)) {
      SendIsOpen(Run(evs), p, c);
    }
  }

  predicate Increasing<M>(items: seq<Item<M>>) {
    forall i, j | 0 <= i < j < |items| :: items[i].index < items[j].index
  }

  /** Items are in issue order, each issued once, with the payload that was published. */
  ghost predicate Genuine<M>(items: seq<Item<M>>, log: seq<Call<M>>, p: nat) {
    Increasing(items) &&
    forall i | 0 <= i < |items| ::
      items[i].pub == p && items[i].index < |log| && items[i].msg == log[items[i].index].msg
  }

  lemma GenuineInLonger<M>(items: seq<Item<M>>, log: seq<Call<M>>, n: nat, p: nat)
    requires n <= |log| && Genuine(items, log[..n], p)
    ensures Genuine(items, log, p) && forall y <- items :: y.index < n
  {
    assert forall i | 0 <= i < n :: log[..n][i] == log[i];
  }

  lemma {:induction false} HeardIsGenuine<M>(log: seq<Call<M>>, p: nat, c: nat)
    ensures Genuine(Heard(log, p, c), log, p)
  {
    if log != [] {
      var n := |log| - 1;
      HeardIsGenuine(log[..n], p, c);
      GenuineNext(Heard(log[..n], p, c), log, p, c);
    }
  }

  lemma GenuineNext<M>(items: seq<Item<M>>, log: seq<Call<M>>, p: nat, c: nat)
    requires log != [] && Genuine(items, log[..|log| - 1], p)
    ensures var n := |log| - 1;
            Genuine(items + if c in log[n].reached then [Item(p, n, log[n].msg)] else [], log, p)
  {
    var n := |log| - 1;
    GenuineInLonger(items, log, n, p);
    if c in log[n].reached {
      GenuineExtends(items, Item(p, n, log[n].msg), log, p);
    } else {
      assert items + [] == items;
    }
  }

  lemma {:induction false} HeardIffReached<M>(log: seq<Call<M>>, p: nat, c: nat, i: nat)
    requires i < |log|
    ensures Item(p, i, log[i].msg) in Heard(log, p, c) <==> c in log[i].reached
  {
    var n := |log| - 1;
    if i < n {
      HeardIffReached(log[..n], p, c, i);
    } else {
      HeardIsGenuine(log[..n], p, c);
    }
  }

  lemma GenuineExtends<M>(items: seq<Item<M>>, x: Item<M>, log: seq<Call<M>>, p: nat)
    ensures Genuine(items + [x], log, p) <==>
            Genuine(items, log, p) && Genuine([x], log, p) && forall y <- items :: y.index < x.index
  {
    var both := items + [x];
    if Genuine(both, log, p) {
      assert forall i | 0 <= i < |items| :: both[i] == items[i];
      assert both[|items|] == x;
    }
    if Genuine(items, log, p) && Genuine([x], log, p) && forall y <- items :: y.index < x.index {
      assert [x][0] == x;
      assert forall i | 0 <= i < |items| :: items[i] in items;
    }
  }

  lemma {:induction false} AcceptedIsGenuine<M>(offers: seq<Offer<Item<M>>>, cap: nat, log: seq<Call<M>>, p: nat)
    requires Genuine(By(Items(offers), p), log, p)
    ensures Genuine(By(Accepted(offers, cap), p), log, p)
    ensures forall x <- By(Accepted(offers, cap), p) :: x in By(Items(offers), p)
  {
    if offers != [] {
      var n := |offers| - 1;
      var x := offers[n].item;
      assert offers == offers[..n] + [offers[n]];
      ItemsAppend(offers[..n], offers[n]);
      var all, found := Items(offers[..n]), Accepted(offers[..n], cap);
      ByAppend(all, x, p);
      GenuineExtends(By(all, p), x, log, p);
      AcceptedIsGenuine(offers[..n], cap, log, p);
      if x.pub == p && offers[n].pending < cap {
        GenuineExtends(By(found, p), x, log, p);
      }
      ByAppend(found, x, p);
      assert Accepted(offers, cap) == if offers[n].pending < cap then found + [x] else found;
    }
  }

  /** Per-publisher order without invention: what a subscriber has received, followed by what is queued for it,
      holds each publisher's messages in the order that publisher issued them, each at most once. */
  lemma PublisherOrder<M>(evs: seq<Event<M>>, p: nat, c: nat)
    requires Feasible(evs) && c in Run(evs).subs && p in Run(evs).pubs
    ensures var ch := Run(evs).subs[c].chan;
            Genuine(By(ch.received + ch.queue, p), Run(evs).pubs[p].log, p)
  {
    RunsAreSafe(evs);
    var s := Run(evs);
    assert Exact(s, c, p);
    HeardIsGenuine(s.pubs[p].log, p, c);
    AcceptedIsGenuine(s.subs[c].chan.offers, SUBSCRIBER_CAPACITY, s.pubs[p].log, p);
  }

  /** Completeness: a returned publish was offered exactly once to each channel of its audience and to nobody
      else, and a subscriber that never had 64 waiting has received it or will find it in its queue. */
  lemma PublishReachesAudience<M>(evs: seq<Event<M>>, p: nat, i: nat, c: nat)
    requires Feasible(evs) && c in Run(evs).subs && p in Run(evs).pubs && i < |Run(evs).pubs[p].log|
    requires !Run(evs).pubs[p].looping || i < |Run(evs).pubs[p].log| - 1
    ensures var call := Run(evs).pubs[p].log[i];
            var ch := Run(evs).subs[c].chan;
            && multiset(Items(ch.offers))[Item(p, i, call.msg)] == (if c in call.audience then 1 else 0)
            && (Dropped(ch.offers, 64) == [] ==>
                  multiset(ch.received + ch.queue)[Item(p, i, call.msg)] == if c in call.audience then 1 else 0)
  {
    RunsAreSafe(evs);
    var s := Run(evs);
    ReachedOnce(s, p, i, c);
    if Dropped(s.subs[c].chan.offers, SUBSCRIBER_CAPACITY) == [] {
      NoLagNoLoss(s.subs[c].chan.offers, SUBSCRIBER_CAPACITY);
    }
  }

  lemma ReachedOnce<M>(s: State<M>, p: nat, i: nat, c: nat)
    requires c in s.subs && p in s.pubs && Exact(s, c, p) && i < |s.pubs[p].log|
    ensures var call := s.pubs[p].log[i];
            multiset(Items(s.subs[c].chan.offers))[Item(p, i, call.msg)] == if c in call.reached then 1 else 0
  {
    var x := Item(p, i, s.pubs[p].log[i].msg);
    HeardIsGenuine(s.pubs[p].log, p, c);
    HeardIffReached(s.pubs[p].log, p, c, i);
    CountBy(Items(s.subs[c].chan.offers), x);
    IncreasingCountsOnce(Heard(s.pubs[p].log, p, c), x);
  }

  lemma {:induction false} CountBy<M>(items: seq<Item<M>>, x: Item<M>)
    ensures multiset(items)[x] == multiset(By(items, x.pub))[x]
  {
    if items != [] {
      var n := |items| - 1;
      CountBy(items[..n], x);
      assert items == items[..n] + [items[n]];
    }
  }

  lemma IncreasingCountsOnce<M>(items: seq<Item<M>>, x: Item<M>)
    requires Increasing(items)
    ensures multiset(items)[x] == if x in items then 1 else 0
  {
    if x in items {
      var i :| 0 <= i < |items| && items[i] == x;
      assert items == items[..i] + [x] + items[i + 1..];
      assert x !in items[..i] && x !in items[i + 1..];
    }
  }

  /** Queue conservation: offered is accepted plus dropped, accepted is received followed by queued, in order, and
      a drop needs 64 items waiting. */
  lemma QueuesConserve<M>(evs: seq<Event<M>>, c: nat)
    requires Feasible(evs) && c in Run(evs).subs
    ensures var ch := Run(evs).subs[c].chan;
            && |ch.queue| <= 64
            && Accepted(ch.offers, 64) == ch.received + ch.queue
            && multiset(Items(ch.offers)) == multiset(ch.received + ch.queue) + multiset(Dropped(ch.offers, 64))
            && (Dropped(ch.offers, 64) == [] <==> forall i | 0 <= i < |ch.offers| :: ch.offers[i].pending < 64)
  {
    RunsAreSafe(evs);
    OfferedIsAcceptedPlusDropped(Run(evs).subs[c].chan.offers, 64);
    DropsOnlyWhenFull(Run(evs).subs[c].chan.offers, 64);
  }
}
