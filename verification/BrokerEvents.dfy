/** The broker's runs told by their events alone: who asked for which topic, who is subscribed at a moment, and what a
    publish between a lock and an unlock event was offered to. */
module BrokerEvents {
  import opened Channels
  import opened BrokerSystem

  /** Made for the topic, put into its map, and not taken out again. */
  ghost predicate SubscribedTo<M>(evs: seq<Event<M>>, c: nat, topic: TopicName) {
    MakeChan(c, topic) in evs && Insert(c) in evs && Delete(c) !in evs
  }

  /** How many publish calls of `p` have begun. */
  function Begun<M>(evs: seq<Event<M>>, p: nat): nat {
    if evs == [] then 0
    else Begun(evs[..|evs| - 1], p) + if Last(evs).RLock? && Last(evs).p == p then 1 else 0
  }

  /** What the state remembers of channel `c` is what the events say of it. */
  ghost predicate Remembered<M>(s: State<M>, evs: seq<Event<M>>, c: nat) {
    && (forall topic :: MakeChan(c, topic) in evs <==> c in s.subs && s.subs[c].topic == topic)
    && (Insert(c) in evs <==> c in s.subs && s.subs[c].life !in {Made, SubLocked})
    && (Delete(c) in evs <==> c in s.subs && s.subs[c].life in {UnsubDeleted, UnsubUnlocked, Closed})
  }

  lemma OneMoreEvent<M>(evs: seq<Event<M>>, e: Event<M>, x: Event<M>)
    ensures x in evs + [e] <==> x in evs || x == e
  {
  }

  lemma StepIsRemembered<M>(s: State<M>, evs: seq<Event<M>>, e: Event<M>, c: nat)
    requires Can(s, e) && !Do(s, e).panicked && Remembered(s, evs, c)
    ensures Remembered(Do(s, e), evs + [e], c)
  {
    forall topic
      ensures MakeChan(c, topic) in evs + [e] <==> MakeChan(c, topic) in evs || MakeChan(c, topic) == e
    {
      OneMoreEvent(evs, e, MakeChan(c, topic));
    }
    OneMoreEvent(evs, e, Insert(c));
    OneMoreEvent(evs, e, Delete(c));
  }

  lemma {:induction false} RunIsRemembered<M>(evs: seq<Event<M>>, c: nat)
    requires Feasible(evs)
    ensures Remembered(Run(evs), evs, c)
    decreases |evs|
  {
    if evs != [] {
      var n := |evs| - 1;
      RunIsRemembered(evs[..n], c);
      RunsAreSafe(evs);
      StepIsRemembered(Run(evs[..n]), evs[..n], Last(evs), c);
      assert evs == evs[..n] + [Last(evs)];
    }
  }

  lemma StepLogs<M>(s: State<M>, e: Event<M>, p: nat)
    requires Can(s, e)
    ensures |PublisherOf(Do(s, e), p).log| == |PublisherOf(s, p).log| + if e.RLock? && e.p == p then 1 else 0
  {
  }

  lemma {:induction false} LogByEvents<M>(evs: seq<Event<M>>, p: nat)
    requires Feasible(evs)
    ensures |PublisherOf(Run(evs), p).log| == Begun(evs, p)
    decreases |evs|
  {
    if evs != [] {
      LogByEvents(evs[..|evs| - 1], p);
      StepLogs(Run(evs[..|evs| - 1]), Last(evs), p);
    }
  }

  lemma SafeStateIsIndexed<M>(s: State<M>, evs: seq<Event<M>>, c: nat, topic: TopicName)
    requires Disciplined(s) && Remembered(s, evs, c)
    ensures c in Index(s, topic) <==> SubscribedTo(evs, c, topic)
  {
    assert c in s.subs ==> (IsRegistered(s.subs[c].life) <==> c in s.registered);
  }

  /** The subscriber map holds exactly who asked for the topic, was put in and not taken out. */
  lemma SubscribersByEvents<M>(evs: seq<Event<M>>, c: nat, topic: TopicName)
    requires Feasible(evs)
    ensures c in Run(evs).subs && Run(evs).subs[c].topic == topic <==> MakeChan(c, topic) in evs
    ensures c in Index(Run(evs), topic) <==> SubscribedTo(evs, c, topic)
  {
    RunIsRemembered(evs, c);
    RunsAreSafe(evs);
    SafeStateIsIndexed(Run(evs), evs, c, topic);
  }

  // ----- A publish call, from its lock event on -----

  lemma {:induction false} FeasiblePrefix<M>(evs: seq<Event<M>>, k: nat)
    requires Feasible(evs) && k <= |evs|
    ensures Feasible(evs[..k])
    ensures k > 0 ==> Feasible(evs[..k - 1]) && Can(Run(evs[..k - 1]), evs[k - 1])
    ensures k > 0 ==> Run(evs[..k]) == Do(Run(evs[..k - 1]), evs[k - 1])
    decreases |evs|
  {
    if k < |evs| {
      var n := |evs| - 1;
      FeasiblePrefix(evs[..n], k);
      assert evs[..n][..k] == evs[..k];
      assert k > 0 ==> evs[..n][..k - 1] == evs[..k - 1];
    } else {
      assert evs[..k] == evs;
    }
  }

  /** The `i`-th call of `p` is about this topic, this message and this audience. */
  ghost predicate CallIs<M>(s: State<M>, p: nat, i: nat, topic: TopicName, msg: M, audience: set<nat>) {
    p in s.pubs && i < |s.pubs[p].log| &&
    s.pubs[p].log[i].topic == topic && s.pubs[p].log[i].msg == msg && s.pubs[p].log[i].audience == audience
  }

  ghost predicate Returned<M>(s: State<M>, p: nat, i: nat) {
    p in s.pubs && i < |s.pubs[p].log| && (!s.pubs[p].looping || i < |s.pubs[p].log| - 1)
  }

  lemma StepKeepsCall<M>(s: State<M>, e: Event<M>, p: nat, i: nat, topic: TopicName, msg: M, audience: set<nat>)
    requires Can(s, e) && CallIs(s, p, i, topic, msg, audience)
    ensures CallIs(Do(s, e), p, i, topic, msg, audience)
    ensures Returned(s, p, i) ==> Returned(Do(s, e), p, i)
    ensures e == RUnlock(p) ==> Returned(Do(s, e), p, i)
  {
  }

  /** The call that event `k` began, in the state these events lead to. */
  ghost predicate CallOf<M>(s: State<M>, evs: seq<Event<M>>, k: nat)
    requires k < |evs| && evs[k].RLock? && Feasible(evs[..k])
  {
    CallIs(s, evs[k].p, Begun(evs[..k], evs[k].p), evs[k].topic, evs[k].msg, Index(Run(evs[..k]), evs[k].topic))
  }

  lemma LockBeginsCall<M>(s: State<M>, p: nat, topic: TopicName, msg: M)
    requires Can(s, RLock(p, topic, msg))
    ensures CallIs(Do(s, RLock(p, topic, msg)), p, |PublisherOf(s, p).log|, topic, msg, Index(s, topic))
  {
  }

  lemma CallBegins<M>(evs: seq<Event<M>>, k: nat)
    requires Feasible(evs) && k == |evs| - 1 && evs[k].RLock?
    ensures CallOf(Run(evs), evs, k)
  {
    LogByEvents(evs[..k], evs[k].p);
    LockBeginsCall(Run(evs[..k]), evs[k].p, evs[k].topic, evs[k].msg);
  }

  lemma ShorterRun<M>(evs: seq<Event<M>>, k: nat)
    requires k < |evs| - 1
    ensures evs[..|evs| - 1][..k] == evs[..k] && evs[..|evs| - 1][k] == evs[k]
    ensures evs[k + 1..] == evs[..|evs| - 1][k + 1..] + [Last(evs)]
  {
  }

  /** From the lock event on, the call keeps its topic, its message and the audience it found; once the unlock event
      has come, it has returned. */
  lemma {:induction false} CallStays<M>(evs: seq<Event<M>>, k: nat)
    requires Feasible(evs) && k < |evs| && evs[k].RLock?
    ensures Feasible(evs[..k]) && CallOf(Run(evs), evs, k)
    ensures RUnlock(evs[k].p) in evs[k + 1..] ==> Returned(Run(evs), evs[k].p, Begun(evs[..k], evs[k].p))
    decreases |evs|
  {
    FeasiblePrefix(evs, k);
    if k < |evs| - 1 {
      var before := evs[..|evs| - 1];
      CallStays(before, k);
      ShorterRun(evs, k);
      StepKeepsCall(Run(before), Last(evs), evs[k].p, Begun(evs[..k], evs[k].p), evs[k].topic, evs[k].msg,
                    Index(Run(evs[..k]), evs[k].topic));
    } else {
      CallBegins(evs, k);
    }
  }

  /** Completeness, by events: a publish that has unlocked again was offered, once, to exactly the channels that were
      made for its topic and stood in the map when it locked; one that never had 64 waiting has it. */
  lemma PublishedToSubscribers<M>(evs: seq<Event<M>>, k: nat, c: nat)
    requires Feasible(evs) && k < |evs| && evs[k].RLock? && RUnlock(evs[k].p) in evs[k + 1..] && c in Run(evs).subs
    ensures var x := Item(evs[k].p, Begun(evs[..k], evs[k].p), evs[k].msg);
            var ch := Run(evs).subs[c].chan;
            && multiset(Items(ch.offers))[x] == (if SubscribedTo(evs[..k], c, evs[k].topic) then 1 else 0)
            && ((forall o <- ch.offers :: o.pending < 64) ==>
                  multiset(ch.received + ch.queue)[x] == if SubscribedTo(evs[..k], c, evs[k].topic) then 1 else 0)
  {
    var p, i := evs[k].p, Begun(evs[..k], evs[k].p);
    CallStays(evs, k);
    SubscribersByEvents(evs[..k], c, evs[k].topic);
    PublishReachesAudience(evs, p, i, c);
    DropsOnlyWhenFull(Run(evs).subs[c].chan.offers, 64);
  }
}
