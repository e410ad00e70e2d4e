/** The order in which one chat client gets its frames. */
module HubOrder {
  import opened Channels
  import opened Hub
  import opened HubSystem
  import opened HubProofs

  predicate SameAuthor(log: seq<Msg>, i: nat, j: nat) {
    i < |log| && j < |log| && log[i].author == log[j].author
  }

  /** What may come before what in the queue of `c`: each author's messages in the order they were stored, history
      oldest first, and all of it before the client's own join note. */
  predicate InOrder(log: seq<Msg>, c: nat, first: Frame, second: Frame) {
    && (first.Chat? && second.Chat? && SameAuthor(log, first.id, second.id) ==> first.id < second.id)
    && (first.History? && second.History? ==> first.id < second.id)
    && (first == JoinNote(c) ==> !second.History?)
  }

  predicate Orderly(log: seq<Msg>, c: nat, frames: seq<Frame>) {
    forall i, j | 0 <= i < j < |frames| :: InOrder(log, c, frames[i], frames[j])
  }

  lemma OrderlyAppend(log: seq<Msg>, c: nat, frames: seq<Frame>, f: Frame)
    ensures Orderly(log, c, frames + [f]) <==>
            Orderly(log, c, frames) && forall g <- frames :: InOrder(log, c, g, f)
  {
    var all := frames + [f];
    if Orderly(log, c, all) {
      assert forall i | 0 <= i < |frames| :: all[i] == frames[i];
      assert all[|frames|] == f;
    }
    if Orderly(log, c, frames) && forall g <- frames :: InOrder(log, c, g, f) {
      assert forall i | 0 <= i < |frames| :: frames[i] in frames;
    }
  }

  // ----- The author of a message under way has stored none since -----

  ghost predicate LatestOfAuthor(s: State, c: nat, i: nat) {
    forall k | 0 <= k < |s.log| && s.log[k].author == c :: k <= i
  }

  ghost predicate AuthorsOk(s: State) {
    forall c <- s.people, i: nat | Carries(s.people[c].phase, Chat(i)) :: LatestOfAuthor(s, c, i)
  }

  lemma StepKeepsAuthors(s: State, e: Event)
    requires Can(s, e) && TimesOk(s) && AuthorsOk(s)
    ensures AuthorsOk(Do(s, e))
  {
    var s' := Do(s, e);
    StepPeople(s, e);
    StepTable(s, e);
    forall c <- s'.people, i: nat | Carries(s'.people[c].phase, Chat(i))
      ensures LatestOfAuthor(s', c, i)
    {
      if c == e.c {
        ChatComesFrom(s, e, i);
        assert !e.Post? ==> LatestOfAuthor(s, c, i);
      } else {
        StepFrame(s, e, c);
        assert LatestOfAuthor(s, c, i);
      }
    }
  }

  // ----- Offers stay in order -----

  ghost predicate OffersOk(s: State, c: nat)
    requires c in s.people
  {
    Orderly(s.log, c, Items(s.people[c].chan.offers))
  }

  ghost predicate OrderOk(s: State) {
    AuthorsOk(s) && forall c <- s.people :: OffersOk(s, c)
  }

  lemma OfferedIsTallied<T>(offers: seq<Offer<T>>, f: T)
    ensures f in Items(offers) <==> Tally(offers, f) > 0
  {
  }

  /** What was offered before of a row, and what that says. */
  lemma OfferedBefore(s: State, c: nat, f: Frame)
    requires Inv(s) && c in s.people && f in Items(s.people[c].chan.offers)
    ensures f.Chat? ==> Reached(s, f.id, c)
    ensures f.History? ==> f.id in Replayed(s.people[c])
    ensures f == JoinNote(c) ==> !MayStillAnnounce(c, s.people[c].phase)
  {
    OfferedIsTallied(s.people[c].chan.offers, f);
    if f.Chat? || f.History? {
      assert CopiesOk(s, c, f.id);
    }
    assert QueueOk(c, s.people[c]);
  }

  /** A longer table does not change the order of rows already in it. */
  lemma OrderInLongerTable(s: State, c: nat, log: seq<Msg>)
    requires Inv(s) && c in s.people && OffersOk(s, c) && s.log <= log
    ensures Orderly(log, c, Items(s.people[c].chan.offers))
  {
    var frames := Items(s.people[c].chan.offers);
    forall i, j | 0 <= i < j < |frames|
      ensures InOrder(log, c, frames[i], frames[j])
    {
      assert frames[i] in frames && frames[j] in frames;
      OfferedBefore(s, c, frames[i]);
      OfferedBefore(s, c, frames[j]);
      assert InOrder(s.log, c, frames[i], frames[j]);
    }
  }

  lemma SentIsLater(s: State, c: nat, t: nat, g: Frame)
    requires Inv(s) && AuthorsOk(s) && Can(s, Send(c, t)) && g in Items(s.people[t].chan.offers)
    ensures InOrder(s.log, t, g, s.people[c].phase.frame)
  {
    assert Timely(c, s.people[c], s.now);
    if s.people[c].phase.frame.Chat? && g.Chat? {
      OfferedBefore(s, t, g);
      ChatIsLater(s, c, t, g.id);
    }
  }

  /** The message being sent is the author's latest, and the target has not been tried with it. */
  lemma ChatIsLater(s: State, c: nat, t: nat, earlier: nat)
    requires CastsOk(s) && AuthorsOk(s) && Can(s, Send(c, t)) && s.people[c].phase.frame.Chat?
    requires Reached(s, earlier, t)
    ensures SameAuthor(s.log, earlier, s.people[c].phase.frame.id) ==> earlier < s.people[c].phase.frame.id
  {
    var i := s.people[c].phase.frame.id;
    assert AuthorOk(s, c);
    assert Carries(s.people[c].phase, Chat(i));
    assert LatestOfAuthor(s, c, i);
  }

  lemma ReplayedIsLater(s: State, c: nat, g: Frame)
    requires Inv(s) && Can(s, Replay(c)) && g in Items(s.people[c].chan.offers)
    ensures InOrder(s.log, c, g, History(s.people[c].phase.rest[0]))
  {
    OfferedBefore(s, c, g);
    if g.History? {
      assert Timely(c, s.people[c], s.now) && CutOk(s, s.people[c]);
      ReplayedPrecedes(s, c, g.id);
    }
  }

  lemma ReplayedPrecedes(s: State, c: nat, id: nat)
    requires Can(s, Replay(c)) && id in Replayed(s.people[c])
    requires Timely(c, s.people[c], s.now) && CutOk(s, s.people[c])
    ensures id < s.people[c].phase.rest[0]
  {
    var p := s.people[c];
    RecentIncreases(s.log[..p.cut.value.len], p.room, HISTORY_LIMIT);
    FrontPrecedesBack(p.cut.value.replay, |p.cut.value.replay| - |p.phase.rest|, id);
  }

  lemma FrontPrecedesBack(ids: seq<nat>, n: nat, id: nat)
    requires n < |ids| && id in ids[..n] && forall j, k | 0 <= j < k < |ids| :: ids[j] < ids[k]
    ensures id < ids[n..][0]
  {
    var k :| 0 <= k < n && ids[..n][k] == id;
    assert ids[k] == id;
  }

  lemma NewOfferIsLater(s: State, e: Event, d: nat, g: Frame)
    requires Can(s, e) && Inv(s) && AuthorsOk(s) && d in s.people
    requires NewOffers(s, e, d) != [] && g in Items(s.people[d].chan.offers)
    ensures |NewOffers(s, e, d)| == 1 && InOrder(s.log, d, g, NewOffers(s, e, d)[0].item)
  {
    if e.Send? {
      SentIsLater(s, e.c, d, g);
    } else {
      ReplayedIsLater(s, d, g);
    }
  }

  lemma OrderedOffers(log: seq<Msg>, c: nat, offers: seq<Offer<Frame>>, more: seq<Offer<Frame>>)
    requires Orderly(log, c, Items(offers)) && |more| <= 1
    requires more != [] ==> forall g <- Items(offers) :: InOrder(log, c, g, more[0].item)
    ensures Orderly(log, c, Items(offers + more))
  {
    if more == [] {
      assert offers + more == offers;
    } else {
      assert Items(offers + more) == Items(offers) + [more[0].item];
      OrderlyAppend(log, c, Items(offers), more[0].item);
    }
  }

  /** Nothing is offered while the table grows. */
  lemma OffersOrRows(s: State, e: Event, d: nat)
    requires Can(s, e) && d in s.people
    ensures s.log <= Do(s, e).log && (NewOffers(s, e, d) != [] ==> Do(s, e).log == s.log)
    ensures |NewOffers(s, e, d)| <= 1
  {
    StepTable(s, e);
  }

  lemma StepKeepsOffers(s: State, e: Event, d: nat)
    requires Can(s, e) && Inv(s) && OrderOk(s) && d in s.people
    ensures d in Do(s, e).people && OffersOk(Do(s, e), d)
  {
    StepOffers(s, e, d);
    OffersOrRows(s, e, d);
    var log, offers, more := Do(s, e).log, s.people[d].chan.offers, NewOffers(s, e, d);
    OrderInLongerTable(s, d, log);
    if more != [] {
      forall g <- Items(offers)
        ensures InOrder(log, d, g, more[0].item)
      {
        NewOfferIsLater(s, e, d, g);
      }
    }
    OrderedOffers(log, d, offers, more);
  }

  lemma StepKeepsOrder(s: State, e: Event)
    requires Can(s, e) && Inv(s) && OrderOk(s)
    ensures OrderOk(Do(s, e))
  {
    StepKeepsAuthors(s, e);
    StepPeople(s, e);
    forall d <- Do(s, e).people
      ensures OffersOk(Do(s, e), d)
    {
      if d in s.people {
        StepKeepsOffers(s, e, d);
      }
    }
  }

  lemma {:induction false} RunsKeepOrder(evs: seq<Event>)
    requires Feasible(evs)
    ensures OrderOk(Run(evs))
    decreases |evs|
  {
    if evs != [] {
      RunsKeepInv(evs[..|evs| - 1]);
      RunsKeepOrder(evs[..|evs| - 1]);
      StepKeepsOrder(Run(evs[..|evs| - 1]), evs[|evs| - 1]);
    }
  }

  // ----- Main result -----

  lemma {:induction false} AcceptedIsOrderly(log: seq<Msg>, c: nat, offers: seq<Offer<Frame>>, cap: nat)
    requires Orderly(log, c, Items(offers))
    ensures Orderly(log, c, Accepted(offers, cap))
    ensures forall f <- Accepted(offers, cap) :: f in Items(offers)
  {
    if offers != [] {
      var n := |offers| - 1;
      assert Items(offers) == Items(offers[..n]) + [offers[n].item];
      OrderlyAppend(log, c, Items(offers[..n]), offers[n].item);
      AcceptedIsOrderly(log, c, offers[..n], cap);
      OrderlyAppend(log, c, Accepted(offers[..n], cap), offers[n].item);
    }
  }

  /** In what a client has been sent followed by what waits for it, each author's messages come in the order they were
      stored, the history comes oldest first, and all of it before the client's own join note. */
  lemma FramesComeInOrder(evs: seq<Event>, c: nat)
    requires Feasible(evs) && c in Run(evs).people
    ensures var ch := Run(evs).people[c].chan;
            Orderly(Run(evs).log, c, ch.received + ch.queue)
  {
    RunsKeepInv(evs);
    RunsKeepOrder(evs);
    var s := Run(evs);
    assert OffersOk(s, c) && QueueOk(c, s.people[c]);
    AcceptedIsOrderly(s.log, c, s.people[c].chan.offers, SEND_CAPACITY);
  }
}
