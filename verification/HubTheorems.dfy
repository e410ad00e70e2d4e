/** What the chat hub promises over whole runs, and the run on which a message is lost. */
module HubTheorems {
  import opened Channels
  import opened Hub
  import opened HubSystem
  import opened HubProofs

  // ----- Rooms and closing -----

  /** The index holds exactly the clients between the two locked sections, each under its own room only. */
  lemma RoomIndexExact(evs: seq<Event>, c: nat, room: string)
    requires Feasible(evs)
    ensures var s := Run(evs);
            && (c in Members(s.rooms, room) <==>
                  c in s.people && InRoom(c, s.people[c].phase) && s.people[c].room == room)
            && (room in s.rooms ==> s.rooms[room] != {})
  {
    RunsKeepInv(evs);
    var s := Run(evs);
    if c in Members(s.rooms, room) {
      assert s.rooms[room] <= s.people.Keys;
    }
  }

  function Closes(evs: seq<Event>, c: nat): nat {
    if evs == [] then 0
    else Closes(evs[..|evs| - 1], c) + if evs[|evs| - 1] == Close(c) then 1 else 0
  }

  lemma CloseTime(s: State, e: Event, c: nat)
    requires Can(s, e) && TimesOk(s)
    ensures c in Do(s, e).people && Do(s, e).people[c].closedAt.Some? <==>
            e == Close(c) || (c in s.people && s.people[c].closedAt.Some?)
    ensures e == Close(c) ==> s.people[c].closedAt == None
  {
    StepPeople(s, e);
    if c != e.c && c in s.people {
      StepFrame(s, e, c);
    } else if c == e.c {
      assert c in s.people ==> Timely(c, s.people[c], s.now);
      OwnCloses(s, e);
    }
  }

  lemma OwnCloses(s: State, e: Event)
    requires Can(s, e) && (e.c in s.people ==> Timely(e.c, s.people[e.c], s.now))
    ensures Do(s, e).people[e.c].closedAt.Some? <==>
            e == Close(e.c) || (e.c in s.people && s.people[e.c].closedAt.Some?)
    ensures e == Close(e.c) ==> s.people[e.c].closedAt == None
  {
    if e.c in s.people && s.people[e.c].closedAt.Some? {
      OwnCloseTime(s, e);
    }
  }

  /** Every client's queue is closed at most once, and it is closed exactly when that has happened. */
  lemma {:induction false} ClosedAtMostOnce(evs: seq<Event>, c: nat)
    requires Feasible(evs)
    ensures Closes(evs, c) == if c in Run(evs).people && Run(evs).people[c].chan.closed then 1 else 0
    decreases |evs|
  {
    if evs != [] {
      var before := evs[..|evs| - 1];
      ClosedAtMostOnce(before, c);
      RunsKeepInv(before);
      RunsKeepInv(evs);
      CloseTime(Run(before), evs[|evs| - 1], c);
    }
  }

  // ----- Sends that meet a closed queue -----

  /** Every panicking send in any run: the snapshot was taken before the target's removal, the target's queue was
      closed before the send, and it was not the sender's own. */
  lemma HitsExplained(evs: seq<Event>, h: Hit)
    requires Feasible(evs) && h in Run(evs).hits
    ensures h.sender != h.target && h.target in Run(evs).people
    ensures var t := Run(evs).people[h.target];
            t.removedAt.Some? && t.closedAt.Some? &&
            h.snapAt < t.removedAt.value < t.closedAt.value < h.sentAt
  {
    RunsKeepInv(evs);
  }

  /** The next send panics exactly when its target has been closed; the sender's own queue never is, and a
      client already removed when the snapshot was taken is not a target at all. A panic ends a leave, strands a join,
      and sends a reader into its deferred leave. */
  lemma SendPanicsIffClosed(evs: seq<Event>, c: nat, t: nat)
    requires Feasible(evs) && Can(Run(evs), Send(c, t))
    ensures var s := Run(evs);
            && (Do(s, Send(c, t)).hits != s.hits <==> s.people[t].closedAt.Some?)
            && (s.people[t].closedAt.Some? ==> c != t)
            && (s.people[t].removedAt.Some? ==> s.people[c].phase.at < s.people[t].removedAt.value)
            && (s.people[t].closedAt.Some? ==>
                  Do(s, Send(c, t)).people[c].phase ==
                  if s.people[c].phase.frame.LeaveNote? then Gone
                  else if s.people[c].phase.frame.JoinNote? then Stranded else Leaving)
  {
    RunsKeepInv(evs);
    var s := Run(evs);
    StepHits(s, Send(c, t));
    assert Timely(t, s.people[t], s.now) && Timely(c, s.people[c], s.now);
    assert InAt(s.people[t], s.people[c].room, s.people[c].phase.at);
  }

  // ----- No gap between history and live chat -----

  /** Everything the author does about a stored message is done: its broadcast ended without a panic. */
  predicate BroadcastOver(s: State, i: nat)
    requires i < |s.log|
  {
    i < |s.casts| && s.log[i].author in s.people &&
    !Carries(s.people[s.log[i].author].phase, Chat(i)) &&
    !(s.casts[i].snap.Some? && s.casts[i].snap.value.aborted)
  }

  /** Past its replay, with a history query that worked. */
  predicate CaughtUp(p: Person) {
    p.cut.Some? && p.cut.value.ok && !p.phase.Replaying?
  }

  /** Among the last twenty rows of the room when the history was read. */
  predicate InHistory(s: State, p: Person, i: nat) {
    p.cut.Some? && p.cut.value.len <= |s.log| && i in Recent(s.log[..p.cut.value.len], p.room, 20)
  }

  function Bit(b: bool): nat {
    if b then 1 else 0
  }

  /** A message is live for exactly those in its room when the author took the snapshot. */
  lemma AudienceExact(evs: seq<Event>, i: nat, c: nat)
    requires Feasible(evs) && i < |Run(evs).log| == |Run(evs).casts| && Run(evs).casts[i].snap.Some?
    ensures c in Run(evs).casts[i].snap.value.audience <==>
            c in Run(evs).people && InAt(Run(evs).people[c], Run(evs).log[i].room, Run(evs).casts[i].snap.value.at)
  {
    RunsKeepInv(evs);
    assert AudienceOk(Run(evs), i);
  }

  /** A client's copies of any row, in every run and at every moment, broadcasts cut short included: one live exactly
      if the author's loop got to the client, one from history exactly if the replay got to the row. */
  lemma CopiesSoFar(evs: seq<Event>, i: nat, c: nat)
    requires Feasible(evs) && c in Run(evs).people
    ensures var s := Run(evs);
            var offers := s.people[c].chan.offers;
            && Tally(offers, Chat(i)) == Bit(Reached(s, i, c))
            && Tally(offers, History(i)) == Bit(i in Replayed(s.people[c]))
  {
    RunsKeepInv(evs);
    assert CopiesOk(Run(evs), c, i);
  }

  /** A client's copies of any stored message whose broadcast is over and met no closed queue: one from history if
      the row was in it, one live if the snapshot fell while the client was in the room. So a message comes twice
      exactly when both hold. */
  lemma CopiesExact(evs: seq<Event>, i: nat, c: nat)
    requires Feasible(evs) && i < |Run(evs).log| && c in Run(evs).people
    requires CaughtUp(Run(evs).people[c]) && BroadcastOver(Run(evs), i)
    ensures var s := Run(evs);
            var p := s.people[c];
            && s.casts[i].snap.Some?
            && Tally(p.chan.offers, History(i)) == Bit(InHistory(s, p, i))
            && Tally(p.chan.offers, Chat(i)) == Bit(InAt(p, s.log[i].room, s.casts[i].snap.value.at))
  {
    RunsKeepInv(evs);
    var s := Run(evs);
    assert CopiesOk(s, c, i) && CastOk(s, i) && AudienceOk(s, i) && CutOk(s, s.people[c]);
  }

  /** No gap: of the messages whose broadcast is over and met no closed queue, a client still in the room is offered,
      exactly once, each one stored after its history was read, and at least once each of the last twenty stored
      before. */
  lemma NoGap(evs: seq<Event>, i: nat, c: nat)
    requires Feasible(evs) && i < |Run(evs).log| && c in Run(evs).people
    requires var s := Run(evs);
             CaughtUp(s.people[c]) && BroadcastOver(s, i) &&
             s.people[c].room == s.log[i].room && InRoom(c, s.people[c].phase)
    ensures var s := Run(evs);
            var p := s.people[c];
            && |s.casts| == |s.log| && s.casts[i].snap.Some? && p.regAt.Some?
            && (i >= p.cut.value.len <==> p.cut.value.at < s.casts[i].savedAt)
            && (i >= p.cut.value.len ==>
                  Tally(p.chan.offers, Chat(i)) == 1 && Tally(p.chan.offers, History(i)) == 0)
            && (InHistory(s, p, i) ==> i < p.cut.value.len && Tally(p.chan.offers, History(i)) == 1)
            && (InHistory(s, p, i) ==>
                  Tally(p.chan.offers, Chat(i)) == Bit(p.regAt.value < s.casts[i].snap.value.at))
  {
    CopiesExact(evs, i, c);
    RunsKeepInv(evs);
    var s := Run(evs);
    var p := s.people[c];
    assert CastOk(s, i) && CutOk(s, p) && Timely(c, p, s.now);
    RecentIncreases(s.log[..p.cut.value.len], p.room, HISTORY_LIMIT);
  }

  /** A queue that never dropped a frame has passed on, or still holds, exactly the frames it was offered. */
  lemma OfferedIsReceived(evs: seq<Event>, c: nat, f: Frame)
    requires Feasible(evs) && c in Run(evs).people
    requires Dropped(Run(evs).people[c].chan.offers, 32) == []
    ensures var ch := Run(evs).people[c].chan;
            multiset(ch.received + ch.queue)[f] == Tally(ch.offers, f)
  {
    RunsKeepInv(evs);
    assert QueueOk(c, Run(evs).people[c]);
    NoLagNoLoss(Run(evs).people[c].chan.offers, 32);
  }

  /** No gap, up to what arrives: if the client's queue never dropped a frame, the messages of NoGap are among what its
      writer took and what still waits, as often as they were offered. */
  lemma NoGapReceived(evs: seq<Event>, i: nat, c: nat)
    requires Feasible(evs) && i < |Run(evs).log| && c in Run(evs).people
    requires var s := Run(evs);
             CaughtUp(s.people[c]) && BroadcastOver(s, i) &&
             s.people[c].room == s.log[i].room && InRoom(c, s.people[c].phase) &&
             Dropped(s.people[c].chan.offers, 32) == []
    ensures var s := Run(evs);
            var p := s.people[c];
            var got := multiset(p.chan.received + p.chan.queue);
            && |s.casts| == |s.log| && s.casts[i].snap.Some? && p.regAt.Some?
            && (i >= p.cut.value.len ==> got[Chat(i)] == 1 && got[History(i)] == 0)
            && (InHistory(s, p, i) ==>
                  got[History(i)] == 1 && got[Chat(i)] == Bit(p.regAt.value < s.casts[i].snap.value.at))
  {
    NoGap(evs, i, c);
    OfferedIsReceived(evs, c, Chat(i));
    OfferedIsReceived(evs, c, History(i));
  }

  /** The only way to miss a live message: its broadcast was cut short by a panic, and somebody it had still to
      reach had left after the snapshot and closed the queue. */
  lemma MissedOnlyByPanic(evs: seq<Event>, i: nat, c: nat)
    requires Feasible(evs) && i < |Run(evs).log| && |Run(evs).casts| == |Run(evs).log|
    requires var s := Run(evs);
             s.casts[i].snap.Some? && c in s.casts[i].snap.value.audience && c in s.people &&
             Tally(s.people[c].chan.offers, Chat(i)) == 0 &&
             !(s.log[i].author in s.people && Carries(s.people[s.log[i].author].phase, Chat(i)))
    ensures var s := Run(evs);
            var snap := s.casts[i].snap.value;
            snap.aborted &&
            exists t <- snap.audience - snap.reached ::
              t in s.people && s.people[t].closedAt.Some? && s.people[t].removedAt.Some? &&
              snap.at < s.people[t].removedAt.value
  {
    RunsKeepInv(evs);
    var s := Run(evs);
    assert CastOk(s, i) && CopiesOk(s, c, i) && AudienceOk(s, i);
    var snap := s.casts[i].snap.value;
    var t :| t in snap.audience - snap.reached && t in s.people && s.people[t].chan.closed;
    assert Timely(t, s.people[t], s.now) && InAt(s.people[t], s.log[i].room, snap.at);
  }

  /** Once the author is done with a message, everybody who was in the room at its snapshot has been offered it
      exactly once, if and only if the broadcast met no closed queue. */
  lemma AllReachedIffNoPanic(evs: seq<Event>, i: nat)
    requires Feasible(evs) && i < |Run(evs).log| && |Run(evs).casts| == |Run(evs).log|
    requires var s := Run(evs);
             s.casts[i].snap.Some? &&
             !(s.log[i].author in s.people && Carries(s.people[s.log[i].author].phase, Chat(i)))
    ensures var s := Run(evs);
            var snap := s.casts[i].snap.value;
            (forall c <- snap.audience :: c in s.people && Tally(s.people[c].chan.offers, Chat(i)) == 1) <==>
            !snap.aborted
  {
    RunsKeepInv(evs);
    var s := Run(evs);
    var snap := s.casts[i].snap.value;
    assert CastOk(s, i) && AudienceOk(s, i);
    forall c <- snap.audience
      ensures c in s.people && CopiesOk(s, c, i)
    {
    }
  }

  // ----- Queues -----

  /** A queue with no writer yet drops exactly from the thirty-third offer on; at most 20 history rows and one
      join note are the client's own, so up to 11 foreign broadcasts landing during join cause no drop. */
  lemma LosslessJoin(evs: seq<Event>, c: nat)
    requires Feasible(evs) && c in Run(evs).people && Run(evs).people[c].writer == NotStarted
    ensures var offers := Run(evs).people[c].chan.offers;
            && (Dropped(offers, 32) == [] <==> |offers| <= 32)
            && |offers| <= 20 + 1 + ForeignCount(offers, c)
            && (ForeignCount(offers, c) <= 11 ==>
                  Dropped(offers, 32) == [] && Run(evs).people[c].chan.queue == Items(offers))
  {
    RunsKeepInv(evs);
    assert QueueOk(c, Run(evs).people[c]) && CutOk(Run(evs), Run(evs).people[c]);
    UnreadDrops(Run(evs).people[c]);
    OwnOffersAreFew(c, Run(evs).people[c]);
  }

  lemma UnreadDrops(p: Person)
    requires Unread(p) && Conserved(p.chan) && p.chan.cap == SEND_CAPACITY
    ensures Dropped(p.chan.offers, SEND_CAPACITY) == [] <==> |p.chan.offers| <= SEND_CAPACITY
    ensures |p.chan.offers| <= SEND_CAPACITY ==> p.chan.queue == Items(p.chan.offers)
  {
    DropsOnlyWhenFull(p.chan.offers, SEND_CAPACITY);
    if |p.chan.offers| > SEND_CAPACITY {
      assert p.chan.offers[SEND_CAPACITY].pending == SEND_CAPACITY;
    } else {
      NoLagNoLoss(p.chan.offers, SEND_CAPACITY);
    }
  }

  lemma OwnOffersAreFew(c: nat, p: Person)
    requires QueueOk(c, p)
    ensures |p.chan.offers| <= HISTORY_LIMIT + 1 + ForeignCount(p.chan.offers, c)
  {
  }

  /** Offered is accepted plus dropped; accepted is what the writer took followed by what waits, in order; a drop
      needs 32 frames waiting. */
  lemma HubQueuesConserve(evs: seq<Event>, c: nat)
    requires Feasible(evs) && c in Run(evs).people
    ensures var ch := Run(evs).people[c].chan;
            && Accepted(ch.offers, 32) == ch.received + ch.queue
            && multiset(Items(ch.offers)) ==
               multiset(ch.received + ch.queue) + multiset(Dropped(ch.offers, 32))
            && |ch.queue| <= 32
            && (Dropped(ch.offers, 32) == [] <==>
                  forall i | 0 <= i < |ch.offers| :: ch.offers[i].pending < 32)
  {
    RunsKeepInv(evs);
    assert QueueOk(c, Run(evs).people[c]);
    OfferedIsAcceptedPlusDropped(Run(evs).people[c].chan.offers, 32);
    DropsOnlyWhenFull(Run(evs).people[c].chan.offers, 32);
  }
}
