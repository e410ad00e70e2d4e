/** Preservation of the chat hub's invariants, one concern at a time. */
module HubProofs {
  import opened Channels
  import opened Hub
  import opened HubSystem

  // ----- Frames: what a step leaves alone -----

  /** Everybody but the actor and the target of a send is untouched; a target only has its queue offered to. */
  lemma StepFrame(s: State, e: Event, d: nat)
    requires Can(s, e) && d in s.people && d != e.c
    ensures d in Do(s, e).people && Do(s, e).now == s.now + 1
    ensures Do(s, e).people[d] ==
            if e.Send? && d == e.t && !s.people[d].chan.closed
            then s.people[d].(chan := TrySend(s.people[d].chan, s.people[e.c].phase.frame))
            else s.people[d]
  {
  }

  lemma StepPeople(s: State, e: Event)
    requires Can(s, e)
    ensures Do(s, e).now == s.now + 1
    ensures Do(s, e).people.Keys == s.people.Keys + {e.c}
  {
  }

  // ----- Times -----

  predicate Early(e: Event) {
    e.Connect? || e.Register? || e.Query? || e.Replay? || e.StartJoinNote?
  }

  lemma EarlyIsTimely(s: State, e: Event)
    requires Can(s, e) && Early(e) && (e.c in s.people ==> Timely(e.c, s.people[e.c], s.now))
    ensures Timely(e.c, Do(s, e).people[e.c], s.now + 1)
  {
  }

  lemma OpenSendIsTimely(s: State, c: nat, t: nat)
    requires Can(s, Send(c, t)) && Timely(c, s.people[c], s.now) && !s.people[t].chan.closed
    ensures Timely(c, Do(s, Send(c, t)).people[c], s.now + 1)
  {
  }

  lemma PanickingSendIsTimely(s: State, c: nat, t: nat)
    requires Can(s, Send(c, t)) && Timely(c, s.people[c], s.now) && s.people[t].chan.closed
    ensures Timely(c, Do(s, Send(c, t)).people[c], s.now + 1)
  {
  }

  lemma CastIsTimely(s: State, e: Event)
    requires Can(s, e) && (e.Snapshot? || e.Finish?) && Timely(e.c, s.people[e.c], s.now)
    ensures Timely(e.c, Do(s, e).people[e.c], s.now + 1)
  {
  }

  lemma LateIsTimely(s: State, e: Event)
    requires Can(s, e) && !Early(e) && !e.Snapshot? && !e.Send? && !e.Finish? && Timely(e.c, s.people[e.c], s.now)
    ensures Timely(e.c, Do(s, e).people[e.c], s.now + 1)
  {
  }

  lemma StepKeepsTimes(s: State, e: Event)
    requires Can(s, e) && TimesOk(s)
    ensures TimesOk(Do(s, e))
  {
    var s' := Do(s, e);
    StepPeople(s, e);
    forall d <- s'.people
      ensures Timely(d, s'.people[d], s'.now)
    {
      if d == e.c {
        if Early(e) {
          EarlyIsTimely(s, e);
        } else if e.Send? {
          if s.people[e.t].chan.closed {
            PanickingSendIsTimely(s, e.c, e.t);
          } else {
            OpenSendIsTimely(s, e.c, e.t);
          }
        } else if e.Snapshot? || e.Finish? {
          CastIsTimely(s, e);
        } else {
          LateIsTimely(s, e);
        }
      } else {
        StepFrame(s, e, d);
      }
    }
  }

  // ----- Rooms -----

  lemma StepIndex(s: State, e: Event)
    requires Can(s, e)
    ensures Do(s, e).rooms ==
            if e.Register? then Enter(s.rooms, s.people[e.c].room, e.c)
            else if e.Remove? then Exit(s.rooms, s.people[e.c].room, e.c) else s.rooms
    ensures e.c in s.people ==> Do(s, e).people[e.c].room == s.people[e.c].room
  {
  }

  lemma StepRoom(s: State, e: Event)
    requires Can(s, e) && (e.c in s.people ==> Timely(e.c, s.people[e.c], s.now))
    ensures InRoom(e.c, Do(s, e).people[e.c].phase) <==>
            e.Register? || (!e.Remove? && e.c in s.people && InRoom(e.c, s.people[e.c].phase))
    ensures e.Register? ==> !InRoom(e.c, s.people[e.c].phase)
    ensures e.Remove? ==> InRoom(e.c, s.people[e.c].phase)
  {
  }

  lemma IndexFollows(rooms: map<string, set<nat>>, room: string, c: nat, r: string, d: nat)
    ensures d in Members(Enter(rooms, room, c), r) <==> d in Members(rooms, r) || (d == c && r == room)
    ensures d in Members(Exit(rooms, room, c), r) <==> d in Members(rooms, r) && !(d == c && r == room)
  {
  }

  lemma IndexEntry(s: State, e: Event, d: nat, r: string)
    requires Can(s, e) && TimesOk(s) && RoomsOk(s) && d in Do(s, e).people
    ensures d in Members(Do(s, e).rooms, r) <==> InRoom(d, Do(s, e).people[d].phase) && Do(s, e).people[d].room == r
  {
    StepPeople(s, e);
    StepIndex(s, e);
    StepRoom(s, e);
    if e.c in s.people {
      IndexFollows(s.rooms, s.people[e.c].room, e.c, r, d);
    }
    if d != e.c {
      StepFrame(s, e, d);
    } else if e.Connect? {
      assert e.c !in Members(s.rooms, r);
    }
  }

  lemma StepKeepsRooms(s: State, e: Event)
    requires Can(s, e) && TimesOk(s) && RoomsOk(s)
    ensures RoomsOk(Do(s, e))
  {
    var s' := Do(s, e);
    StepPeople(s, e);
    StepIndex(s, e);
    forall d <- s'.people, r: string
      ensures d in Members(s'.rooms, r) <==> InRoom(d, s'.people[d].phase) && s'.people[d].room == r
    {
      IndexEntry(s, e, d, r);
    }
  }

  // ----- Targets and audiences -----

  /** Who was in a room at a past moment does not change any more. */
  lemma PastIsFixed(s: State, e: Event, d: nat, room: string, at: nat)
    requires Can(s, e) && at < s.now
    requires d in s.people && Timely(d, s.people[d], s.now)
    ensures d in Do(s, e).people && (InAt(Do(s, e).people[d], room, at) <==> InAt(s.people[d], room, at))
  {
    if d != e.c {
      StepFrame(s, e, d);
    } else {
      StepIndex(s, e);
      OwnTimesGrow(s, e);
    }
  }

  lemma OwnTimesGrow(s: State, e: Event)
    requires Can(s, e) && !e.Connect? && Timely(e.c, s.people[e.c], s.now)
    ensures var p, p' := s.people[e.c], Do(s, e).people[e.c];
            && p'.regAt == (if e.Register? then Some(s.now) else p.regAt)
            && p'.removedAt == (if e.Remove? then Some(s.now) else p.removedAt)
            && (e.Register? ==> p.regAt == None) && (e.Remove? ==> p.removedAt == None)
  {
  }

  /** The members a snapshot finds are those in the room at that moment. */
  lemma SnapshotIsPresent(s: State, c: nat, room: string, d: nat)
    requires Can(s, Snapshot(c)) && TimesOk(s) && RoomsOk(s)
    ensures var s' := Do(s, Snapshot(c));
            d in Members(s.rooms, room) <==> d in s'.people && InAt(s'.people[d], room, s.now)
  {
    StepPeople(s, Snapshot(c));
    if d in s.people {
      assert Timely(d, s.people[d], s.now);
      if d != c {
        StepFrame(s, Snapshot(c), d);
      } else {
        OwnTimesGrow(s, Snapshot(c));
        StepIndex(s, Snapshot(c));
      }
    }
  }

  /** The only ways into and along a broadcast. */
  lemma SendingComesFrom(s: State, e: Event)
    requires Can(s, e) && Do(s, e).people[e.c].phase.Sending?
    ensures e.c in s.people && Do(s, e).people[e.c].room == s.people[e.c].room
    ensures var q, q' := s.people[e.c].phase, Do(s, e).people[e.c].phase;
            if e.Snapshot? then
              q == Announcing(q'.frame) && q'.at == s.now && q'.targets == Members(s.rooms, s.people[e.c].room)
            else
              q.Sending? && q.frame == q'.frame && q.at == q'.at &&
              q'.targets == (if e.Send? then q.targets - {e.t} else q.targets)
  {
  }

  lemma StepKeepsTargets(s: State, e: Event)
    requires Can(s, e) && TimesOk(s) && RoomsOk(s) && TargetsOk(s)
    ensures TargetsOk(Do(s, e))
  {
    var s' := Do(s, e);
    StepPeople(s, e);
    forall c <- s'.people | s'.people[c].phase.Sending?
      ensures forall t <- s'.people[c].phase.targets ::
                t in s'.people && InAt(s'.people[t], s'.people[c].room, s'.people[c].phase.at)
    {
      if c != e.c {
        StepFrame(s, e, c);
      } else {
        SendingComesFrom(s, e);
      }
      var room, at := s'.people[c].room, s'.people[c].phase.at;
      forall t <- s'.people[c].phase.targets
        ensures t in s'.people && InAt(s'.people[t], room, at)
      {
        if c == e.c && e.Snapshot? {
          SnapshotIsPresent(s, c, room, t);
        } else {
          assert s.people[c].phase.Sending? && t in s.people[c].phase.targets;
          assert Timely(c, s.people[c], s.now);
          PastIsFixed(s, e, t, room, at);
        }
      }
    }
  }

  // ----- The message table and its broadcasts -----

  lemma StepTable(s: State, e: Event)
    requires Can(s, e)
    ensures var s' := Do(s, e);
            if e.Post? && e.ok then
              s'.log == s.log + [Msg(s.people[e.c].room, e.c, Truncated(e.text))] &&
              s'.casts == s.casts + [Cast(s.now, None)]
            else s'.log == s.log && |s'.casts| == |s.casts|
  {
  }

  /** What a step does to the record of one broadcast. */
  function NextCast(s: State, e: Event, i: nat): Cast
    requires Can(s, e) && i < |s.casts|
  {
    var cast := s.casts[i];
    if e.Snapshot? && s.people[e.c].phase.frame == Chat(i) then
      cast.(snap := Some(Snap(s.now, Members(s.rooms, s.people[e.c].room), {}, false)))
    else if e.Send? && s.people[e.c].phase.frame == Chat(i) then
      if s.people[e.t].chan.closed then cast.(snap := Some(cast.snap.value.(aborted := true)))
      else cast.(snap := Some(cast.snap.value.(reached := cast.snap.value.reached + {e.t})))
    else cast
  }

  lemma StepCast(s: State, e: Event, i: nat)
    requires Can(s, e) && i < |s.casts|
    ensures i < |Do(s, e).casts| && Do(s, e).casts[i] == NextCast(s, e, i)
  {
  }

  /** How the actor can come to carry a chat message, and how it goes on. */
  lemma ChatComesFrom(s: State, e: Event, i: nat)
    requires Can(s, e) && Carries(Do(s, e).people[e.c].phase, Chat(i))
    ensures if e.Post? then
              e.ok && i == |s.log| && Do(s, e).people[e.c].phase.Announcing?
            else
              e.c in s.people && Carries(s.people[e.c].phase, Chat(i)) &&
              (Do(s, e).people[e.c].phase.Announcing? ==>
                 s.people[e.c].phase.Announcing? && !e.Snapshot? && !e.Send?) &&
              (e.Send? ==> !s.people[e.t].chan.closed)
  {
  }

  lemma StepKeepsAuthor(s: State, e: Event, c: nat)
    requires Can(s, e) && CastsOk(s) && c in Do(s, e).people
    ensures |Do(s, e).casts| == |Do(s, e).log| && AuthorOk(Do(s, e), c)
  {
    var s' := Do(s, e);
    StepPeople(s, e);
    StepTable(s, e);
    var phase := s'.people[c].phase;
    if (phase.Announcing? || phase.Sending?) && phase.frame.Chat? {
      var i := phase.frame.id;
      if c != e.c {
        StepFrame(s, e, c);
        assert AuthorOk(s, c) && (e.c in s.people ==> AuthorOk(s, e.c));
        StepCast(s, e, i);
      } else {
        ChatComesFrom(s, e, i);
        if !e.Post? {
          assert AuthorOk(s, c);
          StepCast(s, e, i);
          if phase.Sending? {
            SendingComesFrom(s, e);
          }
        }
      }
    }
  }

  /** When the author of an unfinished broadcast acts, it is to go on with it, to finish it, or to panic. */
  lemma AuthorActs(s: State, e: Event, i: nat)
    requires Can(s, e) && e.c in s.people && Carries(s.people[e.c].phase, Chat(i))
    ensures var q, q' := s.people[e.c].phase, Do(s, e).people[e.c].phase;
            && (q.Announcing? && !e.Snapshot? ==> q' == q)
            && (e.Snapshot? ==> q.Announcing? && Carries(q', Chat(i)))
            && (q.Sending? && !Carries(q', Chat(i)) ==>
                  (e.Finish? && q.targets == {}) || (e.Send? && s.people[e.t].chan.closed))
  {
  }

  lemma ClosedStaysClosed(s: State, e: Event, d: nat)
    requires Can(s, e) && d in s.people && s.people[d].chan.closed
    ensures d in Do(s, e).people && Do(s, e).people[d].chan.closed
  {
    if d != e.c {
      StepFrame(s, e, d);
    }
  }

  lemma OldCastStaysOk(s: State, e: Event, i: nat)
    requires Can(s, e) && CastsOk(s) && i < |s.log|
    ensures i < |Do(s, e).log| == |Do(s, e).casts| && CastOk(Do(s, e), i)
  {
    var s' := Do(s, e);
    StepPeople(s, e);
    StepTable(s, e);
    StepCast(s, e, i);
    assert CastOk(s, i);
    var a := s.log[i].author;
    if e.c in s.people {
      assert AuthorOk(s, e.c);
    }
    if a == e.c {
      if Carries(s.people[a].phase, Chat(i)) {
        AuthorActs(s, e, i);
        if s.casts[i].snap.Some? {
          var snap := s.casts[i].snap.value;
          NothingLeft(snap.audience, snap.reached);
        }
      }
      StepIndex(s, e);
    } else {
      StepFrame(s, e, a);
    }
    if s'.casts[i].snap.Some? && s'.casts[i].snap.value.aborted {
      AbortedStaysExplained(s, e, i);
    }
  }

  lemma NothingLeft(all: set<nat>, done: set<nat>)
    requires done <= all
    ensures all - done == {} ==> done == all
  {
    assert done + (all - done) == all;
  }

  /** A broadcast cut short still has, among those it did not reach, somebody whose queue is closed. */
  lemma AbortedStaysExplained(s: State, e: Event, i: nat)
    requires Can(s, e) && CastsOk(s) && i < |s.casts|
    requires NextCast(s, e, i).snap.Some? && NextCast(s, e, i).snap.value.aborted
    ensures var snap := NextCast(s, e, i).snap.value;
            exists t <- snap.audience - snap.reached :: t in Do(s, e).people && Do(s, e).people[t].chan.closed
  {
    assert CastOk(s, i) && (e.c in s.people ==> AuthorOk(s, e.c));
    var t: nat;
    if e.Send? && s.people[e.c].phase.frame == Chat(i) {
      t := e.t;
    } else {
      var snap := s.casts[i].snap.value;
      t :| t in snap.audience - snap.reached && t in s.people && s.people[t].chan.closed;
    }
    ClosedStaysClosed(s, e, t);
    assert t in NextCast(s, e, i).snap.value.audience - NextCast(s, e, i).snap.value.reached;
  }

  lemma StepKeepsCasts(s: State, e: Event)
    requires Can(s, e) && CastsOk(s)
    ensures CastsOk(Do(s, e))
  {
    var s' := Do(s, e);
    StepTable(s, e);
    forall c <- s'.people
      ensures |s'.casts| == |s'.log| && AuthorOk(s', c)
    {
      StepKeepsAuthor(s, e, c);
    }
    forall i | 0 <= i < |s'.log|
      ensures CastOk(s', i)
    {
      if i < |s.log| {
        OldCastStaysOk(s, e, i);
      } else {
        PostedIsOk(s, e);
      }
    }
  }

  lemma PostedIsOk(s: State, e: Event)
    requires Can(s, e) && |s.casts| == |s.log| && e.Post? && e.ok
    ensures |Do(s, e).casts| == |Do(s, e).log| == |s.log| + 1 && CastOk(Do(s, e), |s.log|)
  {
  }

  lemma StepKeepsAudiences(s: State, e: Event)
    requires Can(s, e) && TimesOk(s) && RoomsOk(s) && CastsOk(s) && AudiencesOk(s)
    ensures AudiencesOk(Do(s, e))
  {
    var s' := Do(s, e);
    StepTable(s, e);
    forall i | 0 <= i < |s'.log|
      ensures AudienceOk(s', i)
    {
      if i < |s.log| {
        StepCast(s, e, i);
        AudienceStays(s, e, i);
      }
    }
  }

  lemma AudienceStays(s: State, e: Event, i: nat)
    requires Can(s, e) && TimesOk(s) && RoomsOk(s) && CastsOk(s) && AudiencesOk(s) && i < |s.log|
    requires i < |Do(s, e).log| == |Do(s, e).casts| && Do(s, e).log[i] == s.log[i]
    requires Do(s, e).casts[i] == NextCast(s, e, i)
    ensures AudienceOk(Do(s, e), i)
  {
    var s' := Do(s, e);
    StepPeople(s, e);
    assert AudienceOk(s, i) && CastOk(s, i) && (e.c in s.people ==> AuthorOk(s, e.c));
    if s'.casts[i].snap.Some? {
      var room, at := s.log[i].room, s'.casts[i].snap.value.at;
      forall d: nat
        ensures d in s'.casts[i].snap.value.audience <==> d in s'.people && InAt(s'.people[d], room, at)
      {
        if e.Snapshot? && s.people[e.c].phase.frame == Chat(i) {
          SnapshotIsPresent(s, e.c, room, d);
        } else if d in s.people {
          PastIsFixed(s, e, d, room, at);
        }
      }
    }
  }

  // ----- Cuts -----

  lemma OwnCut(s: State, e: Event)
    requires Can(s, e) && e.c in s.people && Timely(e.c, s.people[e.c], s.now)
    ensures var p, p' := s.people[e.c], Do(s, e).people[e.c];
            && p'.room == p.room
            && p'.cut == (if e.Query? then
                            Some(Cut(s.now, |s.log|, e.ok, if e.ok then Recent(s.log, p.room, HISTORY_LIMIT) else []))
                          else p.cut)
            && (p'.phase.Replaying? ==>
                  if e.Query? then p'.phase.rest == p'.cut.value.replay
                  else p.phase.Replaying? &&
                       if e.Replay? then p.phase.rest != [] && p'.phase.rest == p.phase.rest[1..]
                       else p'.phase == p.phase)
  {
  }

  lemma StepKeepsCut(s: State, e: Event, p: Person)
    requires Can(s, e) && CastsOk(s) && CutOk(s, p) && (p.cut.Some? ==> p.cut.value.at < s.now)
    ensures CutOk(Do(s, e), p)
  {
    var s' := Do(s, e);
    StepTable(s, e);
    if p.cut.Some? {
      var cut := p.cut.value;
      assert s'.log[..cut.len] == s.log[..cut.len];
      forall i | 0 <= i < |s'.log|
        ensures if i < cut.len then s'.casts[i].savedAt < cut.at else cut.at < s'.casts[i].savedAt
      {
        if i < |s.log| {
          StepCast(s, e, i);
        }
      }
    }
  }

  lemma StepKeepsCuts(s: State, e: Event)
    requires Can(s, e) && TimesOk(s) && CastsOk(s) && CutsOk(s)
    ensures CutsOk(Do(s, e))
  {
    var s' := Do(s, e);
    StepPeople(s, e);
    forall c <- s'.people
      ensures CutOk(s', s'.people[c])
    {
      if c != e.c {
        OtherKeepsCut(s, e, c);
      } else if c in s.people {
        OwnStepKeepsCut(s, e);
      }
    }
  }

  lemma OtherKeepsCut(s: State, e: Event, c: nat)
    requires Can(s, e) && TimesOk(s) && CastsOk(s) && CutsOk(s) && c != e.c && c in s.people
    ensures c in Do(s, e).people && CutOk(Do(s, e), Do(s, e).people[c])
  {
    StepFrame(s, e, c);
    assert Timely(c, s.people[c], s.now);
    StepKeepsCut(s, e, s.people[c]);
  }

  lemma OwnStepKeepsCut(s: State, e: Event)
    requires Can(s, e) && e.c in s.people && TimesOk(s) && CastsOk(s) && CutsOk(s)
    ensures CutOk(Do(s, e), Do(s, e).people[e.c])
  {
    assert Timely(e.c, s.people[e.c], s.now);
    if e.Query? {
      QueryCuts(s, e.c, e.ok);
    } else {
      StepKeepsCut(s, e, s.people[e.c]);
      OwnCut(s, e);
    }
  }

  lemma QueryCuts(s: State, c: nat, ok: bool)
    requires Can(s, Query(c, ok)) && CastsOk(s)
    ensures CutOk(Do(s, Query(c, ok)), Do(s, Query(c, ok)).people[c])
  {
    assert s.log[..|s.log|] == s.log;
    forall i | 0 <= i < |s.log|
      ensures s.casts[i].savedAt < s.now
    {
      assert CastOk(s, i);
    }
    var ids := Do(s, Query(c, ok)).people[c].phase.rest;
    assert ids == ids[0..];
  }

  // ----- Copies of a message -----

  /** The offer, if any, that a step makes to `d`. */
  function NewOffers(s: State, e: Event, d: nat): seq<Offer<Frame>>
    requires Can(s, e) && d in s.people
  {
    if s.people[d].chan.closed then []
    else if e.Send? && d == e.t then [Offer(s.people[e.c].phase.frame, |s.people[d].chan.queue|)]
    else if e.Replay? && d == e.c then [Offer(History(s.people[d].phase.rest[0]), |s.people[d].chan.queue|)]
    else []
  }

  lemma StepOffers(s: State, e: Event, d: nat)
    requires Can(s, e) && d in s.people
    ensures d in Do(s, e).people
    ensures Do(s, e).people[d].chan.offers == s.people[d].chan.offers + NewOffers(s, e, d)
  {
    if d != e.c {
      StepFrame(s, e, d);
    } else if e.Send? {
      OwnSendOffers(s, e.c, e.t);
    }
  }

  lemma OwnSendOffers(s: State, c: nat, t: nat)
    requires Can(s, Send(c, t))
    ensures Do(s, Send(c, t)).people[c].chan ==
            if c == t && !s.people[c].chan.closed then TrySend(s.people[c].chan, s.people[c].phase.frame)
            else s.people[c].chan
  {
  }

  lemma TallyAppend<T>(offers: seq<Offer<T>>, o: Offer<T>, f: T)
    ensures Tally(offers + [o], f) == Tally(offers, f) + if o.item == f then 1 else 0
  {
    assert Items(offers + [o]) == Items(offers) + [o.item];
  }

  /** Only a replay step moves a row from the rest to the replayed part. */
  lemma StepReplayed(s: State, e: Event)
    requires Can(s, e) && e.c in s.people && Timely(e.c, s.people[e.c], s.now) && CutOk(s, s.people[e.c])
    ensures Replayed(Do(s, e).people[e.c]) ==
            Replayed(s.people[e.c]) + if e.Replay? then [s.people[e.c].phase.rest[0]] else []
    ensures e.Replay? ==>
              s.people[e.c].cut.Some? &&
              Replayed(s.people[e.c]) + s.people[e.c].phase.rest == s.people[e.c].cut.value.replay
  {
    var p, p' := s.people[e.c], Do(s, e).people[e.c];
    OwnCut(s, e);
    OwnPhaseCut(s, e);
    if p.phase.Replaying? {
      ReplayedAndRest(s, p);
      if e.Replay? {
        OneMoreReplayed(s, p, p');
      }
    }
  }

  lemma ReplayedAndRest(s: State, p: Person)
    requires CutOk(s, p) && p.phase.Replaying?
    ensures Replayed(p) + p.phase.rest == p.cut.value.replay
    ensures p.phase.rest == [] ==> Replayed(p) == p.cut.value.replay
  {
    SplitInTwo(p.cut.value.replay, |p.cut.value.replay| - |p.phase.rest|);
  }

  lemma SplitInTwo<T>(all: seq<T>, n: nat)
    requires n <= |all|
    ensures all[..n] + all[n..] == all
    ensures n == |all| ==> all[..n] == all
  {
  }

  lemma OneMoreReplayed(s: State, p: Person, p': Person)
    requires CutOk(s, p) && p.phase.Replaying? && p.phase.rest != []
    requires p'.cut == p.cut && p'.phase == Replaying(p.phase.rest[1..])
    ensures Replayed(p') == Replayed(p) + [p.phase.rest[0]]
  {
    var all, n := p.cut.value.replay, |p.cut.value.replay| - |p.phase.rest|;
    assert all[..n + 1] == all[..n] + [all[n]];
    assert all[n] == p.phase.rest[0];
  }

  lemma OwnPhaseCut(s: State, e: Event)
    requires Can(s, e) && e.c in s.people && Timely(e.c, s.people[e.c], s.now)
    ensures e.Replay? ==> Do(s, e).people[e.c].phase == Replaying(s.people[e.c].phase.rest[1..])
    ensures s.people[e.c].phase.Replaying? && !Do(s, e).people[e.c].phase.Replaying? ==> s.people[e.c].phase.rest == []
  {
  }

  lemma RecentIncreases(log: seq<Msg>, room: string, limit: nat)
    ensures forall j, k | 0 <= j < k < |Recent(log, room, limit)| ::
              Recent(log, room, limit)[j] < Recent(log, room, limit)[k]
    ensures |Recent(log, room, limit)| <= limit
    ensures forall k | 0 <= k < |Recent(log, room, limit)| :: Recent(log, room, limit)[k] < |log|
  {
  }

  lemma NotYetReplayed(s: State, p: Person)
    requires CutOk(s, p) && p.phase.Replaying? && p.phase.rest != []
    requires Replayed(p) + p.phase.rest == p.cut.value.replay
    ensures p.phase.rest[0] !in Replayed(p)
  {
    var all := p.cut.value.replay;
    RecentIncreases(s.log[..p.cut.value.len], p.room, HISTORY_LIMIT);
    assert all[|Replayed(p)|] == p.phase.rest[0];
    forall k | 0 <= k < |Replayed(p)|
      ensures Replayed(p)[k] != p.phase.rest[0]
    {
      assert all[k] == Replayed(p)[k];
    }
  }

  /** The actor of a send has not reached its target before, and reaches nobody else. */
  lemma StepReached(s: State, e: Event, i: nat, d: nat)
    requires Can(s, e) && TargetsOk(s) && CastsOk(s)
    ensures Reached(Do(s, e), i, d) <==>
            Reached(s, i, d) ||
            (e.Send? && d == e.t && s.people[e.c].phase.frame == Chat(i) && !s.people[d].chan.closed)
    ensures e.Send? && s.people[e.c].phase.frame == Chat(i) ==> !Reached(s, i, e.t)
  {
    StepTable(s, e);
    if e.c in s.people {
      assert AuthorOk(s, e.c);
    }
    if i < |s.casts| {
      StepCast(s, e, i);
    }
  }

  /** What a step adds to the tallies of row `i` at `d`. */
  lemma StepTallies(s: State, e: Event, d: nat, i: nat)
    requires Can(s, e) && TimesOk(s) && d in s.people
    ensures d in Do(s, e).people
    ensures var offers, offers' := s.people[d].chan.offers, Do(s, e).people[d].chan.offers;
            && Tally(offers', Chat(i)) == Tally(offers, Chat(i)) +
               (if e.Send? && d == e.t && s.people[e.c].phase.frame == Chat(i) && !s.people[d].chan.closed
                then 1 else 0)
            && Tally(offers', History(i)) == Tally(offers, History(i)) +
               (if e.Replay? && d == e.c && s.people[d].phase.rest[0] == i then 1 else 0)
  {
    var offers := s.people[d].chan.offers;
    StepOffers(s, e, d);
    assert Timely(d, s.people[d], s.now) && (e.c in s.people ==> Timely(e.c, s.people[e.c], s.now));
    if NewOffers(s, e, d) == [] {
      assert offers + [] == offers;
    } else {
      TallyAppend(offers, NewOffers(s, e, d)[0], Chat(i));
      TallyAppend(offers, NewOffers(s, e, d)[0], History(i));
    }
  }

  lemma StepHistory(s: State, e: Event, d: nat, i: nat)
    requires Can(s, e) && TimesOk(s) && CutsOk(s) && d in s.people
    ensures d in Do(s, e).people
    ensures i in Replayed(Do(s, e).people[d]) <==>
            i in Replayed(s.people[d]) || (e.Replay? && d == e.c && s.people[d].phase.rest[0] == i)
    ensures e.Replay? && d == e.c ==> s.people[d].phase.rest[0] !in Replayed(s.people[d])
  {
    if d == e.c {
      OwnHistory(s, e, i);
    } else {
      StepFrame(s, e, d);
    }
  }

  lemma OwnHistory(s: State, e: Event, i: nat)
    requires Can(s, e) && TimesOk(s) && CutsOk(s) && e.c in s.people
    ensures i in Replayed(Do(s, e).people[e.c]) <==>
            i in Replayed(s.people[e.c]) || (e.Replay? && s.people[e.c].phase.rest[0] == i)
    ensures e.Replay? ==> s.people[e.c].phase.rest[0] !in Replayed(s.people[e.c])
  {
    assert Timely(e.c, s.people[e.c], s.now) && CutOk(s, s.people[e.c]);
    StepReplayed(s, e);
    if e.Replay? {
      NotYetReplayed(s, s.people[e.c]);
    }
  }

  lemma StepKeepsCopies(s: State, e: Event, d: nat, i: nat)
    requires Can(s, e) && TimesOk(s) && TargetsOk(s) && CastsOk(s) && CutsOk(s)
    requires d in s.people && CopiesOk(s, d, i)
    ensures d in Do(s, e).people && CopiesOk(Do(s, e), d, i)
  {
    StepReached(s, e, i, d);
    StepTallies(s, e, d, i);
    StepHistory(s, e, d, i);
  }

  lemma NewcomerHasNoCopies(s: State, e: Event, i: nat)
    requires Can(s, e) && e.Connect? && CastsOk(s) && TargetsOk(s) && AudiencesOk(s)
    ensures CopiesOk(Do(s, e), e.c, i)
  {
    StepReached(s, e, i, e.c);
    if i < |s.log| && s.casts[i].snap.Some? {
      assert CastOk(s, i) && AudienceOk(s, i);
      assert e.c !in s.casts[i].snap.value.audience;
    }
  }

  lemma StepKeepsAllCopies(s: State, e: Event)
    requires Can(s, e) && TimesOk(s) && TargetsOk(s) && CastsOk(s) && AudiencesOk(s) && CutsOk(s) && AllCopiesOk(s)
    ensures AllCopiesOk(Do(s, e))
  {
    var s' := Do(s, e);
    StepPeople(s, e);
    forall d <- s'.people, i: nat
      ensures CopiesOk(s', d, i)
    {
      if d in s.people {
        assert CopiesOk(s, d, i);
        StepKeepsCopies(s, e, d, i);
      } else {
        NewcomerHasNoCopies(s, e, i);
      }
    }
  }

  // ----- Queues -----

  lemma ForeignAppend(offers: seq<Offer<Frame>>, o: Offer<Frame>, c: nat)
    ensures ForeignCount(offers + [o], c) == ForeignCount(offers, c) + if Foreign(o.item, c) then 1 else 0
  {
    assert (offers + [o])[..|offers|] == offers;
  }

  lemma UnreadTakesOffer(p: Person, f: Frame)
    requires Unread(p) && p.chan.cap == SEND_CAPACITY
    ensures Unread(p.(chan := TrySend(p.chan, f)))
  {
  }

  /** What a queue's invariant needs of its owner when the queue is offered `f`. */
  lemma OfferKeepsQueue(c: nat, p: Person, p': Person, f: Frame)
    requires QueueOk(c, p) && p'.chan == TrySend(p.chan, f) && p'.cut == p.cut
    requires p'.writer == NotStarted ==> p.writer == NotStarted
    requires |Replayed(p')| == |Replayed(p)| + if f.History? then 1 else 0
    requires f == JoinNote(c) ==> MayStillAnnounce(c, p.phase) && !MayStillAnnounce(c, p'.phase)
    requires MayStillAnnounce(c, p'.phase) ==> MayStillAnnounce(c, p.phase)
    ensures QueueOk(c, p')
  {
    var o := Offer(f, |p.chan.queue|);
    TrySendConserves(p.chan, f);
    ForeignAppend(p.chan.offers, o, c);
    TallyAppend(p.chan.offers, o, JoinNote(c));
    if p.writer == NotStarted {
      UnreadTakesOffer(p, f);
    }
  }

  /** A step that offers its actor nothing. */
  lemma QuietKeepsQueue(c: nat, p: Person, p': Person)
    requires QueueOk(c, p) && p'.chan.(closed := p.chan.closed) == p.chan
    requires p'.writer == NotStarted ==> p.writer == NotStarted
    requires Replayed(p') == Replayed(p)
    requires p'.cut == p.cut || (p'.cut.Some? && |p'.cut.value.replay| <= HISTORY_LIMIT)
    requires MayStillAnnounce(c, p'.phase) ==> MayStillAnnounce(c, p.phase)
    ensures QueueOk(c, p')
  {
  }

  lemma WriteKeepsQueue(c: nat, p: Person)
    requires QueueOk(c, p) && p.writer == Running && p.chan.queue != []
    ensures QueueOk(c, p.(chan := Receive(p.chan)))
  {
    ReceiveConserves(p.chan);
  }

  lemma OwnStep(s: State, e: Event)
    requires Can(s, e) && e.c in s.people && Timely(e.c, s.people[e.c], s.now)
    ensures var p, p' := s.people[e.c], Do(s, e).people[e.c];
            && (p'.writer == NotStarted ==> p.writer == NotStarted)
            && (MayStillAnnounce(e.c, p'.phase) ==> MayStillAnnounce(e.c, p.phase))
            && (e.Write? ==> p' == p.(chan := Receive(p.chan)))
            && (!e.Write? && !e.Send? && !e.Replay? ==> p'.chan.(closed := p.chan.closed) == p.chan)
  {
  }

  lemma OwnJoinNote(s: State, c: nat, t: nat)
    requires Can(s, Send(c, t)) && TimesOk(s) && s.people[c].phase.frame == JoinNote(t)
    ensures c == t && MayStillAnnounce(c, s.people[c].phase)
    ensures !MayStillAnnounce(c, Do(s, Send(c, t)).people[c].phase)
  {
    assert Timely(c, s.people[c], s.now);
  }

  lemma SendKeepsQueue(s: State, c: nat, t: nat)
    requires Can(s, Send(c, t)) && TimesOk(s) && QueuesOk(s)
    ensures QueueOk(t, Do(s, Send(c, t)).people[t])
  {
    assert Timely(c, s.people[c], s.now);
    var p, p' := s.people[t], Do(s, Send(c, t)).people[t];
    var f := s.people[c].phase.frame;
    if f == JoinNote(t) {
      OwnJoinNote(s, c, t);
    }
    TargetAfterSend(s, c, t);
    if p.chan.closed {
      QuietKeepsQueue(t, p, p');
    } else {
      OfferKeepsQueue(t, p, p', f);
    }
  }

  /** What a send leaves of its target, be it the sender itself or somebody else. */
  lemma TargetAfterSend(s: State, c: nat, t: nat)
    requires Can(s, Send(c, t)) && TimesOk(s)
    ensures !s.people[c].phase.frame.History?
    ensures var p, p' := s.people[t], Do(s, Send(c, t)).people[t];
            && p'.cut == p.cut && Replayed(p') == Replayed(p)
            && (p'.writer == NotStarted ==> p.writer == NotStarted)
            && (MayStillAnnounce(t, p'.phase) ==> MayStillAnnounce(t, p.phase))
            && p'.chan == if p.chan.closed then p.chan else TrySend(p.chan, s.people[c].phase.frame)
  {
    assert Timely(c, s.people[c], s.now);
    if c == t {
      OwnSendOffers(s, c, t);
      OwnStep(s, Send(c, t));
    } else {
      StepFrame(s, Send(c, t), t);
    }
  }

  lemma ReplayKeepsQueue(s: State, c: nat)
    requires Can(s, Replay(c)) && TimesOk(s) && CutsOk(s) && QueuesOk(s)
    ensures QueueOk(c, Do(s, Replay(c)).people[c])
  {
    assert Timely(c, s.people[c], s.now) && CutOk(s, s.people[c]);
    StepReplayed(s, Replay(c));
    OfferKeepsQueue(c, s.people[c], Do(s, Replay(c)).people[c], History(s.people[c].phase.rest[0]));
  }

  lemma OwnReplayStands(s: State, e: Event)
    requires Can(s, e) && e.c in s.people && !e.Replay?
    requires Timely(e.c, s.people[e.c], s.now) && CutOk(s, s.people[e.c])
    ensures var p, p' := s.people[e.c], Do(s, e).people[e.c];
            && Replayed(p') == Replayed(p)
            && (p'.cut == p.cut || (p'.cut.Some? && |p'.cut.value.replay| <= HISTORY_LIMIT))
  {
    StepReplayed(s, e);
    OwnCut(s, e);
  }

  lemma OwnWriteKeepsQueue(s: State, c: nat)
    requires Can(s, Write(c)) && QueuesOk(s)
    ensures QueueOk(c, Do(s, Write(c)).people[c])
  {
    WriteKeepsQueue(c, s.people[c]);
  }

  lemma OwnStepKeepsQueue(s: State, e: Event)
    requires Can(s, e) && e.c in s.people && !e.Send? && !e.Replay? && !e.Write?
    requires TimesOk(s) && CutsOk(s) && QueuesOk(s)
    ensures QueueOk(e.c, Do(s, e).people[e.c])
  {
    assert Timely(e.c, s.people[e.c], s.now) && CutOk(s, s.people[e.c]);
    OwnStep(s, e);
    OwnReplayStands(s, e);
    QuietKeepsQueue(e.c, s.people[e.c], Do(s, e).people[e.c]);
  }

  lemma StepKeepsQueues(s: State, e: Event)
    requires Can(s, e) && TimesOk(s) && CutsOk(s) && QueuesOk(s)
    ensures QueuesOk(Do(s, e))
  {
    var s' := Do(s, e);
    StepPeople(s, e);
    forall d <- s'.people
      ensures QueueOk(d, s'.people[d])
    {
      if e.Send? && d == e.t {
        SendKeepsQueue(s, e.c, e.t);
      } else if d != e.c {
        if d in s.people {
          StepFrame(s, e, d);
        }
      } else if e.Connect? {
        NewQueue(s, e);
      } else if e.Replay? {
        ReplayKeepsQueue(s, d);
      } else if e.Write? {
        OwnWriteKeepsQueue(s, d);
      } else if e.Send? {
        OwnSendOffers(s, e.c, e.t);
        SenderKeepsQueue(s, e.c, e.t);
      } else {
        OwnStepKeepsQueue(s, e);
      }
    }
  }

  lemma NewQueue(s: State, e: Event)
    requires Can(s, e) && e.Connect?
    ensures QueueOk(e.c, Do(s, e).people[e.c])
  {
  }

  lemma SenderKeepsQueue(s: State, c: nat, t: nat)
    requires Can(s, Send(c, t)) && c != t && TimesOk(s) && CutsOk(s) && QueuesOk(s)
    ensures QueueOk(c, Do(s, Send(c, t)).people[c])
  {
    assert Timely(c, s.people[c], s.now) && CutOk(s, s.people[c]);
    OwnStep(s, Send(c, t));
    OwnSendOffers(s, c, t);
    OwnReplayStands(s, Send(c, t));
    QuietKeepsQueue(c, s.people[c], Do(s, Send(c, t)).people[c]);
  }

  // ----- Hits -----

  lemma StepHits(s: State, e: Event)
    requires Can(s, e) && TimesOk(s)
    ensures Do(s, e).hits ==
            s.hits + if e.Send? && s.people[e.t].chan.closed
                     then [Hit(e.c, e.t, s.people[e.c].phase.at, s.now)] else []
  {
    if e.c in s.people {
      assert Timely(e.c, s.people[e.c], s.now);
    }
  }

  lemma OldHitStaysOk(s: State, e: Event, h: Hit)
    requires Can(s, e) && TimesOk(s) && HitOk(s, h)
    ensures HitOk(Do(s, e), h)
  {
    StepPeople(s, e);
    assert Timely(h.target, s.people[h.target], s.now);
    if h.target == e.c {
      OwnTimesGrow(s, e);
      OwnCloseTime(s, e);
    } else {
      StepFrame(s, e, h.target);
    }
  }

  lemma OwnCloseTime(s: State, e: Event)
    requires Can(s, e) && e.c in s.people && Timely(e.c, s.people[e.c], s.now) && s.people[e.c].closedAt.Some?
    ensures Do(s, e).people[e.c].closedAt == s.people[e.c].closedAt
  {
  }

  lemma NewHitIsOk(s: State, c: nat, t: nat)
    requires Can(s, Send(c, t)) && TimesOk(s) && TargetsOk(s) && s.people[t].chan.closed
    ensures HitOk(Do(s, Send(c, t)), Hit(c, t, s.people[c].phase.at, s.now))
  {
    var e := Send(c, t);
    StepPeople(s, e);
    assert Timely(t, s.people[t], s.now) && Timely(c, s.people[c], s.now);
    assert InAt(s.people[t], s.people[c].room, s.people[c].phase.at);
    if c != t {
      StepFrame(s, e, t);
    }
  }

  lemma StepKeepsHits(s: State, e: Event)
    requires Can(s, e) && TimesOk(s) && TargetsOk(s) && HitsOk(s)
    ensures HitsOk(Do(s, e))
  {
    StepHits(s, e);
    forall h <- Do(s, e).hits
      ensures HitOk(Do(s, e), h)
    {
      if h in s.hits {
        OldHitStaysOk(s, e, h);
      } else {
        NewHitIsOk(s, e.c, e.t);
      }
    }
  }

  // ----- Whole runs -----

  lemma StepKeepsInv(s: State, e: Event)
    requires Can(s, e) && Inv(s)
    ensures Inv(Do(s, e))
  {
    StepKeepsTimes(s, e);
    StepKeepsRooms(s, e);
    StepKeepsTargets(s, e);
    StepKeepsCasts(s, e);
    StepKeepsAudiences(s, e);
    StepKeepsCuts(s, e);
    StepKeepsAllCopies(s, e);
    StepKeepsQueues(s, e);
    StepKeepsHits(s, e);
  }

  /** The invariant holds in every state any interleaving can produce. */
  lemma {:induction false} RunsKeepInv(evs: seq<Event>)
    requires Feasible(evs)
    ensures Inv(Run(evs))
    decreases |evs|
  {
    if evs != [] {
      RunsKeepInv(evs[..|evs| - 1]);
      StepKeepsInv(Run(evs[..|evs| - 1]), evs[|evs| - 1]);
    }
  }
}
