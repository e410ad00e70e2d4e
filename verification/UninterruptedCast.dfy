/** A broadcast of the hub's step system that nobody interrupts, against `ChatHub.BroadcastToRoom`. */
module UninterruptedCast {
  import opened Channels
  import opened Hub
  import opened HubSystem

  /** The state after these events, or None when one of them is not enabled in its turn. */
  function Take(s: State, evs: seq<Event>): Option<State>
    decreases |evs|
  {
    if evs == [] then Some(s)
    else if Can(s, evs[0]) then Take(Do(s, evs[0]), evs[1..])
    else None
  }

  function Sends(c: nat, order: seq<nat>): seq<Event> {
    seq(|order|, i requires 0 <= i < |order| => Send(c, order[i]))
  }

  /** `c` is sending `f` with exactly `order` still to try, each open. */
  ghost predicate Facing(s: State, c: nat, f: Frame, order: seq<nat>) {
    && c in s.people && s.people[c].phase.Sending? && s.people[c].phase.frame == f
    && RangesOver(order, s.people[c].phase.targets)
    && (forall t <- order :: t in s.people && !s.people[t].chan.closed)
    && (f.Chat? ==> f.id < |s.casts| && s.casts[f.id].snap.Some? && !s.casts[f.id].snap.value.aborted)
  }

  /** The queues after the rest of the loop, which met no closed one and changed nothing else of the hub. */
  ghost predicate Handed(s: State, s': State, order: seq<nat>, f: Frame) {
    s'.people.Keys == s.people.Keys && s'.hits == s.hits && s'.rooms == s.rooms && s'.log == s.log &&
    forall d <- s.people ::
      s'.people[d].chan.cap == s.people[d].chan.cap && s'.people[d].chan.closed == s.people[d].chan.closed &&
      s'.people[d].room == s.people[d].room && s'.people[d].cut == s.people[d].cut &&
      s'.people[d].chan.queue ==
      if d in order then Pushed(s.people[d].chan.queue, s.people[d].chan.cap, f) else s.people[d].chan.queue
  }

  lemma OneSendFaces(s: State, c: nat, f: Frame, order: seq<nat>)
    requires order != [] && Facing(s, c, f, order)
    ensures Can(s, Send(c, order[0])) && !s.people[order[0]].chan.closed
    ensures Facing(Do(s, Send(c, order[0])), c, f, order[1..])
  {
    RangesOverRest(order, s.people[c].phase.targets);
    assert order[0] in order;
  }

  lemma OneSendHands(s: State, c: nat, t: nat)
    requires Can(s, Send(c, t)) && !s.people[t].chan.closed
    ensures Handed(s, Do(s, Send(c, t)), [t], s.people[c].phase.frame)
  {
  }

  lemma HandedInTurn(s: State, s1: State, s2: State, order: seq<nat>, targets: set<nat>, f: Frame)
    requires order != [] && RangesOver(order, targets)
    requires Handed(s, s1, [order[0]], f) && Handed(s1, s2, order[1..], f)
    ensures Handed(s, s2, order, f)
  {
    RangesOverRest(order, targets);
  }

  lemma FirstTaken(s: State, c: nat, order: seq<nat>)
    requires order != [] && Can(s, Send(c, order[0]))
    ensures Take(s, Sends(c, order)) == Take(Do(s, Send(c, order[0])), Sends(c, order[1..]))
  {
    assert Sends(c, order)[1..] == Sends(c, order[1..]);
  }

  lemma NothingLeft(s: State, c: nat, f: Frame)
    ensures Take(s, Sends(c, [])) == Some(s) && Handed(s, s, [], f)
  {
  }

  lemma {:induction false} LoopRuns(s: State, c: nat, f: Frame, order: seq<nat>)
    requires Facing(s, c, f, order)
    ensures var r := Take(s, Sends(c, order));
            r.Some? && Facing(r.value, c, f, []) && Handed(s, r.value, order, f)
    decreases |order|
  {
    if order == [] {
      NothingLeft(s, c, f);
    } else {
      OneSendFaces(s, c, f, order);
      OneSendHands(s, c, order[0]);
      FirstTaken(s, c, order);
      var s1 := Do(s, Send(c, order[0]));
      LoopRuns(s1, c, f, order[1..]);
      HandedInTurn(s, s1, Take(s1, Sends(c, order[1..])).value, order, s.people[c].phase.targets, f);
    }
  }

  /** Whoever is in a room has an open queue. */
  lemma MembersAreOpen(s: State, room: string, t: nat)
    requires TimesOk(s) && RoomsOk(s) && t in Members(s.rooms, room)
    ensures t in s.people && !s.people[t].chan.closed
  {
    assert s.rooms[room] <= s.people.Keys;
    assert Timely(t, s.people[t], s.now);
  }

  lemma SnapshotFaces(s: State, c: nat, order: seq<nat>)
    requires Can(s, Snapshot(c)) && RangesOver(order, Members(s.rooms, s.people[c].room))
    requires forall t <- order :: t in s.people && !s.people[t].chan.closed
    ensures Facing(Do(s, Snapshot(c)), c, s.people[c].phase.frame, order)
  {
  }

  lemma SnapshotHandsNothing(s: State, c: nat)
    requires Can(s, Snapshot(c))
    ensures Handed(s, Do(s, Snapshot(c)), [], s.people[c].phase.frame)
  {
  }

  lemma FinishKeepsQueues(s: State, c: nat, f: Frame)
    requires Facing(s, c, f, [])
    ensures Can(s, Finish(c)) && Handed(s, Do(s, Finish(c)), [], f)
    ensures Do(s, Finish(c)).people[c].phase == if f.LeaveNote? then Gone else Reading
    ensures f.JoinNote? ==> Do(s, Finish(c)).people[c].writer == Running
    ensures Do(s, Finish(c)).casts == s.casts
  {
    assert s.people[c].phase.targets == {};
  }

  lemma HandedBetween(a: State, b: State, c: State, d: State, order: seq<nat>, f: Frame)
    requires Handed(a, b, [], f) && Handed(b, c, order, f) && Handed(c, d, [], f)
    ensures Handed(a, d, order, f)
  {
  }

  /** Whatever order the loop takes, a broadcast that runs without interruption from its snapshot to its end meets no
      closed queue and does to the queues what `ChatHub.BroadcastToRoom` promises: one push to each member of the room,
      nothing to anybody else. */
  lemma MatchesBroadcastToRoom(s: State, c: nat, order: seq<nat>)
    requires Inv(s) && Can(s, Snapshot(c)) && RangesOver(order, Members(s.rooms, s.people[c].room))
    ensures var f := s.people[c].phase.frame;
            var r := Take(Do(s, Snapshot(c)), Sends(c, order));
            && r.Some? && Can(r.value, Finish(c))
            && var s' := Do(r.value, Finish(c));
            && s'.hits == s.hits && s'.rooms == s.rooms && s'.log == s.log
            && s'.people[c].phase == (if f.LeaveNote? then Gone else Reading)
            && (f.JoinNote? ==> s'.people[c].writer == Running)
            && (f.Chat? ==> f.id < |s'.casts| && s'.casts[f.id].snap.Some? && !s'.casts[f.id].snap.value.aborted)
            && s'.people[c].room == s.people[c].room && s'.people[c].cut == s.people[c].cut
            && forall d <- s.people :: d in s'.people &&
                 s'.people[d].chan.queue ==
                 if d in Members(s.rooms, s.people[c].room)
                 then Pushed(s.people[d].chan.queue, 32, f) else s.people[d].chan.queue
  {
    var f := s.people[c].phase.frame;
    forall t <- order
      ensures t in s.people && !s.people[t].chan.closed
    {
      MembersAreOpen(s, s.people[c].room, t);
    }
    SnapshotFaces(s, c, order);
    SnapshotHandsNothing(s, c);
    LoopRuns(Do(s, Snapshot(c)), c, f, order);
    var s1 := Take(Do(s, Snapshot(c)), Sends(c, order)).value;
    FinishKeepsQueues(s1, c, f);
    HandedBetween(s, Do(s, Snapshot(c)), s1, Do(s1, Finish(c)), order, f);
    assert forall d <- s.people :: QueueOk(d, s.people[d]);
  }

  function CastSteps(c: nat, order: seq<nat>): seq<Event> {
    [Snapshot(c)] + (Sends(c, order) + [Finish(c)])
  }

  lemma {:induction false} TakeAppend(s: State, a: seq<Event>, b: seq<Event>)
    requires Take(s, a).Some?
    ensures Take(s, a + b) == Take(Take(s, a).value, b)
    decreases |a|
  {
    if a == [] {
      assert a + b == b;
    } else {
      assert (a + b)[1..] == a[1..] + b;
      TakeAppend(Do(s, a[0]), a[1..], b);
    }
  }

  lemma TakeOne(s: State, e: Event, rest: seq<Event>)
    requires Can(s, e)
    ensures Take(s, [e] + rest) == Take(Do(s, e), rest)
  {
    assert ([e] + rest)[1..] == rest;
  }

  lemma TakeLast(s: State, e: Event)
    requires Can(s, e)
    ensures Take(s, [e]) == Some(Do(s, e))
  {
  }

  lemma CastTaken(s: State, c: nat, order: seq<nat>)
    requires Can(s, Snapshot(c)) && Take(Do(s, Snapshot(c)), Sends(c, order)).Some?
    requires Can(Take(Do(s, Snapshot(c)), Sends(c, order)).value, Finish(c))
    ensures Take(s, CastSteps(c, order)) ==
            Some(Do(Take(Do(s, Snapshot(c)), Sends(c, order)).value, Finish(c)))
  {
    TakeOne(s, Snapshot(c), Sends(c, order) + [Finish(c)]);
    TakeAppend(Do(s, Snapshot(c)), Sends(c, order), [Finish(c)]);
    TakeLast(Take(Do(s, Snapshot(c)), Sends(c, order)).value, Finish(c));
  }
}
