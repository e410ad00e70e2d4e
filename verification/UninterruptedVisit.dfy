/** Joining, talking and leaving without interruption in the hub's step system, against `ChatHub.Join`,
    `ChatHub.Say` and `ChatHub.Leave`. */
module UninterruptedVisit {
  import opened Channels
  import opened Hub
  import opened HubSystem
  import opened HubProofs
  import opened HubTheorems
  import opened UninterruptedCast

  /** Every member of the sender's room was pushed the frame, nobody else anything, and the hub did not change. */
  ghost predicate Told(s: State, s': State, c: nat, f: Frame) {
    && c in s.people && c in s'.people && s'.rooms == s.rooms && s'.log == s.log && s'.hits == s.hits
    && s'.people[c].phase == (if f.LeaveNote? then Gone else Reading)
    && (f.JoinNote? ==> s'.people[c].writer == Running)
    && (f.Chat? ==> f.id < |s'.casts| && s'.casts[f.id].snap.Some? && !s'.casts[f.id].snap.value.aborted)
    && s'.people[c].room == s.people[c].room && s'.people[c].cut == s.people[c].cut
    && forall d <- s.people :: d in s'.people &&
         s'.people[d].chan.queue ==
         if d in Members(s.rooms, s.people[c].room) then Pushed(s.people[d].chan.queue, 32, f)
         else s.people[d].chan.queue
  }

  lemma WholeCast(s: State, c: nat, order: seq<nat>)
    requires Inv(s) && Can(s, Snapshot(c)) && RangesOver(order, Members(s.rooms, s.people[c].room))
    ensures var r := Take(s, CastSteps(c, order)); r.Some? && Told(s, r.value, c, s.people[c].phase.frame)
  {
    MatchesBroadcastToRoom(s, c, order);
    CastTaken(s, c, order);
  }

  lemma {:induction false} TakeKeepsInv(s: State, evs: seq<Event>)
    requires Inv(s) && Take(s, evs).Some?
    ensures Inv(Take(s, evs).value)
    decreases |evs|
  {
    if evs != [] {
      StepKeepsInv(s, evs[0]);
      TakeKeepsInv(Do(s, evs[0]), evs[1..]);
    }
  }

  /** Some events, then a broadcast. */
  lemma CastAfter(s: State, evs: seq<Event>, c: nat, order: seq<nat>)
    requires Inv(s) && Take(s, evs).Some? && Can(Take(s, evs).value, Snapshot(c))
    requires RangesOver(order, Members(Take(s, evs).value.rooms, Take(s, evs).value.people[c].room))
    ensures var s1, r := Take(s, evs).value, Take(s, evs + CastSteps(c, order));
            r.Some? && Told(s1, r.value, c, s1.people[c].phase.frame)
  {
    TakeKeepsInv(s, evs);
    TakeAppend(s, evs, CastSteps(c, order));
    WholeCast(Take(s, evs).value, c, order);
  }

  /** A step that touches no map and no other client. */
  ghost predicate OnlySelf(s: State, s': State, c: nat) {
    && c in s.people && s'.people.Keys == s.people.Keys
    && s'.rooms == s.rooms && s'.log == s.log && s'.hits == s.hits
    && s'.people[c].room == s.people[c].room && s'.people[c].chan.closed == s.people[c].chan.closed
    && s'.people[c].chan.cap == s.people[c].chan.cap && s'.people[c].cut == s.people[c].cut
    && forall d <- s.people | d != c :: s'.people[d] == s.people[d]
  }

  // ----- One chat line -----

  lemma PostAnnounces(s: State, c: nat, text: string, ok: bool)
    requires Can(s, Post(c, text, ok)) && |s.casts| == |s.log|
    ensures var kept := if |text| > 1000 then text[..1000] else text;
            var s1 := Do(s, Post(c, text, ok));
            && Can(s1, Snapshot(c)) && s1.people.Keys == s.people.Keys
            && s1.people[c].phase.frame == (if ok then Chat(|s.log|) else UnsavedChat(c, kept))
            && s1.log == (if ok then s.log + [Msg(s.people[c].room, c, kept)] else s.log)
            && s1.rooms == s.rooms && s1.hits == s.hits && s1.people[c].room == s.people[c].room
            && forall d <- s.people :: s1.people[d].chan == s.people[d].chan
  {
  }

  /** A chat line, whatever order the loop takes: stored if the insert works, and either way pushed once to each member
      of the author's room, cut after a thousand characters; its broadcast is then over. */
  lemma MatchesSay(s: State, c: nat, text: string, ok: bool, order: seq<nat>)
    requires Inv(s) && Can(s, Post(c, text, ok)) && RangesOver(order, Members(s.rooms, s.people[c].room))
    ensures var kept := if |text| > 1000 then text[..1000] else text;
            var r := Take(s, [Post(c, text, ok)] + CastSteps(c, order));
            && r.Some? && c in r.value.people && r.value.people[c].phase == Reading
            && r.value.rooms == s.rooms && r.value.hits == s.hits
            && r.value.log == (if ok then s.log + [Msg(s.people[c].room, c, kept)] else s.log)
            && (ok ==> BroadcastOver(r.value, |s.log|))
            && forall d <- s.people :: d in r.value.people &&
                 r.value.people[d].chan.queue ==
                 if d in Members(s.rooms, s.people[c].room)
                 then Pushed(s.people[d].chan.queue, 32, if ok then Chat(|s.log|) else UnsavedChat(c, kept))
                 else s.people[d].chan.queue
  {
    PostAnnounces(s, c, text, ok);
    StepKeepsInv(s, Post(c, text, ok));
    TakeOne(s, Post(c, text, ok), CastSteps(c, order));
    WholeCast(Do(s, Post(c, text, ok)), c, order);
  }

  // ----- Leaving -----

  function LeaveSteps(c: nat): seq<Event> {
    [Hangup(c)] + ([Remove(c)] + [Close(c)])
  }

  /** Out of the room and closed, about to tell the others. */
  ghost predicate Departed(s: State, s': State, c: nat) {
    && c in s.people && s'.people.Keys == s.people.Keys && s'.log == s.log && s'.hits == s.hits
    && s'.rooms == Exit(s.rooms, s.people[c].room, c)
    && s'.people[c].phase == Announcing(LeaveNote(c)) && s'.people[c].room == s.people[c].room
    && s'.people[c].chan == s.people[c].chan.(closed := true)
    && forall d <- s.people | d != c :: s'.people[d] == s.people[d]
  }

  lemma LeaveDeparts(s: State, c: nat)
    requires Can(s, Hangup(c))
    ensures var r := Take(s, LeaveSteps(c)); r.Some? && Departed(s, r.value, c)
  {
    var s1 := Do(s, Hangup(c));
    TakeOne(s, Hangup(c), [Remove(c)] + [Close(c)]);
    TakeOne(s1, Remove(c), [Close(c)]);
    TakeLast(Do(s1, Remove(c)), Close(c));
  }

  lemma LeaveTold(s: State, s1: State, s2: State, c: nat)
    requires Departed(s, s1, c) && Told(s1, s2, c, LeaveNote(c))
    ensures c in s2.people && s2.people[c].phase == Gone
    ensures s2.rooms == Exit(s.rooms, s.people[c].room, c) && s2.log == s.log && s2.hits == s.hits
    ensures forall d <- s.people :: d in s2.people &&
              s2.people[d].chan.queue ==
              if d in Members(s.rooms, s.people[c].room) && d != c
              then Pushed(s.people[d].chan.queue, 32, LeaveNote(c)) else s.people[d].chan.queue
  {
  }

  /** Leaving: out of the room, the queue closed with what it holds, and those who stay are pushed the leave frame. */
  lemma MatchesLeave(s: State, c: nat, order: seq<nat>)
    requires Inv(s) && Can(s, Hangup(c)) && RangesOver(order, Members(s.rooms, s.people[c].room) - {c})
    ensures var r := Take(s, LeaveSteps(c) + CastSteps(c, order));
            && r.Some? && c in r.value.people && r.value.people[c].phase == Gone
            && r.value.rooms == Exit(s.rooms, s.people[c].room, c) && r.value.log == s.log && r.value.hits == s.hits
            && c !in Members(r.value.rooms, s.people[c].room)
            && forall d <- s.people :: d in r.value.people &&
                 r.value.people[d].chan.queue ==
                 if d in Members(s.rooms, s.people[c].room) && d != c
                 then Pushed(s.people[d].chan.queue, 32, LeaveNote(c)) else s.people[d].chan.queue
  {
    LeaveDeparts(s, c);
    CastAfter(s, LeaveSteps(c), c, order);
    LeaveTold(s, Take(s, LeaveSteps(c)).value, Take(s, LeaveSteps(c) + CastSteps(c, order)).value, c);
  }

  // ----- Joining -----

  function Replays(c: nat, n: nat): seq<Event> {
    if n == 0 then [] else [Replay(c)] + Replays(c, n - 1)
  }

  /** The replay sent to its end into a queue with room for it. */
  ghost predicate ReplayedAll(s: State, s': State, c: nat, rest: seq<nat>) {
    && OnlySelf(s, s', c) && s'.people[c].phase == Replaying([])
    && |s'.people[c].chan.queue| == |s.people[c].chan.queue| + |rest|
    && (forall k | 0 <= k < |s.people[c].chan.queue| :: s'.people[c].chan.queue[k] == s.people[c].chan.queue[k])
    && forall k | 0 <= k < |rest| :: s'.people[c].chan.queue[|s.people[c].chan.queue| + k] == History(rest[k])
  }

  lemma ReplayOne(s: State, c: nat, rest: seq<nat>)
    requires Can(s, Replay(c)) && !s.people[c].chan.closed && s.people[c].phase == Replaying(rest)
    requires |s.people[c].chan.queue| < s.people[c].chan.cap
    ensures var s1 := Do(s, Replay(c));
            && OnlySelf(s, s1, c) && s1.people[c].phase == Replaying(rest[1..])
            && s1.people[c].chan.queue == s.people[c].chan.queue + [History(rest[0])]
  {
  }

  lemma ReplayedInTurn(s: State, s1: State, s2: State, c: nat, rest: seq<nat>)
    requires rest != [] && OnlySelf(s, s1, c) && ReplayedAll(s1, s2, c, rest[1..])
    requires s1.people[c].chan.queue == s.people[c].chan.queue + [History(rest[0])]
    ensures ReplayedAll(s, s2, c, rest)
  {
    var n := |s.people[c].chan.queue|;
    forall k | 0 <= k < |rest|
      ensures s2.people[c].chan.queue[n + k] == History(rest[k])
    {
      if k > 0 {
        assert rest[1..][k - 1] == rest[k];
      }
    }
  }

  lemma {:induction false} ReplayRuns(s: State, c: nat, rest: seq<nat>)
    requires c in s.people && s.people[c].phase == Replaying(rest) && !s.people[c].chan.closed
    requires |s.people[c].chan.queue| + |rest| <= s.people[c].chan.cap
    ensures var r := Take(s, Replays(c, |rest|)); r.Some? && ReplayedAll(s, r.value, c, rest)
    decreases |rest|
  {
    if rest != [] {
      ReplayOne(s, c, rest);
      var s1 := Do(s, Replay(c));
      TakeOne(s, Replay(c), Replays(c, |rest| - 1));
      ReplayRuns(s1, c, rest[1..]);
      ReplayedInTurn(s, s1, Take(s1, Replays(c, |rest| - 1)).value, c, rest);
    }
  }

  /** In the room with its history read, nothing of it sent yet. */
  ghost predicate Arrived(s: State, s': State, c: nat) {
    && c in s.people && s'.people.Keys == s.people.Keys && s'.log == s.log && s'.hits == s.hits
    && s'.rooms == Enter(s.rooms, s.people[c].room, c)
    && s'.people[c].phase == Replaying(Recent(s.log, s.people[c].room, 20))
    && s'.people[c].cut.Some? && s'.people[c].cut.value.ok
    && s'.people[c].room == s.people[c].room && s'.people[c].chan == s.people[c].chan
    && forall d <- s.people | d != c :: s'.people[d] == s.people[d]
  }

  lemma Arrives(s: State, c: nat)
    requires Can(s, Register(c))
    ensures var r := Take(s, [Register(c)] + [Query(c, true)]); r.Some? && Arrived(s, r.value, c)
  {
    TakeOne(s, Register(c), [Query(c, true)]);
    TakeLast(Do(s, Register(c)), Query(c, true));
  }

  /** Register, read the history, replay it. */
  function AdmitSteps(c: nat, n: nat): seq<Event> {
    ([Register(c)] + [Query(c, true)]) + Replays(c, n)
  }

  /** In its room, the rows queued as history frames and nothing else, and nobody else touched. */
  ghost predicate Admitted(s: State, s': State, c: nat, ids: seq<nat>) {
    && c in s.people && s'.people.Keys == s.people.Keys && s'.log == s.log && s'.hits == s.hits
    && s'.rooms == Enter(s.rooms, s.people[c].room, c)
    && s'.people[c].phase == Replaying([]) && s'.people[c].room == s.people[c].room
    && s'.people[c].cut.Some? && s'.people[c].cut.value.ok
    && |s'.people[c].chan.queue| == |ids|
    && (forall k | 0 <= k < |ids| :: s'.people[c].chan.queue[k] == History(ids[k]))
    && forall d <- s.people | d != c :: s'.people[d] == s.people[d]
  }

  lemma ArrivedIsAdmitted(s: State, s1: State, s2: State, c: nat, ids: seq<nat>)
    requires Arrived(s, s1, c) && ReplayedAll(s1, s2, c, ids) && s.people[c].chan.queue == []
    ensures Admitted(s, s2, c, ids)
  {
  }

  /** Admission: the client is in its room, and its queue holds exactly the room's last twenty rows, oldest first, as
      history; nobody else is sent anything. */
  lemma MatchesAdmit(s: State, c: nat)
    requires Inv(s) && Can(s, Register(c)) && s.people[c].chan.queue == []
    ensures var ids := Recent(s.log, s.people[c].room, 20);
            var r := Take(s, AdmitSteps(c, |ids|));
            r.Some? && Admitted(s, r.value, c, ids)
  {
    var ids := Recent(s.log, s.people[c].room, 20);
    assert Timely(c, s.people[c], s.now) && QueueOk(c, s.people[c]);
    RecentIncreases(s.log, s.people[c].room, 20);
    Arrives(s, c);
    var s1 := Take(s, [Register(c)] + [Query(c, true)]).value;
    ReplayRuns(s1, c, ids);
    TakeAppend(s, [Register(c)] + [Query(c, true)], Replays(c, |ids|));
    ArrivedIsAdmitted(s, s1, Take(s1, Replays(c, |ids|)).value, c, ids);
  }

  lemma NoteAnnounces(s: State, c: nat)
    requires c in s.people && s.people[c].phase == Replaying([])
    ensures Can(s, StartJoinNote(c))
    ensures var s1 := Do(s, StartJoinNote(c));
            && Can(s1, Snapshot(c)) && s1.people[c].phase.frame == JoinNote(c)
            && OnlySelf(s, s1, c) && s1.people[c].chan == s.people[c].chan
  {
  }

  /** Everything before the broadcast. */
  function DoorSteps(c: nat, n: nat): seq<Event> {
    AdmitSteps(c, n) + [StartJoinNote(c)]
  }

  lemma ReadyToAnnounce(s: State, s1: State, c: nat, ids: seq<nat>)
    requires Take(s, AdmitSteps(c, |ids|)) == Some(s1) && Admitted(s, s1, c, ids)
    ensures Can(s1, StartJoinNote(c)) && Take(s, DoorSteps(c, |ids|)) == Some(Do(s1, StartJoinNote(c)))
  {
    NoteAnnounces(s1, c);
    TakeAppend(s, AdmitSteps(c, |ids|), [StartJoinNote(c)]);
    TakeLast(s1, StartJoinNote(c));
  }

  /** The queues once a client that was admitted has been announced. */
  ghost predicate Joined(s: State, s': State, c: nat, ids: seq<nat>) {
    && c in s.people && c in s'.people && s'.people[c].phase == Reading && s'.people[c].writer == Running
    && CaughtUp(s'.people[c])
    && s'.rooms == Enter(s.rooms, s.people[c].room, c) && s'.log == s.log && s'.hits == s.hits
    && |s'.people[c].chan.queue| == |ids| + 1
    && (forall k | 0 <= k < |ids| :: s'.people[c].chan.queue[k] == History(ids[k]))
    && s'.people[c].chan.queue[|ids|] == JoinNote(c)
    && forall d <- s.people | d != c :: d in s'.people &&
         s'.people[d].chan.queue ==
         if d in Members(s.rooms, s.people[c].room) then Pushed(s.people[d].chan.queue, 32, JoinNote(c))
         else s.people[d].chan.queue
  }

  lemma AdmittedIsJoined(s: State, s1: State, s2: State, s3: State, c: nat, ids: seq<nat>)
    requires Admitted(s, s1, c, ids) && OnlySelf(s1, s2, c) && s2.people[c].chan == s1.people[c].chan
    requires Told(s2, s3, c, JoinNote(c)) && |ids| <= 20
    ensures Joined(s, s3, c, ids)
  {
  }

  /** Joining: admitted, then announced to the whole room, itself included; afterwards it reads and is written to. */
  lemma MatchesJoin(s: State, c: nat, order: seq<nat>)
    requires Inv(s) && Can(s, Register(c)) && s.people[c].chan.queue == []
    requires RangesOver(order, Members(s.rooms, s.people[c].room) + {c})
    ensures var ids := Recent(s.log, s.people[c].room, 20);
            var r := Take(s, DoorSteps(c, |ids|) + CastSteps(c, order));
            r.Some? && Joined(s, r.value, c, ids)
  {
    var ids := Recent(s.log, s.people[c].room, 20);
    MatchesAdmit(s, c);
    var s1 := Take(s, AdmitSteps(c, |ids|)).value;
    ReadyToAnnounce(s, s1, c, ids);
    NoteAnnounces(s1, c);
    var s2 := Do(s1, StartJoinNote(c));
    CastAfter(s, DoorSteps(c, |ids|), c, order);
    RecentIncreases(s.log, s.people[c].room, 20);
    AdmittedIsJoined(s, s1, s2, Take(s, DoorSteps(c, |ids|) + CastSteps(c, order)).value, c, ids);
  }
}
