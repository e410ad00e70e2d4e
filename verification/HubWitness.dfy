/** A run on which a chat message never reaches a client that was in the room throughout: another client leaves
    between the author's snapshot and its send, the send to the closed queue panics, and the loop stops there. */
module HubWitness {
  import opened Hub
  import opened HubSystem
  import opened HubTheorems

  const ROOM := "general"

  ghost predicate Reachable(s: State) {
    exists evs: seq<Event> :: Feasible(evs) && Run(evs) == s
  }

  lemma Begin() returns (s: State)
    ensures Reachable(s) && s == Init()
  {
    s := Init();
    assert Feasible([]) && Run([]) == s;
  }

  lemma Step(s: State, e: Event) returns (next: State)
    requires Reachable(s) && Can(s, e)
    ensures Reachable(next) && next == Do(s, e)
  {
    var evs :| Feasible(evs) && Run(evs) == s;
    var longer := evs + [e];
    assert longer[..|longer| - 1] == evs;
    next := Do(s, e);
    assert Run(longer) == next;
  }

  /** `members` are in the general room with open queues and nothing has been posted; `readers` read. */
  predicate Settled(s: State, members: set<nat>, readers: set<nat>) {
    && s.people.Keys == members && readers <= members
    && Members(s.rooms, ROOM) == members
    && s.log == [] && s.casts == []
    && (forall c <- members :: s.people[c].room == ROOM && !s.people[c].chan.closed)
    && (forall c <- readers :: s.people[c].phase == Reading)
  }

  /** `c` has connected and is not in the room yet. */
  predicate AtTheDoor(s: State, members: set<nat>, readers: set<nat>, c: nat) {
    && c !in members && s.people.Keys == members + {c} && readers <= members
    && Members(s.rooms, ROOM) == members
    && s.log == [] && s.casts == []
    && (forall d <- members + {c} :: s.people[d].room == ROOM && !s.people[d].chan.closed)
    && (forall d <- readers :: s.people[d].phase == Reading)
    && s.people[c].phase == Connecting
  }

  lemma Knock(s: State, members: set<nat>, readers: set<nat>, c: nat) returns (next: State)
    requires Reachable(s) && Settled(s, members, readers) && c !in members
    ensures Reachable(next) && AtTheDoor(next, members, readers, c)
  {
    next := Step(s, Connect(c, ROOM));
  }

  lemma GoIn(s: State, members: set<nat>, readers: set<nat>, c: nat) returns (next: State)
    requires Reachable(s) && AtTheDoor(s, members, readers, c)
    ensures Reachable(next) && Settled(next, members + {c}, readers) && next.people[c].phase == Registered
  {
    next := Step(s, Register(c));
  }

  /** Past a history query that found nothing. */
  predicate FreshlyIn(p: Person) {
    p.phase == Replaying([]) && p.cut.Some? && p.cut.value.ok && p.cut.value.replay == []
  }

  lemma ReadHistory(s: State, members: set<nat>, readers: set<nat>, c: nat) returns (next: State)
    requires Reachable(s) && Settled(s, members, readers) && c in members - readers
    requires s.people[c].phase == Registered
    ensures Reachable(next) && Settled(next, members, readers) && FreshlyIn(next.people[c])
  {
    next := Step(s, Query(c, true));
  }

  lemma Arrive(s: State, members: set<nat>, readers: set<nat>, c: nat) returns (next: State)
    requires Reachable(s) && Settled(s, members, readers) && c !in members
    ensures Reachable(next) && Settled(next, members + {c}, readers) && FreshlyIn(next.people[c])
  {
    next := Knock(s, members, readers, c);
    next := GoIn(next, members, readers, c);
    next := ReadHistory(next, members + {c}, readers, c);
  }

  lemma Announce(s: State, members: set<nat>, readers: set<nat>, c: nat) returns (next: State)
    requires Reachable(s) && Settled(s, members, readers) && c in members - readers && FreshlyIn(s.people[c])
    ensures Reachable(next) && Settled(next, members, readers) && next.people[c].phase == Announcing(JoinNote(c))
  {
    next := Step(s, StartJoinNote(c));
  }

  /** `c` is announcing itself and has these still to try. */
  predicate Casting(s: State, c: nat, targets: set<nat>) {
    c in s.people && s.people[c].phase.Sending? && s.people[c].phase.frame == JoinNote(c) &&
    s.people[c].phase.targets == targets
  }

  lemma LookRound(s: State, members: set<nat>, readers: set<nat>, c: nat) returns (next: State)
    requires Reachable(s) && Settled(s, members, readers) && c in members - readers
    requires s.people[c].phase == Announcing(JoinNote(c))
    ensures Reachable(next) && Settled(next, members, readers) && Casting(next, c, members)
  {
    next := Step(s, Snapshot(c));
  }

  lemma SendNote(s: State, members: set<nat>, readers: set<nat>, c: nat, targets: set<nat>, t: nat)
    returns (next: State)
    requires Reachable(s) && Settled(s, members, readers) && c in members - readers
    requires Casting(s, c, targets) && t in targets && t in members
    ensures Reachable(next) && Settled(next, members, readers) && Casting(next, c, targets - {t})
  {
    NoteSent(s, members, readers, c, targets, t);
    next := Step(s, Send(c, t));
  }

  lemma NoteSent(s: State, members: set<nat>, readers: set<nat>, c: nat, targets: set<nat>, t: nat)
    requires Settled(s, members, readers) && c in members - readers
    requires Casting(s, c, targets) && t in targets && t in members
    ensures Can(s, Send(c, t))
    ensures Settled(Do(s, Send(c, t)), members, readers) && Casting(Do(s, Send(c, t)), c, targets - {t})
  {
  }

  lemma EndCast(s: State, members: set<nat>, readers: set<nat>, c: nat) returns (next: State)
    requires Reachable(s) && Settled(s, members, readers) && c in members - readers && Casting(s, c, {})
    ensures Reachable(next) && Settled(next, members, readers + {c})
  {
    next := Step(s, Finish(c));
  }

  lemma OneReader() returns (s: State)
    ensures Reachable(s) && Settled(s, {1}, {1})
  {
    s := Begin();
    s := Arrive(s, {}, {}, 1);
    assert {} + {1} == {1};
    s := Announce(s, {1}, {}, 1);
    s := LookRound(s, {1}, {}, 1);
    s := SendNote(s, {1}, {}, 1, {1}, 1);
    assert {1} - {1} == {};
    s := EndCast(s, {1}, {}, 1);
  }

  lemma TwoReaders() returns (s: State)
    ensures Reachable(s) && Settled(s, {0, 1}, {0, 1})
  {
    s := OneReader();
    s := Arrive(s, {1}, {1}, 0);
    assert {1} + {0} == {0, 1};
    s := Announce(s, {0, 1}, {1}, 0);
    s := LookRound(s, {0, 1}, {1}, 0);
    s := SendNote(s, {0, 1}, {1}, 0, {0, 1}, 0);
    s := SendNote(s, {0, 1}, {1}, 0, {0, 1} - {0}, 1);
    assert {0, 1} - {0} - {1} == {};
    s := EndCast(s, {0, 1}, {1}, 0);
  }

  // ----- The message -----

  /** Client 0 has stored a message; 1 and 2 are in the room with it, 2 fresh from its history query. */
  predicate Stored(s: State) {
    && s.people.Keys == {0, 1, 2} && |s.log| == |s.casts| == 1 && s.log[0] == Msg(ROOM, 0, "hi")
    && FreshlyIn(s.people[2]) && (forall c <- s.people :: s.people[c].room == ROOM)
    && (forall c <- {0, 2} :: !s.people[c].chan.closed)
  }

  /** Its broadcast has tried nobody yet. */
  predicate Untried(s: State, aborted: bool) {
    |s.casts| == 1 && s.casts[0].snap.Some? && s.casts[0].snap.value.audience == {0, 1, 2} &&
    s.casts[0].snap.value.reached == {} && s.casts[0].snap.value.aborted == aborted
  }

  predicate Going(s: State) {
    Stored(s) && Untried(s, false) && s.people[0].phase.Sending? && s.people[0].phase.frame == Chat(0) &&
    s.people[0].phase.targets == {0, 1, 2}
  }

  lemma ThirdArrives() returns (s: State)
    ensures Reachable(s) && Settled(s, {0, 1, 2}, {0, 1}) && FreshlyIn(s.people[2])
  {
    s := TwoReaders();
    s := Arrive(s, {0, 1}, {0, 1}, 2);
    assert {0, 1} + {2} == {0, 1, 2};
  }

  lemma PostIt() returns (s: State)
    ensures Reachable(s) && Stored(s) && Members(s.rooms, ROOM) == {0, 1, 2}
    ensures s.people[0].phase == Announcing(Chat(0)) && s.people[1].phase == Reading && !s.people[1].chan.closed
  {
    var s0 := ThirdArrives();
    s := Step(s0, Post(0, "hi", true));
  }

  lemma TakeSnapshot() returns (s: State)
    ensures Reachable(s) && Going(s) && s.people[1].phase == Reading && !s.people[1].chan.closed
  {
    var s0 := PostIt();
    s := Step(s0, Snapshot(0));
  }

  lemma SomebodyHangsUp() returns (s: State)
    ensures Reachable(s) && Going(s) && s.people[1].phase == Leaving && !s.people[1].chan.closed
  {
    var s0 := TakeSnapshot();
    s := Step(s0, Hangup(1));
  }

  lemma SomebodyIsRemoved() returns (s: State)
    ensures Reachable(s) && Going(s) && s.people[1].phase == Removed && !s.people[1].chan.closed
  {
    var s0 := SomebodyHangsUp();
    s := Step(s0, Remove(1));
  }

  lemma SomebodyCloses() returns (s: State)
    ensures Reachable(s) && Going(s) && s.people[1].chan.closed
  {
    var s0 := SomebodyIsRemoved();
    s := Step(s0, Close(1));
  }

  lemma SendPanics() returns (s: State)
    ensures Reachable(s) && Stored(s) && Untried(s, true) && s.people[0].phase == Leaving && s.hits != []
  {
    var s0 := SomebodyCloses();
    s := Step(s0, Send(0, 1));
  }

  /** `c` caught up, was in the message's audience and is still in the room; the author is done with the message;
      and yet `c` was never offered it, live or as history. */
  ghost predicate Lost(s: State, i: nat, c: nat) {
    && i < |s.log| == |s.casts| && c in s.people && s.log[i].author in s.people
    && CaughtUp(s.people[c]) && InRoom(c, s.people[c].phase) && s.people[c].room == s.log[i].room
    && s.casts[i].snap.Some? && c in s.casts[i].snap.value.audience
    && !Carries(s.people[s.log[i].author].phase, Chat(i))
    && Tally(s.people[c].chan.offers, Chat(i)) == 0
    && Tally(s.people[c].chan.offers, History(i)) == 0
  }

  /** After the panic the message is lost to client 2, who goes on to announce itself. */
  lemma LeftBehind() returns (s: State)
    ensures Reachable(s) && s.hits != [] && Untried(s, true)
    ensures s.people.Keys == {0, 1, 2} && |s.log| == 1 && s.log[0] == Msg(ROOM, 0, "hi")
    ensures s.people[0].phase == Leaving && s.people[2].phase == Announcing(JoinNote(2)) && s.people[2].room == ROOM
    ensures var cut := s.people[2].cut; cut.Some? && cut.value.ok && cut.value.replay == []
  {
    var s0 := SendPanics();
    s := Step(s0, StartJoinNote(2));
  }

  lemma AMessageCanBeLost()
    ensures exists evs: seq<Event> :: Feasible(evs) && Run(evs).hits != [] && Lost(Run(evs), 0, 2)
  {
    var s := LeftBehind();
    var evs :| Feasible(evs) && Run(evs) == s;
    CopiesSoFar(evs, 0, 2);
    assert !Reached(s, 0, 2) && Replayed(s.people[2]) == [];
    assert Lost(s, 0, 2);
  }
}
