/** Every interleaving of the chat hub's goroutines (internal/websocket/hub.go).
    The hub's mutex guards single map updates, so each locked section is one step; sends happen outside it,
    one step each. `now` counts the steps taken, so times of different events can be compared. */
module HubSystem {
  import opened Channels
  import opened Hub

  datatype Phase =
    | Connecting                                         // queue made, not yet in a room
    | Registered                                         // past join's locked section
    | Replaying(rest: seq<nat>)                          // history read; these rows are still to be sent
    | Announcing(frame: Frame)                           // a broadcast before its snapshot
    | Sending(frame: Frame, at: nat, targets: set<nat>)  // snapshot taken; these are still to be tried
    | Reading                                            // in readPump
    | Leaving                                            // leave entered
    | Removed                                            // past leave's locked section
    | Gone
    | Stranded                                           // join panicked, so no deferred leave is pending

  datatype Writer = NotStarted | Running | Stopped

  /** When the history was read, how long the table was then, whether the read worked, and what it gave. */
  datatype Cut = Cut(at: nat, len: nat, ok: bool, replay: seq<nat>)

  datatype Person = Person(
    room: string,
    phase: Phase,
    writer: Writer,
    chan: Chan<Frame>,
    regAt: Option<nat>,
    cut: Option<Cut>,
    removedAt: Option<nat>,
    closedAt: Option<nat>)

  /** The broadcast of one stored message. */
  datatype Snap = Snap(at: nat, audience: set<nat>, reached: set<nat>, aborted: bool)
  datatype Cast = Cast(savedAt: nat, snap: Option<Snap>)

  /** A send that met a closed queue. */
  datatype Hit = Hit(sender: nat, target: nat, snapAt: nat, sentAt: nat)

  datatype State = State(
    now: nat,
    people: map<nat, Person>,
    rooms: map<string, set<nat>>,
    log: seq<Msg>,
    casts: seq<Cast>,            // casts[i] tells what became of the broadcast of row i
    hits: seq<Hit>)

  datatype Event =
    | Connect(c: nat, requested: string)
    | Register(c: nat)
    | Query(c: nat, ok: bool)
    | Replay(c: nat)
    | StartJoinNote(c: nat)
    | Snapshot(c: nat)
    | Send(c: nat, t: nat)
    | Finish(c: nat)
    | Post(c: nat, text: string, ok: bool)
    | Hangup(c: nat)
    | Remove(c: nat)
    | Close(c: nat)
    | Write(c: nat)
    | WriterStop(c: nat)

  function Init(): State {
    State(0, map[], map[], [], [], [])
  }

  predicate Can(s: State, e: Event) {
    if e.Connect? then e.c !in s.people
    else
      e.c in s.people &&
      var p := s.people[e.c];
      match e
      case Connect(_, _) => false
      case Register(_) => p.phase == Connecting
      case Query(_, _) => p.phase == Registered
      case Replay(_) => p.phase.Replaying? && p.phase.rest != []
      case StartJoinNote(_) => p.phase.Replaying? && p.phase.rest == []
      case Snapshot(_) => p.phase.Announcing? && (p.phase.frame.Chat? ==> p.phase.frame.id < |s.casts|)
      case Send(_, t) =>
        p.phase.Sending? && t in p.phase.targets && t in s.people &&
        (p.phase.frame.Chat? ==> p.phase.frame.id < |s.casts| && s.casts[p.phase.frame.id].snap.Some?)
      case Finish(_) => p.phase.Sending? && p.phase.targets == {}
      case Post(_, text, _) => p.phase == Reading && text != ""
      case Hangup(_) => p.phase == Reading
      case Remove(_) => p.phase == Leaving
      case Close(_) => p.phase == Removed
      case Write(_) => p.writer == Running && p.chan.queue != []
      case WriterStop(_) => p.writer == Running
  }

  /** Where a goroutine continues once its broadcast is over. */
  function AfterCast(f: Frame): Phase {
    if f.LeaveNote? then Gone else Reading
  }

  /** A panic runs readPump's deferred leave; join has none yet, and leave has already run. */
  function AfterPanic(f: Frame): Phase {
    if f.LeaveNote? then Gone else if f.JoinNote? then Stranded else Leaving
  }

  /** The acting client after the step. A send to a closed queue panics; one to the client's own queue is seen here. */
  function Self(s: State, e: Event): Person
    requires Can(s, e)
  {
    if e.Connect? then
      Person(RoomName(e.requested), Connecting, NotStarted, Make(SEND_CAPACITY), None, None, None, None)
    else
      var p := s.people[e.c];
      match e
      case Register(_) => p.(phase := Registered, regAt := Some(s.now))
      case Query(_, ok) =>
        var ids := if ok then Recent(s.log, p.room, HISTORY_LIMIT) else [];
        p.(phase := Replaying(ids), cut := Some(Cut(s.now, |s.log|, ok, ids)))
      case Replay(_) =>
        if p.chan.closed then p.(phase := Stranded)
        else p.(phase := Replaying(p.phase.rest[1..]), chan := TrySend(p.chan, History(p.phase.rest[0])))
      case StartJoinNote(c) => p.(phase := Announcing(JoinNote(c)))
      case Snapshot(_) => p.(phase := Sending(p.phase.frame, s.now, Members(s.rooms, p.room)))
      case Send(c, t) =>
        if s.people[t].chan.closed then p.(phase := AfterPanic(p.phase.frame))
        else
          p.(phase := Sending(p.phase.frame, p.phase.at, p.phase.targets - {t}),
             chan := if t == c then TrySend(p.chan, p.phase.frame) else p.chan)
      case Finish(_) =>
        p.(phase := AfterCast(p.phase.frame), writer := if p.phase.frame.JoinNote? then Running else p.writer)
      case Post(c, text, ok) =>
        p.(phase := Announcing(if ok then Chat(|s.log|) else UnsavedChat(c, Truncated(text))))
      case Hangup(_) => p.(phase := Leaving)
      case Remove(_) => p.(phase := Removed, removedAt := Some(s.now))
      case Close(c) => p.(phase := Announcing(LeaveNote(c)), chan := p.chan.(closed := true), closedAt := Some(s.now))
      case Write(_) => p.(chan := Receive(p.chan))
      case WriterStop(_) => p.(writer := Stopped)
  }

  /** The acting client, and the queue of somebody else it sends to. */
  function NextPeople(s: State, e: Event): map<nat, Person>
    requires Can(s, e)
  {
    var people := s.people[e.c := Self(s, e)];
    if e.Send? && e.t != e.c && !s.people[e.t].chan.closed then
      people[e.t := s.people[e.t].(chan := TrySend(s.people[e.t].chan, s.people[e.c].phase.frame))]
    else people
  }

  function NextRooms(s: State, e: Event): map<string, set<nat>>
    requires Can(s, e)
  {
    if e.Register? then Enter(s.rooms, s.people[e.c].room, e.c)
    else if e.Remove? then Exit(s.rooms, s.people[e.c].room, e.c)
    else s.rooms
  }

  predicate Stores(e: Event) {
    e.Post? && e.ok
  }

  function NextLog(s: State, e: Event): seq<Msg>
    requires Can(s, e)
  {
    if Stores(e) then s.log + [Msg(s.people[e.c].room, e.c, Truncated(e.text))] else s.log
  }

  /** The records of stored messages: a new one, or the snapshot, one send or the panic of the one under way. */
  function NextCasts(s: State, e: Event): seq<Cast>
    requires Can(s, e)
  {
    if Stores(e) then s.casts + [Cast(s.now, None)]
    else if (e.Snapshot? || e.Send?) && s.people[e.c].phase.frame.Chat? then
      var i := s.people[e.c].phase.frame.id;
      var cast := s.casts[i];
      if e.Snapshot? then
        s.casts[i := cast.(snap := Some(Snap(s.now, Members(s.rooms, s.people[e.c].room), {}, false)))]
      else if s.people[e.t].chan.closed then
        s.casts[i := cast.(snap := Some(cast.snap.value.(aborted := true)))]
      else
        s.casts[i := cast.(snap := Some(cast.snap.value.(reached := cast.snap.value.reached + {e.t})))]
    else s.casts
  }

  function NextHits(s: State, e: Event): seq<Hit>
    requires Can(s, e)
  {
    if e.Send? && s.people[e.t].chan.closed then s.hits + [Hit(e.c, e.t, s.people[e.c].phase.at, s.now)]
    else if e.Replay? && s.people[e.c].chan.closed then s.hits + [Hit(e.c, e.c, s.now, s.now)]
    else s.hits
  }

  function Do(s: State, e: Event): State
    requires Can(s, e)
  {
    State(s.now + 1, NextPeople(s, e), NextRooms(s, e), NextLog(s, e), NextCasts(s, e), NextHits(s, e))
  }

  predicate Feasible(evs: seq<Event>)
    decreases |evs|, 0
  {
    evs == [] || (Feasible(evs[..|evs| - 1]) && Can(Run(evs[..|evs| - 1]), evs[|evs| - 1]))
  }

  function Run(evs: seq<Event>): State
    requires Feasible(evs)
    decreases |evs|, 1
  {
    if evs == [] then Init() else Do(Run(evs[..|evs| - 1]), evs[|evs| - 1])
  }

  // ----- Invariants, one concern each -----

  predicate Carries(phase: Phase, f: Frame) {
    (phase.Announcing? || phase.Sending?) && phase.frame == f
  }

  /** Past leave's locked section. */
  predicate HasLeft(c: nat, phase: Phase) {
    phase.Removed? || phase.Gone? || Carries(phase, LeaveNote(c))
  }

  /** Between join's and leave's locked sections. */
  predicate InRoom(c: nat, phase: Phase) {
    !phase.Connecting? && !HasLeft(c, phase)
  }

  /** Still inside join. */
  predicate Joining(c: nat, phase: Phase) {
    phase.Connecting? || phase.Registered? || phase.Replaying? || phase.Stranded? || Carries(phase, JoinNote(c))
  }

  /** A goroutine only ever broadcasts about itself. */
  predicate OwnFrame(c: nat, phase: Phase) {
    (phase.Announcing? || phase.Sending?) ==>
      match phase.frame
      case JoinNote(who) => who == c
      case LeaveNote(who) => who == c
      case UnsavedChat(author, _) => author == c
      case Chat(_) => true
      case History(_) => false
  }

  /** One client's phase, its times, its writer and its queue agree. */
  predicate Timely(c: nat, p: Person, now: nat) {
    && OwnFrame(c, p.phase)
    && (p.regAt.Some? <==> !p.phase.Connecting?)
    && (p.cut.Some? <==> !p.phase.Connecting? && !p.phase.Registered?)
    && (p.removedAt.Some? <==> HasLeft(c, p.phase))
    && (p.closedAt.Some? <==> HasLeft(c, p.phase) && !p.phase.Removed?)
    && (p.chan.closed <==> p.closedAt.Some?)
    && (p.writer == NotStarted <==> Joining(c, p.phase))
    && (p.regAt.Some? ==> p.regAt.value < now)
    && (p.cut.Some? ==> p.regAt.value < p.cut.value.at < now)
    && (p.removedAt.Some? ==> p.regAt.value < p.removedAt.value < now)
    && (p.closedAt.Some? ==> p.removedAt.value < p.closedAt.value < now)
    && (p.phase.Sending? ==> p.regAt.value < p.phase.at < now)
    && (p.phase.Sending? && p.closedAt.Some? ==> p.closedAt.value < p.phase.at)
  }

  ghost predicate TimesOk(s: State) {
    forall c <- s.people :: Timely(c, s.people[c], s.now)
  }

  /** The room index holds exactly the clients between the two locked sections, each under its own room. */
  ghost predicate RoomsOk(s: State) {
    && (forall r <- s.rooms :: s.rooms[r] != {} && s.rooms[r] <= s.people.Keys)
    && (forall c <- s.people, r: string ::
          c in Members(s.rooms, r) <==> InRoom(c, s.people[c].phase) && s.people[c].room == r)
  }

  /** In room `room` at time `t`. */
  predicate InAt(p: Person, room: string, t: nat) {
    p.room == room && p.regAt.Some? && p.regAt.value < t && (p.removedAt.Some? ==> t < p.removedAt.value)
  }

  /** Every broadcast still under way has only clients left to try that were in the room at its snapshot. */
  ghost predicate TargetsOk(s: State) {
    forall c <- s.people | s.people[c].phase.Sending? :: forall t <- s.people[c].phase.targets ::
      t in s.people && InAt(s.people[t], s.people[c].room, s.people[c].phase.at)
  }

  /** The author's goroutine and the record of its broadcast agree. */
  ghost predicate AuthorOk(s: State, c: nat)
    requires c in s.people
  {
    var p := s.people[c];
    (p.phase.Announcing? || p.phase.Sending?) && p.phase.frame.Chat? ==>
      var id := p.phase.frame.id;
      id < |s.casts| == |s.log| && s.log[id].author == c &&
      if p.phase.Announcing? then s.casts[id].snap == None
      else
        s.casts[id].snap.Some? &&
        var snap := s.casts[id].snap.value;
        !snap.aborted && snap.at == p.phase.at && p.phase.targets == snap.audience - snap.reached
  }

  ghost predicate CastOk(s: State, i: nat)
    requires i < |s.casts| == |s.log|
  {
    var m := s.log[i];
    var cast := s.casts[i];
    && m.author in s.people && s.people[m.author].room == m.room
    && cast.savedAt < s.now
    && var phase := s.people[m.author].phase;
    if cast.snap == None then phase == Announcing(Chat(i))
    else
      var snap := cast.snap.value;
      && cast.savedAt < snap.at < s.now
      && snap.reached <= snap.audience
      && (snap.reached == snap.audience || snap.aborted || Carries(phase, Chat(i)))
      && (snap.aborted ==> exists t <- snap.audience - snap.reached :: t in s.people && s.people[t].chan.closed)
  }

  ghost predicate CastsOk(s: State) {
    && |s.casts| == |s.log|
    && (forall c <- s.people :: AuthorOk(s, c))
    && (forall i | 0 <= i < |s.log| :: CastOk(s, i))
  }

  /** A message's audience is exactly who was in its room when the snapshot was taken. */
  ghost predicate AudienceOk(s: State, i: nat)
    requires i < |s.casts| == |s.log|
  {
    s.casts[i].snap.Some? ==>
      var snap := s.casts[i].snap.value;
      forall c: nat :: c in snap.audience <==> c in s.people && InAt(s.people[c], s.log[i].room, snap.at)
  }

  ghost predicate AudiencesOk(s: State) {
    |s.casts| == |s.log| && forall i | 0 <= i < |s.log| :: AudienceOk(s, i)
  }

  /** Rows below a client's cut are exactly those saved before its query, and its replay comes from them. */
  ghost predicate CutOk(s: State, p: Person) {
    && (p.cut.Some? ==>
          var cut := p.cut.value;
          && cut.len <= |s.log| == |s.casts|
          && (forall i | 0 <= i < |s.log| ::
                if i < cut.len then s.casts[i].savedAt < cut.at else cut.at < s.casts[i].savedAt)
          && cut.replay == if cut.ok then Recent(s.log[..cut.len], p.room, HISTORY_LIMIT) else [])
    && (p.phase.Replaying? ==>
          p.cut.Some? && |p.phase.rest| <= |p.cut.value.replay| &&
          p.phase.rest == p.cut.value.replay[|p.cut.value.replay| - |p.phase.rest|..])
  }

  ghost predicate CutsOk(s: State) {
    forall c <- s.people :: CutOk(s, s.people[c])
  }

  function Tally<T(==)>(offers: seq<Offer<T>>, f: T): nat {
    multiset(Items(offers))[f]
  }

  /** The part of the replay already sent. */
  function Replayed(p: Person): seq<nat> {
    if p.cut.None? then []
    else if p.phase.Replaying? && |p.phase.rest| <= |p.cut.value.replay|
    then p.cut.value.replay[..|p.cut.value.replay| - |p.phase.rest|]
    else p.cut.value.replay
  }

  predicate Reached(s: State, i: nat, c: nat) {
    i < |s.casts| && s.casts[i].snap.Some? && c in s.casts[i].snap.value.reached
  }

  /** How often each stored message was offered to a client, live and as history. */
  ghost predicate CopiesOk(s: State, c: nat, i: nat)
    requires c in s.people
  {
    && Tally(s.people[c].chan.offers, Chat(i)) == (if Reached(s, i, c) then 1 else 0)
    && Tally(s.people[c].chan.offers, History(i)) == (if i in Replayed(s.people[c]) then 1 else 0)
  }

  ghost predicate AllCopiesOk(s: State) {
    forall c <- s.people, i: nat :: CopiesOk(s, c, i)
  }

  predicate Foreign(f: Frame, c: nat) {
    !f.History? && f != JoinNote(c)
  }

  /** Offers from other people's broadcasts. */
  function ForeignCount(offers: seq<Offer<Frame>>, c: nat): nat {
    if offers == [] then 0
    else
      var n := |offers| - 1;
      ForeignCount(offers[..n], c) + if Foreign(offers[n].item, c) then 1 else 0
  }

  function Min(a: int, b: int): int {
    if a < b then a else b
  }

  /** A queue nobody reads yet fills up and then drops. */
  ghost predicate Unread(p: Person) {
    && p.chan.received == []
    && |p.chan.queue| == Min(|p.chan.offers|, SEND_CAPACITY)
    && forall k | 0 <= k < |p.chan.offers| :: p.chan.offers[k].pending == Min(k, SEND_CAPACITY)
  }

  /** The client's own join note: still to be sent to itself, or offered at most once. */
  ghost predicate QueueOk(c: nat, p: Person) {
    && Conserved(p.chan) && p.chan.cap == SEND_CAPACITY
    && (p.writer == NotStarted ==> Unread(p))
    && |p.chan.offers| == ForeignCount(p.chan.offers, c) + |Replayed(p)| + Tally(p.chan.offers, JoinNote(c))
    && (p.cut.Some? ==> |p.cut.value.replay| <= HISTORY_LIMIT)
    && Tally(p.chan.offers, JoinNote(c)) <= 1
    && (MayStillAnnounce(c, p.phase) ==> Tally(p.chan.offers, JoinNote(c)) == 0)
  }

  predicate MayStillAnnounce(c: nat, phase: Phase) {
    phase.Connecting? || phase.Registered? || phase.Replaying? || phase == Announcing(JoinNote(c)) ||
    (phase.Sending? && phase.frame == JoinNote(c) && c in phase.targets)
  }

  ghost predicate QueuesOk(s: State) {
    forall c <- s.people :: QueueOk(c, s.people[c])
  }

  /** A send met a closed queue only because its snapshot preceded the removal and it came after the close. */
  ghost predicate HitOk(s: State, h: Hit) {
    && h.sender != h.target && h.target in s.people
    && var t := s.people[h.target];
    && t.removedAt.Some? && t.closedAt.Some?
    && h.snapAt < t.removedAt.value < t.closedAt.value < h.sentAt < s.now
  }

  ghost predicate HitsOk(s: State) {
    forall h <- s.hits :: HitOk(s, h)
  }

  ghost predicate Inv(s: State) {
    TimesOk(s) && RoomsOk(s) && TargetsOk(s) && CastsOk(s) && AudiencesOk(s) && CutsOk(s) &&
    AllCopiesOk(s) && QueuesOk(s) && HitsOk(s)
  }
}
