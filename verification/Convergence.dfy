/** The whole path of a progress update: an HTTP or gRPC handler writes the row, then publishes; the broker offers
    the update to the TCP loop's channel; the loop writes it to the user's sessions. The broker and the TCP side are
    the step systems of their own modules, running side by side with the handlers. */
module Convergence {
  import opened Channels
  import opened Broker
  import opened Store
  import opened Library
  import opened RowHistory
  import opened Handlers
  import T = TcpSystem
  import B = BrokerSystem

  type Update = T.Update
  type Bus = B.State<Update>

  /** The channel of broadcastLoop, subscribed before the run starts. */
  const TCP: nat := 0

  type Key = (string, string)

  function KeyOf(u: Update): Key {
    (u.user, u.manga)
  }

  datatype World = World(
    bus: Bus,
    tcp: T.State,
    db: DB,
    clock: int,
    checked: map<nat, Update>,   // HTTP calls past their checks, the row not yet written
    wrote: map<nat, Update>,     // goroutines with an update at hand whose publish has not begun
    writes: seq<Update>,         // rows changed by progress handlers, in order
    issued: seq<B.Item<Update>>, // the same writes, each with the publish its call will make
    touched: set<Key>,           // pairs whose row something else than a progress call wrote
    disturbed: set<Key>)         // pairs for which something outside the assumptions happened

  datatype Event =
    | Check(p: nat, upd: Update)           // an HTTP call reads the manga and passes its checks
    | Http(p: nat)                         // its row is there and is written
    | Refuse(p: nat)                       // its row is not there: the call fails
    | Grpc(p: nat, upd: Update)            // no checks on the manga
    | Report(p: nat, upd: Update)          // a TCP client's progress message: published, never stored
    | Other(op: Op)                        // any other change to the tables
    | Begin(p: nat)                        // the publish takes the read lock
    | BusStep(be: B.Event<Update>)
    | Consume                              // the loop takes the next update from its channel
    | TcpStep(te: T.Event)

  function SubscribedBus(): Bus {
    B.State(map[TCP := B.Sub(B.Progress, B.Live, Make(SUBSCRIBER_CAPACITY))], {TCP}, map[], None, {}, false)
  }

  function Init(db: DB): World {
    World(SubscribedBus(), T.Init(), db, 0, map[], map[], [], [], {}, {})
  }

  // ----- What the bus shows of one publisher -----

  /** A progress publish under way, and whether the TCP channel has had its turn. */
  datatype Publishing = Nothing | Running(upd: Update, offered: bool)

  function At(bus: Bus, p: nat): Publishing {
    if B.Looping(bus, p) && B.Last(bus.pubs[p].log).topic == B.Progress
    then Running(B.Last(bus.pubs[p].log).msg, TCP in B.Last(bus.pubs[p].log).reached)
    else Nothing
  }

  function Messages(items: seq<B.Item<Update>>): seq<Update> {
    seq(|items|, i requires 0 <= i < |items| => items[i].msg)
  }

  /** Everything offered to the TCP channel so far. */
  function Offered(bus: Bus): seq<Update> {
    if TCP in bus.subs then Messages(Items(bus.subs[TCP].chan.offers)) else []
  }

  /** A handler's call for the pair has started and not returned. */
  predicate Busy(s: World, p: nat, k: Key) {
    (p in s.wrote && KeyOf(s.wrote[p]) == k) || (At(s.bus, p).Running? && KeyOf(At(s.bus, p).upd) == k)
  }

  /** Neither about to publish nor publishing. */
  predicate Idle(s: World, p: nat) {
    p !in s.wrote && !B.PublisherOf(s.bus, p).looping
  }

  predicate Free(s: World, p: nat) {
    Idle(s, p) && p !in s.checked
  }

  // ----- Steps -----

  /** Steps the bus takes by itself; progress publishes start with Begin and the TCP channel is Consume's. */
  predicate Unattended(s: World, e: B.Event<Update>) {
    match e
    case RLock(p, topic, _) => topic == B.Notify && Free(s, p)
    case Send(_, _) => true
    case RUnlock(_) => true
    case Recv(c) => c != TCP
    case MakeChan(c, _) => c != TCP
    case Lock(c) => c != TCP
    case Insert(c) => c != TCP
    case Delete(c) => c != TCP
    case Unlock(c) => c != TCP
    case CloseChan(c) => c != TCP
  }

  function NextUpdate(s: World): Update
    requires TCP in s.bus.subs && s.bus.subs[TCP].chan.queue != []
  {
    s.bus.subs[TCP].chan.queue[0].msg
  }

  ghost predicate Can(s: World, e: Event) {
    match e
    case Check(p, u) => Free(s, p) && PassesChecks(s.db, u.manga, u.chapter)
    case Http(p) => p in s.checked && Idle(s, p) && FindRow(s.db, s.checked[p].user, s.checked[p].manga).Some?
    case Refuse(p) => p in s.checked && FindRow(s.db, s.checked[p].user, s.checked[p].manga).None?
    case Grpc(p, u) => Free(s, p) && u.user != "" && u.manga != "" && FindRow(s.db, u.user, u.manga).Some?
    case Report(p, u) => Free(s, p) && u.manga != ""
    case Other(op) => !op.Progress?
    case Begin(p) => p in s.wrote && B.Can(s.bus, B.RLock(p, B.Progress, s.wrote[p]))
    case BusStep(be) => Unattended(s, be) && B.Can(s.bus, be)
    case Consume => B.Can(s.bus, B.Recv(TCP)) && T.Can(s.tcp, T.Take(NextUpdate(s)))
    case TcpStep(te) => !te.Take? && !te.Exit? && T.Can(s.tcp, te)
  }

  /** A second call for the same pair before the first has returned breaks the assumption. */
  ghost function WriteRow(s: World, p: nat, u: Update): World {
    s.(db := Apply(s.db, Progress(u.user, u.manga, u.chapter), s.clock), clock := s.clock + 1,
       wrote := s.wrote[p := u], writes := s.writes + [u],
       issued := s.issued + [B.Item(p, |B.PublisherOf(s.bus, p).log|, u)],
       disturbed := if exists q :: Busy(s, q, KeyOf(u)) then s.disturbed + {KeyOf(u)} else s.disturbed)
  }

  ghost function Do(s: World, e: Event): World
    requires Can(s, e)
  {
    match e
    case Check(p, u) => s.(checked := s.checked[p := u])
    case Http(p) => WriteRow(s.(checked := s.checked - {p}), p, s.checked[p])
    case Refuse(p) => s.(checked := s.checked - {p})
    case Grpc(p, u) => WriteRow(s, p, u)
    case Report(p, u) => s.(wrote := s.wrote[p := u], disturbed := s.disturbed + {KeyOf(u)})
    case Other(op) =>
      s.(db := Apply(s.db, op, s.clock), clock := s.clock + 1,
         touched := if op.Add? || op.Remove? then s.touched + {(op.user, op.manga)} else s.touched,
         disturbed := if op.Add? || op.Remove? then s.disturbed + {(op.user, op.manga)} else s.disturbed)
    case Begin(p) => s.(bus := B.Do(s.bus, B.RLock(p, B.Progress, s.wrote[p])), wrote := s.wrote - {p})
    case BusStep(be) => s.(bus := B.Do(s.bus, be))
    case Consume => s.(bus := B.Do(s.bus, B.Recv(TCP)), tcp := T.Do(s.tcp, T.Take(NextUpdate(s))))
    case TcpStep(te) => s.(tcp := T.Do(s.tcp, te))
  }

  ghost predicate Feasible(db: DB, evs: seq<Event>)
    decreases |evs|, 0
  {
    evs == [] || (Feasible(db, evs[..|evs| - 1]) && Can(Run(db, evs[..|evs| - 1]), evs[|evs| - 1]))
  }

  ghost function Run(db: DB, evs: seq<Event>): World
    requires Feasible(db, evs)
    decreases |evs|, 1
  {
    if evs == [] then Init(db) else Do(Run(db, evs[..|evs| - 1]), evs[|evs| - 1])
  }

  // ----- Invariants -----

  function For(upds: seq<Update>, k: Key): seq<Update> {
    if upds == [] then []
    else
      var n := |upds| - 1;
      For(upds[..n], k) + if KeyOf(upds[n]) == k then [upds[n]] else []
  }

  ghost predicate BusOk(s: World) {
    && B.Inv(s.bus)
    && B.LifeIs(s.bus, TCP, B.Live) && s.bus.subs[TCP].topic == B.Progress
    && (forall p <- s.wrote :: !B.PublisherOf(s.bus, p).looping)
    && s.touched <= s.disturbed
  }

  ghost predicate TcpOk(s: World) {
    && T.Inv(s.tcp) && !s.tcp.loop.Exited?
    && TCP in s.bus.subs && s.tcp.consumed == Messages(s.bus.subs[TCP].chan.received)
  }

  /** An update for the pair is written but not yet offered to the TCP channel. */
  predicate Owes(s: World, p: nat, k: Key) {
    (p in s.wrote && KeyOf(s.wrote[p]) == k) ||
    (At(s.bus, p).Running? && !At(s.bus, p).offered && KeyOf(At(s.bus, p).upd) == k)
  }

  function Owed(s: World, p: nat): Update
    requires p in s.wrote || At(s.bus, p).Running?
  {
    if p in s.wrote then s.wrote[p] else At(s.bus, p).upd
  }

  /** Undisturbed, a pair's row writes and its offers to the TCP channel are the same sequence, but for at most one
      update still on its way. */
  ghost predicate PipeOk(s: World, k: Key) {
    k !in s.disturbed ==>
      && (forall p, q :: Busy(s, p, k) && Busy(s, q, k) ==> p == q)
      && (forall p :: Owes(s, p, k) ==> For(Offered(s.bus), k) + [Owed(s, p)] == For(s.writes, k))
      && ((forall p :: !Owes(s, p, k)) ==> For(Offered(s.bus), k) == For(s.writes, k))
  }

  /** Untouched otherwise, the row holds the chapter last written, however the calls overlapped. */
  ghost predicate RowOk(s: World, k: Key) {
    k !in s.touched && For(s.writes, k) != [] ==>
      var row := FindRow(s.db, k.0, k.1);
      row.Some? && row.value.chapter == B.Last(For(s.writes, k)).chapter
  }

  ghost predicate Inv(s: World) {
    BusOk(s) && TcpOk(s) && UniqueKeys(s.db.progress) && forall k: Key :: PipeOk(s, k) && RowOk(s, k)
  }

  // ----- The bus as the pipe sees it -----

  predicate TcpLive(bus: Bus) {
    B.LifeIs(bus, TCP, B.Live) && bus.subs[TCP].topic == B.Progress
  }

  /** Steps that leave the TCP channel's own life alone. */
  predicate Harmless(e: B.Event<Update>) {
    (e.MakeChan? || e.Lock? || e.Insert? || e.Delete? || e.Unlock? || e.CloseChan?) ==> e.c != TCP
  }

  /** Every send meets an open channel. */
  ghost predicate Open(bus: Bus, e: B.Event<Update>) {
    e.Send? && e.c in bus.subs ==> !bus.subs[e.c].chan.closed
  }

  lemma SendsAreOpen(bus: Bus, e: B.Event<Update>)
    requires B.Can(bus, e) && B.Inv(bus)
    ensures Open(bus, e)
  {
    if e.Send? {
      B.SendIsOpen(bus, e.p, e.c);
    }
  }

  lemma BusStaysLive(bus: Bus, e: B.Event<Update>)
    requires B.Can(bus, e) && TcpLive(bus) && Harmless(e)
    ensures TcpLive(B.Do(bus, e))
  {
  }

  /** What one bus step does to the publish of one goroutine. */
  function NextAt(bus: Bus, e: B.Event<Update>, q: nat): Publishing {
    match e
    case RLock(p, topic, msg) =>
      if q != p then At(bus, q) else if topic == B.Progress then Running(msg, false) else Nothing
    case Send(p, c) =>
      if q == p && At(bus, q).Running? && c == TCP then Running(At(bus, q).upd, true) else At(bus, q)
    case RUnlock(p) => if q == p then Nothing else At(bus, q)
    case _ => At(bus, q)
  }

  lemma StepAt(bus: Bus, e: B.Event<Update>, q: nat)
    requires B.Can(bus, e) && Open(bus, e)
    ensures At(B.Do(bus, e), q) == NextAt(bus, e, q)
  {
  }

  lemma StepOffered(bus: Bus, e: B.Event<Update>)
    requires B.Can(bus, e) && Open(bus, e) && TCP in bus.subs
    ensures TCP in B.Do(bus, e).subs
    ensures Offered(B.Do(bus, e)) ==
            Offered(bus) + if e.Send? && e.c == TCP then [B.Last(bus.pubs[e.p].log).msg] else []
  {
  }

  /** The TCP channel gets only progress publishes, each once; and a progress publish does not return before. */
  lemma TcpHasItsTurn(bus: Bus, e: B.Event<Update>)
    requires B.Can(bus, e) && B.Inv(bus) && TcpLive(bus)
    ensures e.Send? && e.c == TCP ==> At(bus, e.p) == Running(B.Last(bus.pubs[e.p].log).msg, false)
    ensures e.RUnlock? && At(bus, e.p).Running? ==> At(bus, e.p).offered
  {
    if e.Send? || e.RUnlock? {
      assert e.p in bus.readers;
      assert TCP in bus.registered;
    }
  }

  // ----- The pipe -----

  lemma ForAppend(upds: seq<Update>, u: Update, k: Key)
    ensures For(upds + [u], k) == For(upds, k) + if KeyOf(u) == k then [u] else []
  {
    assert (upds + [u])[..|upds|] == upds;
  }

  /** Nothing about the pair moves along the pipe. */
  ghost predicate PipeStill(s: World, s': World, k: Key) {
    && (k !in s'.disturbed ==> k !in s.disturbed)
    && For(s'.writes, k) == For(s.writes, k)
    && For(Offered(s'.bus), k) == For(Offered(s.bus), k)
    && (forall p :: Busy(s', p, k) ==> Busy(s, p, k))
    && (forall p :: Owes(s', p, k) <==> Owes(s, p, k))
    && (forall p :: Owes(s, p, k) && Owes(s', p, k) ==> Owed(s', p) == Owed(s, p))
  }

  lemma StillPipe(s: World, s': World, k: Key)
    requires PipeOk(s, k) && PipeStill(s, s', k)
    ensures PipeOk(s', k)
  {
  }

  /** The TCP channel is offered the pair's update: what was owed is now in the channel's history. */
  lemma OfferKeepsPipe(s: World, p: nat, k: Key)
    requires BusOk(s) && PipeOk(s, k) && B.Can(s.bus, B.Send(p, TCP))
    requires KeyOf(B.Last(s.bus.pubs[p].log).msg) == k
    ensures PipeOk(s.(bus := B.Do(s.bus, B.Send(p, TCP))), k)
  {
    var e := B.Event<Update>.Send(p, TCP);
    var s' := s.(bus := B.Do(s.bus, e));
    SendsAreOpen(s.bus, e);
    TcpHasItsTurn(s.bus, e);
    StepOffered(s.bus, e);
    ForAppend(Offered(s.bus), At(s.bus, p).upd, k);
    assert Busy(s, p, k) && Owes(s, p, k);
    forall q: nat
      ensures Busy(s', q, k) ==> Busy(s, q, k)
      ensures k !in s.disturbed ==> !Owes(s', q, k)
    {
      OfferedOwesNothing(s, p, k, q);
    }
  }

  lemma OfferedOwesNothing(s: World, p: nat, k: Key, q: nat)
    requires BusOk(s) && PipeOk(s, k) && B.Can(s.bus, B.Send(p, TCP)) && Busy(s, p, k)
    requires At(s.bus, p).Running?
    ensures var s' := s.(bus := B.Do(s.bus, B.Send(p, TCP)));
            && (Busy(s', q, k) ==> Busy(s, q, k))
            && (k !in s.disturbed ==> !Owes(s', q, k))
  {
    var e := B.Event<Update>.Send(p, TCP);
    SendsAreOpen(s.bus, e);
    StepAt(s.bus, e, q);
    assert Owes(s.(bus := B.Do(s.bus, e)), q, k) ==> Busy(s, q, k);
  }

  lemma OtherBusStepIsStill(s: World, e: B.Event<Update>, k: Key)
    requires BusOk(s) && PipeOk(s, k) && B.Can(s.bus, e) && Harmless(e)
    requires e.RLock? ==> e.topic == B.Notify && e.p !in s.wrote
    requires e.Send? && e.c == TCP ==> KeyOf(B.Last(s.bus.pubs[e.p].log).msg) != k
    ensures PipeStill(s, s.(bus := B.Do(s.bus, e)), k)
  {
    var s' := s.(bus := B.Do(s.bus, e));
    OtherBusStepOffers(s, e, k);
    forall q: nat
      ensures Busy(s', q, k) ==> Busy(s, q, k)
      ensures Owes(s', q, k) <==> Owes(s, q, k)
      ensures Owes(s, q, k) && Owes(s', q, k) ==> Owed(s', q) == Owed(s, q)
    {
      OtherBusStepOwes(s, e, k, q);
    }
  }

  lemma OtherBusStepOffers(s: World, e: B.Event<Update>, k: Key)
    requires BusOk(s) && B.Can(s.bus, e)
    requires e.Send? && e.c == TCP ==> KeyOf(B.Last(s.bus.pubs[e.p].log).msg) != k
    ensures For(Offered(B.Do(s.bus, e)), k) == For(Offered(s.bus), k)
  {
    SendsAreOpen(s.bus, e);
    StepOffered(s.bus, e);
    if e.Send? && e.c == TCP {
      ForAppend(Offered(s.bus), B.Last(s.bus.pubs[e.p].log).msg, k);
    } else {
      assert Offered(B.Do(s.bus, e)) == Offered(s.bus);
    }
  }

  lemma OtherBusStepOwes(s: World, e: B.Event<Update>, k: Key, q: nat)
    requires BusOk(s) && B.Can(s.bus, e) && Harmless(e)
    requires e.RLock? ==> e.topic == B.Notify && e.p !in s.wrote
    requires e.Send? && e.c == TCP ==> KeyOf(B.Last(s.bus.pubs[e.p].log).msg) != k
    ensures var s' := s.(bus := B.Do(s.bus, e));
            && (Busy(s', q, k) ==> Busy(s, q, k))
            && (Owes(s', q, k) <==> Owes(s, q, k))
            && (Owes(s, q, k) && Owes(s', q, k) ==> Owed(s', q) == Owed(s, q))
  {
    SendsAreOpen(s.bus, e);
    TcpHasItsTurn(s.bus, e);
    StepAt(s.bus, e, q);
  }

  lemma BusStepKeepsPipe(s: World, e: B.Event<Update>, k: Key)
    requires BusOk(s) && PipeOk(s, k) && B.Can(s.bus, e) && Harmless(e)
    requires e.RLock? ==> e.topic == B.Notify && e.p !in s.wrote
    ensures PipeOk(s.(bus := B.Do(s.bus, e)), k)
  {
    if e.Send? && e.c == TCP && KeyOf(B.Last(s.bus.pubs[e.p].log).msg) == k {
      OfferKeepsPipe(s, e.p, k);
    } else {
      OtherBusStepIsStill(s, e, k);
      StillPipe(s, s.(bus := B.Do(s.bus, e)), k);
    }
  }

  lemma BeginIsStill(s: World, p: nat, k: Key)
    requires BusOk(s) && PipeOk(s, k) && Can(s, Begin(p))
    ensures PipeStill(s, Do(s, Begin(p)), k)
  {
    var e := B.RLock(p, B.Progress, s.wrote[p]);
    var s' := Do(s, Begin(p));
    StepOffered(s.bus, e);
    assert Offered(s'.bus) == Offered(s.bus);
    forall q: nat
      ensures Busy(s', q, k) ==> Busy(s, q, k)
      ensures Owes(s', q, k) <==> Owes(s, q, k)
      ensures Owes(s, q, k) && Owes(s', q, k) ==> Owed(s', q) == Owed(s, q)
    {
      StepAt(s.bus, e, q);
    }
  }

  /** Undisturbed, a write finds the pipe of its pair empty, and puts one update into it. */
  lemma OwnWriteKeepsPipe(s: World, p: nat, u: Update)
    requires BusOk(s) && PipeOk(s, KeyOf(u)) && Idle(s, p)
    ensures PipeOk(WriteRow(s, p, u), KeyOf(u))
  {
    var s', k := WriteRow(s, p, u), KeyOf(u);
    ForAppend(s.writes, u, k);
    if k !in s'.disturbed {
      forall q: nat
        ensures !Busy(s, q, k) && !Owes(s, q, k)
      {
      }
      assert For(Offered(s.bus), k) == For(s.writes, k);
      forall q: nat
        ensures Busy(s', q, k) ==> q == p
        ensures Owes(s', q, k) <==> q == p
      {
        assert !Busy(s, q, k);
      }
      assert Owes(s', p, k) && Owed(s', p) == u;
    }
  }

  lemma OtherWriteIsStill(s: World, p: nat, u: Update, k: Key)
    requires BusOk(s) && Idle(s, p) && KeyOf(u) != k
    ensures PipeStill(s, WriteRow(s, p, u), k)
  {
    ForAppend(s.writes, u, k);
  }

  lemma WriteKeepsPipe(s: World, p: nat, u: Update, k: Key)
    requires BusOk(s) && PipeOk(s, k) && Idle(s, p)
    ensures PipeOk(WriteRow(s, p, u), k)
  {
    if KeyOf(u) == k {
      OwnWriteKeepsPipe(s, p, u);
    } else {
      OtherWriteIsStill(s, p, u, k);
      StillPipe(s, WriteRow(s, p, u), k);
    }
  }

  lemma ReportIsStill(s: World, p: nat, u: Update, k: Key)
    requires BusOk(s) && Idle(s, p) && KeyOf(u) != k
    ensures PipeStill(s, s.(wrote := s.wrote[p := u], disturbed := s.disturbed + {KeyOf(u)}), k)
  {
  }

  /** Steps off the pipe: the same bus, the same updates at hand. */
  lemma OffThePipe(s: World, s': World, k: Key)
    requires PipeOk(s, k) && s'.bus == s.bus && s'.wrote == s.wrote && s'.writes == s.writes
    requires s.disturbed <= s'.disturbed
    ensures PipeOk(s', k)
  {
    StillPipe(s, s', k);
  }

  lemma ReportKeepsPipe(s: World, p: nat, u: Update, k: Key)
    requires BusOk(s) && PipeOk(s, k) && Can(s, Report(p, u))
    ensures PipeOk(Do(s, Report(p, u)), k)
  {
    if KeyOf(u) != k {
      ReportIsStill(s, p, u, k);
      StillPipe(s, Do(s, Report(p, u)), k);
    }
  }

  lemma StepKeepsPipe(s: World, e: Event, k: Key)
    requires BusOk(s) && PipeOk(s, k) && Can(s, e)
    ensures PipeOk(Do(s, e), k)
  {
    match e
    case Check(_, _) => OffThePipe(s, Do(s, e), k);
    case Refuse(_) => OffThePipe(s, Do(s, e), k);
    case Http(p) =>
      OffThePipe(s, s.(checked := s.checked - {p}), k);
      WriteKeepsPipe(s.(checked := s.checked - {p}), p, s.checked[p], k);
    case Grpc(p, u) => WriteKeepsPipe(s, p, u, k);
    case Report(p, u) => ReportKeepsPipe(s, p, u, k);
    case Begin(p) =>
      BeginIsStill(s, p, k);
      StillPipe(s, Do(s, e), k);
    case BusStep(be) => BusStepKeepsPipe(s, be, k);
    case Consume =>
      BusStepKeepsPipe(s, B.Recv(TCP), k);
      OffThePipe(s.(bus := B.Do(s.bus, B.Recv(TCP))), Do(s, e), k);
    case Other(_) => OffThePipe(s, Do(s, e), k);
    case TcpStep(_) => OffThePipe(s, Do(s, e), k);
  }

  // ----- The bus, the TCP side, and the rows -----

  lemma StepKeepsBus(s: World, e: Event)
    requires BusOk(s) && Can(s, e)
    ensures BusOk(Do(s, e))
  {
    if e.Begin? || e.BusStep? || e.Consume? {
      var be := if e.Begin? then B.RLock(e.p, B.Progress, s.wrote[e.p]) else if e.BusStep? then e.be else B.Recv(TCP);
      B.StepKeepsInv(s.bus, be);
      BusStaysLive(s.bus, be);
      forall p <- Do(s, e).wrote
        ensures !B.PublisherOf(Do(s, e).bus, p).looping
      {
        WaitersDoNotLoop(s, be, p);
      }
    }
  }

  lemma WaitersDoNotLoop(s: World, e: B.Event<Update>, p: nat)
    requires BusOk(s) && B.Can(s.bus, e) && p in s.wrote && (e.RLock? ==> e.p != p)
    ensures !B.PublisherOf(B.Do(s.bus, e), p).looping
  {
  }

  lemma BusStepReceives(bus: Bus, e: B.Event<Update>)
    requires B.Can(bus, e) && TCP in bus.subs && Harmless(e)
    ensures TCP in B.Do(bus, e).subs
    ensures B.Do(bus, e).subs[TCP].chan.received ==
            bus.subs[TCP].chan.received + if e == B.Recv(TCP) then [bus.subs[TCP].chan.queue[0]] else []
  {
  }

  lemma StepKeepsTcp(s: World, e: Event)
    requires TcpOk(s) && Can(s, e)
    ensures TcpOk(Do(s, e))
  {
    if e.TcpStep? {
      T.StepKeepsInv(s.tcp, e.te);
    } else if e.Consume? {
      var received := s.bus.subs[TCP].chan.received;
      T.StepKeepsInv(s.tcp, T.Take(NextUpdate(s)));
      BusStepReceives(s.bus, B.Recv(TCP));
      assert Messages(received + [s.bus.subs[TCP].chan.queue[0]]) == Messages(received) + [NextUpdate(s)];
    } else if e.Begin? {
      BusStepReceives(s.bus, B.RLock(e.p, B.Progress, s.wrote[e.p]));
    } else if e.BusStep? {
      BusStepReceives(s.bus, e.be);
    }
  }

  lemma WriteKeepsRow(s: World, p: nat, u: Update, k: Key)
    requires RowOk(s, k) && UniqueKeys(s.db.progress) && FindRow(s.db, u.user, u.manga).Some?
    ensures RowOk(WriteRow(s, p, u), k)
  {
    ForAppend(s.writes, u, k);
    ProgressOnRow(s.db, u, s.clock, k);
    if KeyOf(u) == k {
      LastAppended(For(s.writes, k), u);
    } else {
      assert For(s.writes + [u], k) == For(s.writes, k);
    }
  }

  lemma LastAppended<X>(before: seq<X>, x: X)
    ensures before + [x] != [] && B.Last(before + [x]) == x
  {
  }

  /** A progress update sets the chapter of its own row and leaves every other row. */
  lemma ProgressOnRow(db: DB, u: Update, now: int, k: Key)
    requires UniqueKeys(db.progress) && FindRow(db, u.user, u.manga).Some?
    ensures var after := Apply(db, Progress(u.user, u.manga, u.chapter), now);
            if KeyOf(u) == k
            then FindRow(after, k.0, k.1).Some? && FindRow(after, k.0, k.1).value.chapter == u.chapter
            else FindRow(after, k.0, k.1) == FindRow(db, k.0, k.1)
  {
    var op := Progress(u.user, u.manga, u.chapter);
    if KeyOf(u) == k {
      OwnTouchesRow(db, op, now, k.0, k.1);
    } else {
      OthersLeaveRow(db, op, now, k.0, k.1);
    }
  }

  lemma OtherKeepsRow(s: World, op: Op, k: Key)
    requires RowOk(s, k) && UniqueKeys(s.db.progress) && !op.Progress?
    ensures RowOk(Do(s, Other(op)), k)
  {
    if On(op, k.0, k.1) {
      OwnTouchesRow(s.db, op, s.clock, k.0, k.1);
    } else {
      OthersLeaveRow(s.db, op, s.clock, k.0, k.1);
    }
  }

  lemma StepKeepsRow(s: World, e: Event, k: Key)
    requires RowOk(s, k) && UniqueKeys(s.db.progress) && Can(s, e)
    ensures RowOk(Do(s, e), k)
  {
    match e
    case Http(p) => WriteKeepsRow(s.(checked := s.checked - {p}), p, s.checked[p], k);
    case Grpc(p, u) => WriteKeepsRow(s, p, u, k);
    case Other(op) => OtherKeepsRow(s, op, k);
    case _ =>
  }

  lemma StepKeepsTable(s: World, e: Event)
    requires UniqueKeys(s.db.progress) && Can(s, e)
    ensures UniqueKeys(Do(s, e).db.progress)
  {
    match e
    case Http(p) =>
      var u := s.checked[p];
      OpKeepsKeysUnique(s.db, Progress(u.user, u.manga, u.chapter), s.clock);
    case Grpc(_, u) => OpKeepsKeysUnique(s.db, Progress(u.user, u.manga, u.chapter), s.clock);
    case Other(op) => OpKeepsKeysUnique(s.db, op, s.clock);
    case _ =>
  }

  lemma InitIsOk(db: DB)
    requires UniqueKeys(db.progress)
    ensures Inv(Init(db))
  {
  }

  lemma {:induction false} RunsKeepInv(db: DB, evs: seq<Event>)
    requires UniqueKeys(db.progress) && Feasible(db, evs)
    ensures Inv(Run(db, evs))
    decreases |evs|
  {
    if evs == [] {
      InitIsOk(db);
    } else {
      var s, e := Run(db, evs[..|evs| - 1]), evs[|evs| - 1];
      RunsKeepInv(db, evs[..|evs| - 1]);
      StepKeepsBus(s, e);
      StepKeepsTcp(s, e);
      StepKeepsTable(s, e);
      forall k: Key
        ensures PipeOk(Do(s, e), k) && RowOk(Do(s, e), k)
      {
        StepKeepsPipe(s, e, k);
        StepKeepsRow(s, e, k);
      }
    }
  }

  // ----- Main results -----

  /** Everything sent on its way has arrived and nothing was dropped at the TCP channel. */
  ghost predicate Drained(s: World) {
    && s.wrote == map[] && (forall p :: At(s.bus, p) == Nothing)
    && TCP in s.bus.subs && s.bus.subs[TCP].chan.queue == []
    && Dropped(s.bus.subs[TCP].chan.offers, SUBSCRIBER_CAPACITY) == []
    && s.tcp.loop == T.Waiting
  }

  lemma {:induction false} ForConcat(a: seq<Update>, b: seq<Update>, k: Key)
    ensures For(a + b, k) == For(a, k) + For(b, k)
  {
    if b == [] {
      assert a + b == a;
    } else {
      var n := |b| - 1;
      ForConcat(a, b[..n], k);
      assert (a + b)[..|a + b| - 1] == a + b[..n];
    }
  }

  /** A pair's updates are among its user's. */
  lemma {:induction false} ForOfMine(upds: seq<Update>, k: Key)
    ensures For(T.Mine(upds, k.0), k) == For(upds, k)
  {
    if upds != [] {
      var n := |upds| - 1;
      ForOfMine(upds[..n], k);
      var before := T.Mine(upds[..n], k.0);
      if upds[n].user == k.0 {
        ForAppend(before, upds[n], k);
      } else {
        assert T.Mine(upds, k.0) == before && For(upds, k) == For(upds[..n], k);
      }
    }
  }

  lemma DrainedMeansSettled(s: World)
    requires Inv(s) && Drained(s)
    ensures s.tcp.settled == Offered(s.bus)
  {
    var ch := s.bus.subs[TCP].chan;
    assert Conserved(ch);
    NoLagNoLoss(ch.offers, SUBSCRIBER_CAPACITY);
    assert ch.received + ch.queue == ch.received;
  }

  lemma SeesPublished(s: World, id: nat, k: Key)
    requires Inv(s) && Drained(s) && id in s.tcp.sessions
    requires var c := s.tcp.sessions[id]; c.live && !c.broken && c.user == k.0
    ensures var c := s.tcp.sessions[id];
            c.base <= |T.Mine(s.tcp.settled, k.0)| &&
            For(Offered(s.bus), k) == For(T.Mine(s.tcp.settled, k.0)[..c.base], k) + For(c.frames, k)
  {
    DrainedMeansSettled(s);
    assert T.RunOk(s.tcp, id);
    var c, all := s.tcp.sessions[id], T.Mine(s.tcp.settled, k.0);
    ForOfMine(s.tcp.settled, k);
    ForConcat(all[..c.base], c.frames, k);
    assert all[..c.base] + c.frames == all;
  }

  /** What a live session with a working writer has seen of a pair, once drained: everything offered for the pair
      since the session registered, in the order it was published. No assumption on overlap or other changes. */
  lemma SessionSeesPublished(db: DB, evs: seq<Event>, id: nat, k: Key)
    requires UniqueKeys(db.progress) && Feasible(db, evs) && Drained(Run(db, evs))
    requires id in Run(db, evs).tcp.sessions
    requires var c := Run(db, evs).tcp.sessions[id]; c.live && !c.broken && c.user == k.0
    ensures var s := Run(db, evs);
            var c := s.tcp.sessions[id];
            c.base <= |T.Mine(s.tcp.settled, k.0)| &&
            For(Offered(s.bus), k) == For(T.Mine(s.tcp.settled, k.0)[..c.base], k) + For(c.frames, k)
  {
    RunsKeepInv(db, evs);
    SeesPublished(Run(db, evs), id, k);
  }

  /** Undisturbed and drained, the chapters written are the chapters published, and the last is in the row. */
  lemma WritesArePublished(s: World, k: Key)
    requires Inv(s) && Drained(s) && k !in s.disturbed
    ensures For(Offered(s.bus), k) == For(s.writes, k)
    ensures For(s.writes, k) != [] ==>
              var row := FindRow(s.db, k.0, k.1);
              row.Some? && row.value.chapter == B.Last(For(s.writes, k)).chapter
  {
    assert PipeOk(s, k) && RowOk(s, k);
    assert forall p :: !Owes(s, p, k);
  }

  /** Convergence: for a pair whose progress calls did not overlap and that nothing else touched, once drained, each
      live session of the user has seen exactly the chapters written since it registered, in order; so the last
      frame it has for the pair carries the chapter in the row. */
  lemma SessionsConverge(db: DB, evs: seq<Event>, id: nat, k: Key)
    requires UniqueKeys(db.progress) && Feasible(db, evs) && Drained(Run(db, evs))
    requires id in Run(db, evs).tcp.sessions && k !in Run(db, evs).disturbed
    requires var c := Run(db, evs).tcp.sessions[id]; c.live && !c.broken && c.user == k.0
    ensures var s := Run(db, evs);
            var c := s.tcp.sessions[id];
            && c.base <= |T.Mine(s.tcp.settled, k.0)|
            && For(s.writes, k) == For(T.Mine(s.tcp.settled, k.0)[..c.base], k) + For(c.frames, k)
            && (For(c.frames, k) != [] ==>
                  var row := FindRow(s.db, k.0, k.1);
                  row.Some? && row.value.chapter == B.Last(For(c.frames, k)).chapter)
  {
    RunsKeepInv(db, evs);
    SeesPublished(Run(db, evs), id, k);
    WritesArePublished(Run(db, evs), k);
  }

  lemma SuffixEndsTheSame(s: World, id: nat, k: Key, seen: seq<Update>, all: seq<Update>)
    requires Inv(s) && Drained(s) && id in s.tcp.sessions
    requires var c := s.tcp.sessions[id]; c.live && !c.broken && c.user == k.0
    requires seen == For(s.tcp.sessions[id].frames, k) && seen != [] && all == For(Offered(s.bus), k)
    ensures all != [] && B.Last(all) == B.Last(seen)
  {
    SeesPublished(s, id, k);
    var before := For(T.Mine(s.tcp.settled, k.0)[..s.tcp.sessions[id].base], k);
    assert all == before + seen;
  }

  /** Exactly when it converges: for a pair that nobody added or removed, a drained session that has seen the pair
      ends on the row's chapter if and only if the publish that came last carried the same chapter as the write
      that came last. Calls may overlap and TCP clients may report progress of their own: the order of publishing
      decides, not the order of writing. */
  lemma ConvergesIffLastPublishMatches(db: DB, evs: seq<Event>, id: nat, k: Key)
    requires UniqueKeys(db.progress) && Feasible(db, evs) && Drained(Run(db, evs))
    requires id in Run(db, evs).tcp.sessions && k !in Run(db, evs).touched && For(Run(db, evs).writes, k) != []
    requires var c := Run(db, evs).tcp.sessions[id];
             c.live && !c.broken && c.user == k.0 && For(c.frames, k) != []
    ensures var s := Run(db, evs);
            var row := FindRow(s.db, k.0, k.1);
            row.Some? && For(Offered(s.bus), k) != [] &&
            (B.Last(For(s.tcp.sessions[id].frames, k)).chapter == row.value.chapter <==>
             B.Last(For(Offered(s.bus), k)).chapter == B.Last(For(s.writes, k)).chapter)
  {
    RunsKeepInv(db, evs);
    var s := Run(db, evs);
    assert RowOk(s, k);
    SuffixEndsTheSame(s, id, k, For(s.tcp.sessions[id].frames, k), For(Offered(s.bus), k));
  }
}
