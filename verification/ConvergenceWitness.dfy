/** Overlapping calls: two handlers write 5 and then 7 into the row, but publish in the other order, so the session
    is left showing 5 while the row holds 7. Nothing was dropped and no write failed. */
module ConvergenceWitness {
  import opened Channels
  import opened Broker
  import opened Store
  import opened Convergence
  import T = TcpSystem
  import B = BrokerSystem

  const FIVE: Update := T.Update("u", "m", 5, 0)
  const SEVEN: Update := T.Update("u", "m", 7, 0)
  const PAIR: Key := ("u", "m")

  const START: DB :=
    DB({"u"}, [MangaRow("m", "t", "a", "[]", "s", 0, "", "")], [ProgressRow("u", "m", 0, "reading", 0, 0)])

  lemma Extend(evs: seq<Event>, e: Event) returns (longer: seq<Event>)
    requires Feasible(START, evs) && Can(Run(START, evs), e)
    ensures Feasible(START, longer) && Run(START, longer) == Do(Run(START, evs), e)
  {
    longer := evs + [e];
    assert longer[..|longer| - 1] == evs;
  }

  predicate BusIdle(bus: Bus) {
    && bus.writer == None && !bus.panicked && bus.registered == {TCP}
    && bus.subs.Keys == {TCP} && bus.subs[TCP].life == B.Live && bus.subs[TCP].topic == B.Progress
    && !bus.subs[TCP].chan.closed && bus.subs[TCP].chan.cap == SUBSCRIBER_CAPACITY
    && (forall p <- bus.pubs :: !bus.pubs[p].looping)
  }

  function Waiting(bus: Bus): seq<Update>
    requires TCP in bus.subs
  {
    Messages(bus.subs[TCP].chan.queue)
  }

  predicate NoDrops(bus: Bus) {
    TCP in bus.subs && Dropped(bus.subs[TCP].chan.offers, SUBSCRIBER_CAPACITY) == []
  }

  /** The row holds `chapter`; these updates are at hand. */
  predicate RowHolds(s: World, chapter: int) {
    s.db.manga == START.manga && s.db.progress != [] && s.db.progress[0].user == "u" && s.db.progress[0].manga == "m" &&
    s.db.progress[0].chapter == chapter
  }

  const BOTH_CALLS: map<nat, Update> := map[1 := FIVE, 2 := SEVEN]

  lemma CheckBoth() returns (evs: seq<Event>)
    ensures Feasible(START, evs)
    ensures var s := Run(START, evs);
            && s.db == START && s.clock == 0 && s.wrote == map[] && s.writes == []
            && s.touched == {} && s.disturbed == {}
            && s.checked == BOTH_CALLS && s.bus == SubscribedBus()
            && s.tcp.loop == T.Waiting && s.tcp.settled == []
            && s.tcp.sessions == map[0 := T.Session("u", true, [], false, 0)]
  {
    evs := Extend([], TcpStep(T.Connect(0, "u")));
    evs := Extend(evs, Check(1, FIVE));
    evs := Extend(evs, Check(2, SEVEN));
  }

  /** One checked call writes the row. */
  lemma WriteOne(evs: seq<Event>, p: nat, chapter: int) returns (longer: seq<Event>)
    requires Feasible(START, evs)
    requires var s := Run(START, evs);
             RowHolds(s, chapter) && p in s.checked && KeyOf(s.checked[p]) == PAIR && p !in s.wrote &&
             s.bus == SubscribedBus()
    ensures Feasible(START, longer)
    ensures var s, s' := Run(START, evs), Run(START, longer);
            && RowHolds(s', s.checked[p].chapter) && s'.wrote == s.wrote[p := s.checked[p]]
            && s'.checked == s.checked - {p} && s'.bus == s.bus && s'.tcp == s.tcp
  {
    longer := Extend(evs, Http(p));
  }

  lemma WriteBoth() returns (evs: seq<Event>)
    ensures Feasible(START, evs)
    ensures var s := Run(START, evs);
            && RowHolds(s, 7) && s.wrote == BOTH_CALLS && s.bus == SubscribedBus()
            && s.tcp.loop == T.Waiting && s.tcp.settled == []
            && s.tcp.sessions == map[0 := T.Session("u", true, [], false, 0)]
  {
    evs := CheckBoth();
    evs := WriteOne(evs, 1, 0);
    evs := WriteOne(evs, 2, 5);
  }

  lemma TakeLock(evs: seq<Event>, p: nat) returns (longer: seq<Event>)
    requires Feasible(START, evs) && BusIdle(Run(START, evs).bus) && p in Run(START, evs).wrote
    ensures Feasible(START, longer)
    ensures var s, s' := Run(START, evs), Run(START, longer);
            && s'.bus.subs == s.bus.subs && s'.bus.registered == {TCP} && s'.bus.writer == None && !s'.bus.panicked
            && B.Looping(s'.bus, p)
            && B.Last(s'.bus.pubs[p].log) == B.Call(B.Progress, s.wrote[p], {TCP}, {})
            && (forall q <- s'.bus.pubs | q != p :: !s'.bus.pubs[q].looping)
            && s' == s.(bus := s'.bus, wrote := s.wrote - {p})
  {
    longer := Extend(evs, Begin(p));
    assert B.Index(Run(START, evs).bus, B.Progress) == {TCP};
  }

  /** Inside the loop of publisher `p`, with everybody else idle. */
  predicate Publishing1(bus: Bus, p: nat, u: Update, reached: set<nat>) {
    && bus.writer == None && !bus.panicked && bus.registered == {TCP}
    && bus.subs.Keys == {TCP} && bus.subs[TCP].life == B.Live && bus.subs[TCP].topic == B.Progress
    && !bus.subs[TCP].chan.closed && bus.subs[TCP].chan.cap == SUBSCRIBER_CAPACITY
    && B.Looping(bus, p) && B.Last(bus.pubs[p].log) == B.Call(B.Progress, u, {TCP}, reached)
    && (forall q <- bus.pubs | q != p :: !bus.pubs[q].looping)
  }

  lemma OfferOnBus(bus: Bus, p: nat, u: Update)
    requires Publishing1(bus, p, u, {}) && NoDrops(bus) && |bus.subs[TCP].chan.queue| < SUBSCRIBER_CAPACITY
    ensures B.Can(bus, B.Send(p, TCP))
    ensures var bus' := B.Do(bus, B.Send(p, TCP));
            Publishing1(bus', p, u, {TCP}) && NoDrops(bus') && Waiting(bus') == Waiting(bus) + [u]
  {
    var ch := bus.subs[TCP].chan;
    var bus' := B.Do(bus, B.Send(p, TCP));
    assert bus'.subs[TCP].chan.offers[..|ch.offers|] == ch.offers;
  }

  lemma OfferAlone(evs: seq<Event>, p: nat, u: Update) returns (longer: seq<Event>)
    requires Feasible(START, evs)
    requires var s := Run(START, evs);
             Publishing1(s.bus, p, u, {}) && NoDrops(s.bus) && |s.bus.subs[TCP].chan.queue| < SUBSCRIBER_CAPACITY
    ensures Feasible(START, longer)
    ensures var s, s' := Run(START, evs), Run(START, longer);
            && Publishing1(s'.bus, p, u, {TCP}) && NoDrops(s'.bus)
            && Waiting(s'.bus) == Waiting(s.bus) + [u] && s' == s.(bus := s'.bus)
  {
    OfferOnBus(Run(START, evs).bus, p, u);
    longer := Extend(evs, BusStep(B.Send(p, TCP)));
  }

  lemma ReleaseLock(evs: seq<Event>, p: nat, u: Update) returns (longer: seq<Event>)
    requires Feasible(START, evs) && Publishing1(Run(START, evs).bus, p, u, {TCP})
    ensures Feasible(START, longer)
    ensures var s, s' := Run(START, evs), Run(START, longer);
            BusIdle(s'.bus) && s'.bus.subs == s.bus.subs && s' == s.(bus := s'.bus)
  {
    longer := Extend(evs, BusStep(B.RUnlock(p)));
  }

  /** One whole publish with room in the channel and nobody in between. */
  lemma PublishAlone(evs: seq<Event>, p: nat) returns (longer: seq<Event>)
    requires Feasible(START, evs)
    requires var s := Run(START, evs);
             BusIdle(s.bus) && NoDrops(s.bus) && p in s.wrote && |s.bus.subs[TCP].chan.queue| < SUBSCRIBER_CAPACITY
    ensures Feasible(START, longer)
    ensures var s, s' := Run(START, evs), Run(START, longer);
            && BusIdle(s'.bus) && NoDrops(s'.bus)
            && Waiting(s'.bus) == Waiting(s.bus) + [s.wrote[p]]
            && s' == s.(bus := s'.bus, wrote := s.wrote - {p})
  {
    var u := Run(START, evs).wrote[p];
    longer := TakeLock(evs, p);
    longer := OfferAlone(longer, p, u);
    longer := ReleaseLock(longer, p, u);
  }

  lemma TakeFromBus(bus: Bus)
    requires BusIdle(bus) && NoDrops(bus) && bus.subs[TCP].chan.queue != []
    ensures B.Can(bus, B.Recv(TCP)) && bus.subs[TCP].chan.queue[0].msg == Waiting(bus)[0]
    ensures var bus' := B.Do(bus, B.Recv(TCP));
            BusIdle(bus') && NoDrops(bus') && Waiting(bus') == Waiting(bus)[1..]
  {
  }

  lemma TakeOne(evs: seq<Event>) returns (longer: seq<Event>)
    requires Feasible(START, evs)
    requires var s := Run(START, evs);
             BusIdle(s.bus) && NoDrops(s.bus) && s.bus.subs[TCP].chan.queue != [] && s.tcp.loop == T.Waiting
    ensures Feasible(START, longer)
    ensures var s, s' := Run(START, evs), Run(START, longer);
            && BusIdle(s'.bus) && NoDrops(s'.bus) && Waiting(s'.bus) == Waiting(s.bus)[1..]
            && s' == s.(bus := s'.bus, tcp := s'.tcp)
            && s'.tcp.loop == T.Holding(Waiting(s.bus)[0]) && s'.tcp.sessions == s.tcp.sessions
  {
    TakeFromBus(Run(START, evs).bus);
    longer := Extend(evs, Consume);
  }

  /** The only session is the user's, connected and working. */
  predicate OneSession(t: T.State) {
    t.sessions.Keys == {0} && t.sessions[0].live && !t.sessions[0].broken && t.sessions[0].user == "u"
  }

  lemma FanOutOnServer(t: T.State, u: Update)
    requires OneSession(t) && t.loop == T.Holding(u) && u.user == "u"
    ensures T.Can(t, T.Snapshot)
    ensures var t1 := T.Do(t, T.Snapshot);
            T.Can(t1, T.SendTo(0, true)) &&
            var t2 := T.Do(t1, T.SendTo(0, true));
            T.Can(t2, T.EndSend) &&
            var t3 := T.Do(t2, T.EndSend);
            t3.loop == T.Waiting && OneSession(t3) && t3.sessions[0].frames == t.sessions[0].frames + [u]
  {
    assert T.Targets(t, u) == {0};
  }

  lemma FanOut(evs: seq<Event>, u: Update) returns (longer: seq<Event>)
    requires Feasible(START, evs)
    requires var s := Run(START, evs); OneSession(s.tcp) && s.tcp.loop == T.Holding(u) && u.user == "u"
    ensures Feasible(START, longer)
    ensures var s, s' := Run(START, evs), Run(START, longer);
            && s' == s.(tcp := s'.tcp) && s'.tcp.loop == T.Waiting && OneSession(s'.tcp)
            && s'.tcp.sessions[0].frames == s.tcp.sessions[0].frames + [u]
  {
    FanOutOnServer(Run(START, evs).tcp, u);
    longer := Extend(evs, TcpStep(T.Snapshot));
    longer := Extend(longer, TcpStep(T.SendTo(0, true)));
    longer := Extend(longer, TcpStep(T.EndSend));
  }

  lemma PublishBoth() returns (evs: seq<Event>)
    ensures Feasible(START, evs)
    ensures var s := Run(START, evs);
            && BusIdle(s.bus) && NoDrops(s.bus) && Waiting(s.bus) == [SEVEN, FIVE] && s.wrote == map[]
            && RowHolds(s, 7) && s.tcp.loop == T.Waiting && OneSession(s.tcp) && s.tcp.sessions[0].frames == []
  {
    evs := WriteBoth();
    assert Waiting(Run(START, evs).bus) == [];
    evs := PublishAlone(evs, 2);
    evs := PublishAlone(evs, 1);
  }

  lemma DeliverBoth() returns (evs: seq<Event>)
    ensures Feasible(START, evs)
    ensures var s := Run(START, evs);
            && BusIdle(s.bus) && NoDrops(s.bus) && Waiting(s.bus) == [] && s.wrote == map[]
            && RowHolds(s, 7) && s.tcp.loop == T.Waiting && OneSession(s.tcp)
            && s.tcp.sessions[0].frames == [SEVEN, FIVE]
  {
    evs := PublishBoth();
    assert |Waiting(Run(START, evs).bus)| == 2;
    evs := TakeOne(evs);
    evs := FanOut(evs, SEVEN);
    assert |Waiting(Run(START, evs).bus)| == 1;
    evs := TakeOne(evs);
    evs := FanOut(evs, FIVE);
  }

  /** The run that diverges. */
  lemma OverlapCanDiverge()
    ensures exists evs: seq<Event> ::
              Feasible(START, evs) && Drained(Run(START, evs)) && 0 in Run(START, evs).tcp.sessions &&
              Run(START, evs).tcp.sessions[0].live && !Run(START, evs).tcp.sessions[0].broken &&
              Run(START, evs).tcp.sessions[0].frames == [SEVEN, FIVE] &&
              FindRow(Run(START, evs).db, "u", "m").Some? &&
              FindRow(Run(START, evs).db, "u", "m").value.chapter == 7
  {
    var evs := DeliverBoth();
    var s := Run(START, evs);
    assert |Waiting(s.bus)| == 0;
    assert forall p :: At(s.bus, p) == Nothing;
    assert Drained(s);
  }
}
