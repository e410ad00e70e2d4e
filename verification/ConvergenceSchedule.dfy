/** Convergence as a condition on the schedule: which call wrote last, and whose publish came last. */
module ConvergenceSchedule {
  import opened Channels
  import opened Store
  import opened Library
  import opened Convergence
  import B = BrokerSystem

  type Item = B.Item<Update>

  function LogOf(bus: Bus, p: nat): seq<B.Call<Update>> {
    B.PublisherOf(bus, p).log
  }

  /** The publish a write announced has been made with the same update, or is still to be made. */
  predicate Announced(s: World, w: Item) {
    (w.index < |LogOf(s.bus, w.pub)| && LogOf(s.bus, w.pub)[w.index].msg == w.msg) ||
    (w.pub in s.wrote && w.index == |LogOf(s.bus, w.pub)| && s.wrote[w.pub] == w.msg)
  }

  ghost predicate IssuedOk(s: World) {
    Messages(s.issued) == s.writes && forall w <- s.issued :: Announced(s, w)
  }

  /** A step of the bus only adds to a log, when that goroutine takes the read lock, and keeps the messages in it. */
  lemma StepLog(bus: Bus, e: B.Event<Update>, p: nat)
    requires B.Can(bus, e)
    ensures var log, log' := LogOf(bus, p), LogOf(B.Do(bus, e), p);
            && |log'| == |log| + (if e.RLock? && e.p == p then 1 else 0)
            && (forall i | 0 <= i < |log| :: log'[i].msg == log[i].msg)
            && (e.RLock? && e.p == p ==> log'[|log|].msg == e.msg)
  {
  }

  lemma BusKeepsIssued(s: World, e: B.Event<Update>)
    requires IssuedOk(s) && B.Can(s.bus, e) && (e.RLock? ==> e.p !in s.wrote)
    ensures IssuedOk(s.(bus := B.Do(s.bus, e)))
  {
    forall w <- s.issued
      ensures Announced(s.(bus := B.Do(s.bus, e)), w)
    {
      StepLog(s.bus, e, w.pub);
      assert Announced(s, w);
    }
  }

  lemma BeginKeepsIssued(s: World, p: nat)
    requires IssuedOk(s) && Can(s, Begin(p))
    ensures IssuedOk(Do(s, Begin(p)))
  {
    forall w <- s.issued
      ensures Announced(Do(s, Begin(p)), w)
    {
      StepLog(s.bus, B.RLock(p, B.Progress, s.wrote[p]), w.pub);
      assert Announced(s, w);
    }
  }

  lemma WriteKeepsIssued(s: World, p: nat, u: Update)
    requires IssuedOk(s) && Idle(s, p)
    ensures IssuedOk(WriteRow(s, p, u))
  {
    var s' := WriteRow(s, p, u);
    assert Messages(s'.issued) == Messages(s.issued) + [u];
    forall w <- s'.issued
      ensures Announced(s', w)
    {
      assert w in s.issued ==> Announced(s, w);
    }
  }

  lemma ReportKeepsIssued(s: World, p: nat, u: Update)
    requires IssuedOk(s) && Can(s, Report(p, u))
    ensures IssuedOk(Do(s, Report(p, u)))
  {
    forall w <- s.issued
      ensures Announced(Do(s, Report(p, u)), w)
    {
      assert Announced(s, w);
    }
  }

  lemma SameIssued(s: World, s': World)
    requires IssuedOk(s) && s'.bus == s.bus && s'.wrote == s.wrote && s'.writes == s.writes && s'.issued == s.issued
    ensures IssuedOk(s')
  {
    forall w <- s'.issued
      ensures Announced(s', w)
    {
      assert Announced(s, w);
    }
  }

  lemma StepKeepsIssued(s: World, e: Event)
    requires IssuedOk(s) && Can(s, e)
    ensures IssuedOk(Do(s, e))
  {
    match e
    case Http(p) =>
      SameIssued(s, s.(checked := s.checked - {p}));
      WriteKeepsIssued(s.(checked := s.checked - {p}), p, s.checked[p]);
    case Grpc(p, u) => WriteKeepsIssued(s, p, u);
    case Report(p, u) => ReportKeepsIssued(s, p, u);
    case Begin(p) => BeginKeepsIssued(s, p);
    case BusStep(be) => BusKeepsIssued(s, be);
    case Consume =>
      BusKeepsIssued(s, B.Recv(TCP));
      SameIssued(s.(bus := B.Do(s.bus, B.Recv(TCP))), Do(s, e));
    case Check(_, _) => SameIssued(s, Do(s, e));
    case Refuse(_) => SameIssued(s, Do(s, e));
    case Other(_) => SameIssued(s, Do(s, e));
    case TcpStep(_) => SameIssued(s, Do(s, e));
  }

  lemma {:induction false} RunsKeepIssued(db: DB, evs: seq<Event>)
    requires Feasible(db, evs)
    ensures IssuedOk(Run(db, evs))
    decreases |evs|
  {
    if evs != [] {
      RunsKeepIssued(db, evs[..|evs| - 1]);
      StepKeepsIssued(Run(db, evs[..|evs| - 1]), evs[|evs| - 1]);
    }
  }

  // ----- The last of a pair -----

  function OfPair(items: seq<Item>, k: Key): seq<Item> {
    if items == [] then []
    else
      var n := |items| - 1;
      OfPair(items[..n], k) + if KeyOf(items[n].msg) == k then [items[n]] else []
  }

  lemma {:induction false} PairMessages(items: seq<Item>, k: Key)
    ensures Messages(OfPair(items, k)) == For(Messages(items), k)
    ensures forall x <- OfPair(items, k) :: x in items
  {
    if items != [] {
      var n := |items| - 1;
      PairMessages(items[..n], k);
      assert Messages(items)[..n] == Messages(items[..n]);
    }
  }

  /** Whatever the channel was offered is a publish of its goroutine's log. */
  lemma OfferedIsLogged(s: World, x: Item)
    requires Inv(s) && x in Items(s.bus.subs[TCP].chan.offers)
    ensures x.index < |LogOf(s.bus, x.pub)| && LogOf(s.bus, x.pub)[x.index].msg == x.msg
  {
    var items := Items(s.bus.subs[TCP].chan.offers);
    assert B.Exact(s.bus, TCP, x.pub);
    B.CountBy(items, x);
    assert x in multiset(items);
    assert x in B.By(items, x.pub);
    B.HeardIsGenuine(LogOf(s.bus, x.pub), x.pub, TCP);
    var i :| 0 <= i < |B.By(items, x.pub)| && B.By(items, x.pub)[i] == x;
  }

  predicate SameCall(x: Item, y: Item) {
    x.pub == y.pub && x.index == y.index
  }

  lemma SameCallSameUpdate(s: World, w: Item, x: Item)
    requires Inv(s) && IssuedOk(s) && s.wrote == map[] && SameCall(w, x)
    requires w in s.issued && x in Items(s.bus.subs[TCP].chan.offers)
    ensures w.msg == x.msg
  {
    assert Announced(s, w);
    OfferedIsLogged(s, x);
  }

  lemma LastOfPair(items: seq<Item>, k: Key)
    requires OfPair(items, k) != []
    ensures For(Messages(items), k) != [] && B.Last(For(Messages(items), k)) == B.Last(OfPair(items, k)).msg
    ensures B.Last(OfPair(items, k)) in items
  {
    PairMessages(items, k);
  }

  lemma LastsAgree(s: World, k: Key)
    requires Inv(s) && IssuedOk(s) && s.wrote == map[]
    requires var written, offered := OfPair(s.issued, k), OfPair(Items(s.bus.subs[TCP].chan.offers), k);
             written != [] && offered != [] && SameCall(B.Last(written), B.Last(offered))
    ensures For(s.writes, k) != [] && For(Offered(s.bus), k) != []
    ensures B.Last(For(s.writes, k)) == B.Last(For(Offered(s.bus), k))
  {
    var offers := Items(s.bus.subs[TCP].chan.offers);
    LastOfPair(s.issued, k);
    LastOfPair(offers, k);
    SameCallSameUpdate(s, B.Last(OfPair(s.issued, k)), B.Last(OfPair(offers, k)));
  }

  /** If the call that wrote the pair's row last is also the one whose publish came last at the TCP channel, then once
      drained every live session of the user that has seen the pair ends on the row's chapter. Calls may overlap in
      any other way, some publishes may be of TCP reports, and only adding or removing the pair is excluded. */
  lemma LastWriterPublishesLast(db: DB, evs: seq<Event>, id: nat, k: Key)
    requires UniqueKeys(db.progress) && Feasible(db, evs) && Drained(Run(db, evs))
    requires id in Run(db, evs).tcp.sessions && k !in Run(db, evs).touched
    requires var c := Run(db, evs).tcp.sessions[id];
             c.live && !c.broken && c.user == k.0 && For(c.frames, k) != []
    requires var s := Run(db, evs);
             var written, offered := OfPair(s.issued, k), OfPair(Items(s.bus.subs[TCP].chan.offers), k);
             written != [] && offered != [] && SameCall(B.Last(written), B.Last(offered))
    ensures var s := Run(db, evs);
            var row := FindRow(s.db, k.0, k.1);
            row.Some? && row.value.chapter == B.Last(For(s.tcp.sessions[id].frames, k)).chapter
  {
    RunsKeepInv(db, evs);
    RunsKeepIssued(db, evs);
    LastsAgree(Run(db, evs), k);
    ConvergesIffLastPublishMatches(db, evs, id, k);
  }
}
