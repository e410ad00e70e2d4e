/** Nobody gets stuck: in every reachable state each goroutine inside a call has a step, or waits for a lock whose owner
    has one. */
module NoDeadlock {
  import opened Channels
  import opened Library
  import opened Store
  import B = BrokerSystem
  import H = HubSystem
  import HP = HubProofs
  import T = TcpSystem
  import L = LineSystem
  import F = LineFraming
  import K = LineLocked
  import W = SessionWire
  import C = Convergence

  // ----- The broker -----

  /** Owners that do not wait for the lock can go on; while nobody holds it, everybody who wants it can have it. */
  ghost predicate OwnerCanStep<M>(s: B.State<M>, c: nat)
    requires c in s.subs
  {
    match s.subs[c].life
    case Made => s.writer == None && s.readers == {} ==> B.Can(s, B.Lock(c))
    case SubLocked => B.Can(s, B.Insert(c))
    case SubInserted => B.Can(s, B.Unlock(c))
    case Live =>
      (s.writer == None && s.readers == {} ==> B.Can(s, B.Lock(c))) &&
      (s.subs[c].chan.queue != [] ==> B.Can(s, B.Recv(c)))
    case UnsubLocked => B.Can(s, B.Delete(c))
    case UnsubDeleted => B.Can(s, B.Unlock(c))
    case UnsubUnlocked => B.Can(s, B.CloseChan(c))
    case Closed => true
  }

  lemma ReaderCanStep<M>(s: B.State<M>, p: nat)
    requires B.Inv(s) && p in s.readers
    ensures B.Can(s, B.RUnlock(p)) || exists c :: B.Can(s, B.Send(p, c))
  {
    var call := B.Last(s.pubs[p].log);
    if call.audience != call.reached {
      assert !(call.audience <= call.reached);
      var c :| c in call.audience && c !in call.reached;
      assert B.Can(s, B.Send(p, c));
    }
  }

  /** Whoever holds the broker's lock, for writing or for reading, can go on, and so the lock is given back; when it is
      free, whoever wants it can have it. */
  lemma BrokerIsNeverStuck<M>(evs: seq<B.Event<M>>, p: nat, topic: B.TopicName, msg: M)
    requires B.Feasible(evs)
    ensures var s := B.Run(evs);
            && (forall c <- s.subs :: OwnerCanStep(s, c))
            && (s.writer.Some? ==> s.writer.value in s.subs && B.HoldsWriteLock(s.subs[s.writer.value].life))
            && (p in s.readers ==> B.Can(s, B.RUnlock(p)) || exists c :: B.Can(s, B.Send(p, c)))
            && (p !in s.readers && s.writer == None ==> B.Can(s, B.RLock(p, topic, msg)))
  {
    B.RunsAreSafe(evs);
    BrokerSteps(B.Run(evs), p, topic, msg);
  }

  lemma BrokerSteps<M>(s: B.State<M>, p: nat, topic: B.TopicName, msg: M)
    requires B.Inv(s)
    ensures forall c <- s.subs :: OwnerCanStep(s, c)
    ensures s.writer.Some? ==> s.writer.value in s.subs && B.HoldsWriteLock(s.subs[s.writer.value].life)
    ensures p in s.readers ==> B.Can(s, B.RUnlock(p)) || exists c :: B.Can(s, B.Send(p, c))
    ensures p !in s.readers && s.writer == None ==> B.Can(s, B.RLock(p, topic, msg))
  {
    if p in s.readers {
      ReaderCanStep(s, p);
    }
  }

  // ----- The chat hub -----

  lemma SenderCanStep(s: H.State, c: nat)
    requires c in s.people && s.people[c].phase.Sending? && H.AuthorOk(s, c) && H.TargetsOk(s)
    ensures H.Can(s, H.Finish(c)) || exists t :: H.Can(s, H.Send(c, t))
  {
    if s.people[c].phase.targets != {} {
      var t :| t in s.people[c].phase.targets;
      assert H.Can(s, H.Send(c, t));
    }
  }

  /** The next step of the client's own goroutine. */
  ghost predicate ClientCanStep(s: H.State, c: nat, text: string, ok: bool)
    requires c in s.people
  {
    match s.people[c].phase
    case Connecting => H.Can(s, H.Register(c))
    case Registered => H.Can(s, H.Query(c, ok))
    case Replaying(rest) => H.Can(s, if rest == [] then H.StartJoinNote(c) else H.Replay(c))
    case Announcing(_) => H.Can(s, H.Snapshot(c))
    case Sending(_, _, _) => H.Can(s, H.Finish(c)) || exists t :: H.Can(s, H.Send(c, t))
    case Reading => H.Can(s, H.Hangup(c)) && (H.Can(s, H.Post(c, text, ok)) <==> text != "")
    case Leaving => H.Can(s, H.Remove(c))
    case Removed => H.Can(s, H.Close(c))
    case Gone => true
    case Stranded => true
  }

  lemma ClientSteps(s: H.State, c: nat, text: string, ok: bool)
    requires c in s.people && H.AuthorOk(s, c) && H.TargetsOk(s)
    ensures ClientCanStep(s, c, text, ok)
  {
    if s.people[c].phase.Sending? {
      SenderCanStep(s, c);
    }
  }

  /** Joining, broadcasting and leaving never wait for anybody: each client's goroutine has its next step until it is
      gone, or stranded by a panic; and its writer can always take what waits. */
  lemma HubIsNeverStuck(evs: seq<H.Event>, c: nat, text: string, ok: bool)
    requires H.Feasible(evs) && c in H.Run(evs).people
    ensures var s := H.Run(evs);
            var p := s.people[c];
            && ClientCanStep(s, c, text, ok)
            && (p.writer == H.Running ==> H.Can(s, H.WriterStop(c)) && (p.chan.queue != [] ==> H.Can(s, H.Write(c))))
  {
    HP.RunsKeepInv(evs);
    ClientSteps(H.Run(evs), c, text, ok);
  }

  // ----- The TCP loop and the line writer -----

  lemma LoopCanStep(s: T.State)
    requires T.Inv(s) && s.loop.Sending?
    ensures T.Can(s, T.EndSend) || exists id :: T.Can(s, T.SendTo(id, false))
  {
    if s.loop.targets != {} {
      var id :| id in s.loop.targets;
      assert T.Can(s, T.SendTo(id, false));
    }
  }

  /** The loop never waits for a session: a write ends, well or badly, and the loop goes on. */
  lemma FanOutIsNeverStuck(evs: seq<T.Event>, upd: T.Update)
    requires T.Feasible(evs)
    ensures var s := T.Run(evs);
            match s.loop
            case Waiting => T.Can(s, T.Take(upd)) && (s.stopped ==> T.Can(s, T.Exit))
            case Holding(_) => T.Can(s, T.Snapshot)
            case Sending(_, _) => T.Can(s, T.EndSend) || exists id :: T.Can(s, T.SendTo(id, false))
            case Exited => true
  {
    T.RunsKeepInv(evs);
    if T.Run(evs).loop.Sending? {
      LoopCanStep(T.Run(evs));
    }
  }

  /** What a goroutine inside a send does next if it takes one byte at a time and every flush works. */
  function NextOf(s: L.State, t: nat): L.Event
    requires t in s.active
  {
    var p := s.active[t];
    if p.flush != L.Idle then L.Done(t)
    else if s.failed then L.Abort(t)
    else if p.ended && s.buffer == [] then L.Skip(t)
    else if p.ended then L.Out(t, |s.buffer|, true)
    else if p.pos < |p.payload| then L.Take(t, 1)
    else L.Newline(t)
  }

  /** A goroutine inside a send always has its next step: it need not wait for the mutex any more. */
  lemma SendIsNeverStuck(evs: seq<L.Event>, t: nat)
    requires L.Feasible(evs) && t in L.Run(evs).active
    ensures L.Can(L.Run(evs), NextOf(L.Run(evs), t))
  {
    F.RunsKeepInv(evs);
    assert F.SenderOk(L.Run(evs).active[t]);
  }

  // ----- The session's wire -----

  /** While everybody takes the mutex, a flush that went well belongs to a writer that works. */
  ghost predicate FlushesWork(s: L.State) {
    forall t <- s.active | s.active[t].flush == L.Under(true) :: !s.failed
  }

  lemma StepKeepsFlushes(s: L.State, le: L.Event)
    requires W.LineOk(s) && L.Can(s, le) && !le.Barge? && FlushesWork(s)
    ensures FlushesWork(L.Do(s, le))
  {
    if le.Done? {
      K.OnlyTheHolder(s, le.t);
    }
  }

  lemma {:induction false} RunsKeepFlushes(f: W.Format, evs: seq<W.Event>)
    requires W.Feasible(f, evs) && W.Sound(f)
    ensures FlushesWork(W.Run(f, evs).line)
    decreases |evs|
  {
    if evs != [] {
      var before, e := evs[..|evs| - 1], evs[|evs| - 1];
      W.RunsKeepInv(f, before);
      RunsKeepFlushes(f, before);
      var s := W.Run(f, before).line;
      match e
      case Tcp(_) =>
      case Start => StepKeepsFlushes(s, L.Acquire(W.LOOP, f.encode(W.Run(f, before).tcp.loop.upd)));
      case Reply(t, payload) => StepKeepsFlushes(s, L.Acquire(t, payload));
      case Inside(le) => StepKeepsFlushes(s, le);
      case Return(le) => StepKeepsFlushes(s, le);
    }
  }

  lemma OutcomeIsPossible(f: W.Format, w: W.World, le: L.Event)
    requires W.LoopOk(f, w) && W.LinesOk(f, w) && le.t in w.line.active
    requires w.line.failed ==> !F.Succeeds(w.line, le)
    ensures T.Can(w.tcp, W.Outcome(w.line, le))
  {
    assert W.ME in w.tcp.sessions;
  }

  lemma NextIsPossible(s: L.State, t: nat)
    requires F.LockOk(s) && FlushesWork(s) && t in s.active
    ensures L.Can(s, NextOf(s, t)) && NextOf(s, t).t == t && !NextOf(s, t).Acquire? && !NextOf(s, t).Barge?
    ensures s.failed ==> !F.Succeeds(s, NextOf(s, t))
  {
    assert F.SenderOk(s.active[t]);
  }

  lemma WireSteps(f: W.Format, w: W.World, t: nat)
    requires W.Inv(f, w) && FlushesWork(w.line) && t in w.line.active
    ensures W.Can(f, w, W.Inside(NextOf(w.line, t))) || W.Can(f, w, W.Return(NextOf(w.line, t)))
  {
    NextIsPossible(w.line, t);
    OutcomeIsPossible(f, w, NextOf(w.line, t));
  }

  /** The session's wire: whoever holds its mutex can go on, and while it is free the loop can begin the line it owes
      and a reader can begin a reply. */
  lemma WireIsNeverStuck(f: W.Format, evs: seq<W.Event>, t: nat, reply: string)
    requires W.Feasible(f, evs) && W.Sound(f)
    ensures var w := W.Run(f, evs);
            && (t in w.line.active ==>
                  W.Can(f, w, W.Inside(NextOf(w.line, t))) || W.Can(f, w, W.Return(NextOf(w.line, t))))
            && (w.line.holder.Some? ==> w.line.holder.value in w.line.active)
            && (w.line.holder.None? && T.Due(w.tcp, W.ME) && W.ME in w.tcp.sessions ==> W.Can(f, w, W.Start))
            && (w.line.holder.None? && W.ME in w.tcp.sessions && t != W.LOOP && L.Sendable(reply) ==>
                  (W.Can(f, w, W.Reply(t, reply)) <==> !f.progress(reply)))
  {
    W.RunsKeepInv(f, evs);
    RunsKeepFlushes(f, evs);
    var w := W.Run(f, evs);
    if t in w.line.active {
      WireSteps(f, w, t);
    }
    assert forall u <- w.line.active :: w.line.active[u].locked;
  }

  // ----- The path of an update -----

  /** A call past its checks does nothing else. */
  ghost predicate ChecksWait(s: C.World) {
    forall p <- s.checked :: C.Idle(s, p)
  }

  lemma StepKeepsChecks(s: C.World, e: C.Event)
    requires C.Can(s, e) && ChecksWait(s)
    ensures ChecksWait(C.Do(s, e))
  {
  }

  lemma {:induction false} RunsKeepChecks(db: DB, evs: seq<C.Event>)
    requires C.Feasible(db, evs)
    ensures ChecksWait(C.Run(db, evs))
    decreases |evs|
  {
    if evs != [] {
      RunsKeepChecks(db, evs[..|evs| - 1]);
      StepKeepsChecks(C.Run(db, evs[..|evs| - 1]), evs[|evs| - 1]);
    }
  }

  /** A free goroutine can take any report or gRPC call but for the reasons the handlers give. */
  ghost predicate RequestsTaken(s: C.World, p: nat, u: C.Update) {
    C.Free(s, p) ==>
      (C.Can(s, C.Report(p, u)) <==> u.manga != "") &&
      (C.Can(s, C.Grpc(p, u)) <==> u.user != "" && u.manga != "" && FindRow(s.db, u.user, u.manga).Some?)
  }

  /** What is under way can go on. */
  ghost predicate PathCanStep(s: C.World, p: nat) {
    && (p in s.checked ==> C.Can(s, C.Http(p)) || C.Can(s, C.Refuse(p)))
    && (p in s.wrote && s.bus.writer == None ==> C.Can(s, C.Begin(p)))
    && (C.TCP in s.bus.subs && s.bus.subs[C.TCP].chan.queue != [] && s.tcp.loop == T.Waiting ==> C.Can(s, C.Consume))
  }

  lemma RequestSteps(s: C.World, p: nat, u: C.Update, op: Op)
    ensures RequestsTaken(s, p, u) && (!op.Progress? ==> C.Can(s, C.Other(op)))
  {
  }

  lemma PathSteps(s: C.World, p: nat)
    requires !s.bus.panicked && C.TcpLive(s.bus) && ChecksWait(s)
    requires p in s.wrote ==> !B.PublisherOf(s.bus, p).looping
    ensures PathCanStep(s, p)
  {
  }

  /** Every call can go on: a free goroutine can take any request, and a report or a gRPC call is refused only for the
      reasons the handlers give; a checked call writes or is refused; a written update can be published while nobody
      holds the broker's write lock; and the loop can take what waits. */
  lemma PathIsNeverStuck(db: DB, evs: seq<C.Event>, p: nat, u: C.Update, op: Op)
    requires UniqueKeys(db.progress) && C.Feasible(db, evs)
    ensures RequestsTaken(C.Run(db, evs), p, u) && PathCanStep(C.Run(db, evs), p)
    ensures !op.Progress? ==> C.Can(C.Run(db, evs), C.Other(op))
  {
    C.RunsKeepInv(db, evs);
    RunsKeepChecks(db, evs);
    RequestSteps(C.Run(db, evs), p, u, op);
    PathSteps(C.Run(db, evs), p);
  }
}
