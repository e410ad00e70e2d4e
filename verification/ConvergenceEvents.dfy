/** What the bookkeeping of `Convergence` stands for, told by the events of a run; and its HTTP call against the
    handler. */
module ConvergenceEvents {
  import opened Store
  import opened Handlers
  import opened Convergence
  import T = TcpSystem
  import B = BrokerSystem

  lemma OneMoreEvent(evs: seq<Event>, e: Event, x: Event)
    ensures x in evs + [e] <==> x in evs || x == e
  {
  }

  // ----- Writes -----

  /** What the goroutine's latest checked call asked for. */
  function LastChecked(evs: seq<Event>, p: nat): Update {
    if evs == [] then T.Update("", "", 0, 0)
    else
      var e := evs[|evs| - 1];
      if e.Check? && e.p == p then e.upd else LastChecked(evs[..|evs| - 1], p)
  }

  /** The updates of the calls that wrote their row, in the order of the writes. */
  function Written(evs: seq<Event>): seq<Update> {
    if evs == [] then []
    else
      var before, e := evs[..|evs| - 1], evs[|evs| - 1];
      Written(before) + if e.Grpc? then [e.upd] else if e.Http? then [LastChecked(before, e.p)] else []
  }

  ghost predicate ChecksOk(s: World, evs: seq<Event>) {
    forall p <- s.checked :: s.checked[p] == LastChecked(evs, p)
  }

  lemma StepKeepsChecks(s: World, evs: seq<Event>)
    requires evs != [] && Can(s, evs[|evs| - 1]) && ChecksOk(s, evs[..|evs| - 1])
    ensures ChecksOk(Do(s, evs[|evs| - 1]), evs)
  {
  }

  lemma StepWrites(s: World, e: Event)
    requires Can(s, e)
    ensures Do(s, e).writes ==
            s.writes + if e.Grpc? then [e.upd] else if e.Http? then [s.checked[e.p]] else []
  {
  }

  lemma {:induction false} WritesByEvents(db: DB, evs: seq<Event>)
    requires Feasible(db, evs)
    ensures ChecksOk(Run(db, evs), evs) && Run(db, evs).writes == Written(evs)
    decreases |evs|
  {
    if evs != [] {
      WritesByEvents(db, evs[..|evs| - 1]);
      StepKeepsChecks(Run(db, evs[..|evs| - 1]), evs);
      StepWrites(Run(db, evs[..|evs| - 1]), evs[|evs| - 1]);
    }
  }

  // ----- Pairs that somebody else touched, and pairs outside the assumptions -----

  predicate AddsOrRemoves(e: Event, k: Key) {
    e.Other? && (e.op.Add? || e.op.Remove?) && (e.op.user, e.op.manga) == k
  }

  /** A pair counts as touched exactly if it was added or removed during the run. */
  lemma {:induction false} TouchedByEvents(db: DB, evs: seq<Event>, k: Key)
    requires Feasible(db, evs)
    ensures k in Run(db, evs).touched <==> exists e <- evs :: AddsOrRemoves(e, k)
    decreases |evs|
  {
    if evs != [] {
      var before, last := evs[..|evs| - 1], evs[|evs| - 1];
      TouchedByEvents(db, before, k);
      assert evs == before + [last];
      StepTouches(Run(db, before), last, k);
    }
  }

  lemma StepTouches(s: World, e: Event, k: Key)
    requires Can(s, e)
    ensures k in Do(s, e).touched <==> k in s.touched || AddsOrRemoves(e, k)
  {
  }

  /** A call for the pair has written its row and has not returned. */
  ghost predicate UnderWay(s: World, k: Key) {
    exists q :: (q in s.wrote && KeyOf(s.wrote[q]) == k) || Publishes(s.bus, q, k)
  }

  predicate Publishes(bus: Bus, q: nat, k: Key) {
    B.Looping(bus, q) && B.Last(bus.pubs[q].log).topic == B.Progress && KeyOf(B.Last(bus.pubs[q].log).msg) == k
  }

  ghost predicate Disturbs(s: World, e: Event, k: Key) {
    match e
    case Report(_, u) => (u.user, u.manga) == k
    case Other(_) => AddsOrRemoves(e, k)
    case Grpc(_, u) => (u.user, u.manga) == k && UnderWay(s, k)
    case Http(p) => p in s.checked && (s.checked[p].user, s.checked[p].manga) == k && UnderWay(s, k)
    case _ => false
  }

  lemma StepDisturbs(s: World, e: Event, k: Key)
    requires Can(s, e)
    ensures k in Do(s, e).disturbed <==> k in s.disturbed || Disturbs(s, e, k)
  {
    match e
    case Grpc(_, u) => UnderWayMeansBusy(s, s, KeyOf(u));
    case Http(p) => UnderWayMeansBusy(s, s.(checked := s.checked - {p}), KeyOf(s.checked[p]));
    case _ =>
  }

  lemma UnderWayMeansBusy(s: World, s': World, k: Key)
    requires s'.bus == s.bus && s'.wrote == s.wrote
    ensures UnderWay(s, k) <==> exists q :: Busy(s', q, k)
  {
    if q :| (q in s.wrote && KeyOf(s.wrote[q]) == k) || Publishes(s.bus, q, k) {
      assert Busy(s', q, k);
    }
    if q :| Busy(s', q, k) {
      assert (q in s.wrote && KeyOf(s.wrote[q]) == k) || Publishes(s.bus, q, k);
    }
  }

  ghost predicate EverDisturbed(db: DB, evs: seq<Event>, k: Key)
    requires Feasible(db, evs)
    decreases |evs|
  {
    evs != [] &&
    (EverDisturbed(db, evs[..|evs| - 1], k) || Disturbs(Run(db, evs[..|evs| - 1]), evs[|evs| - 1], k))
  }

  /** The assumption of `SessionsConverge`, event by event: a pair is disturbed exactly if a TCP client reported it, it
      was added or removed, or a call wrote its row while another one for it was still under way. */
  lemma {:induction false} DisturbedByEvents(db: DB, evs: seq<Event>, k: Key)
    requires Feasible(db, evs)
    ensures k in Run(db, evs).disturbed <==> EverDisturbed(db, evs, k)
    decreases |evs|
  {
    if evs != [] {
      DisturbedByEvents(db, evs[..|evs| - 1], k);
      StepDisturbs(Run(db, evs[..|evs| - 1]), evs[|evs| - 1], k);
    }
  }

  // ----- One HTTP call with nobody in between -----

  /** Check and write, taken together, are possible exactly when the handler answers 200, and do to the tables what it
      promises; a call that passes its checks without a row is refused. */
  lemma MatchesHandler(s: World, p: nat, u: Update)
    requires Free(s, p)
    ensures Can(s, Check(p, u)) && Can(Do(s, Check(p, u)), Http(p)) <==>
            ProgressCode(s.db, u.user, u.manga, u.chapter) == 200
    ensures Can(s, Check(p, u)) && Can(Do(s, Check(p, u)), Http(p)) ==>
              var s' := Do(Do(s, Check(p, u)), Http(p));
              && s'.db == Apply(s.db, Progress(u.user, u.manga, u.chapter), s.clock)
              && s'.writes == s.writes + [u] && s'.wrote == s.wrote[p := u] && s'.bus == s.bus && s'.tcp == s.tcp
    ensures Can(s, Check(p, u)) && !Can(Do(s, Check(p, u)), Http(p)) ==>
              Can(Do(s, Check(p, u)), Refuse(p)) && ProgressCode(s.db, u.user, u.manga, u.chapter) == 400
  {
  }
}
