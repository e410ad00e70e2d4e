/** Fan-out of progress updates to the TCP sessions of one user (internal/tcp/server.go:86-219): the loop that
    drains its broker channel, the sessions that come and go, and the writes that may fail. */
module TcpSystem {
  datatype Update = Update(user: string, manga: string, chapter: int, timestamp: int)

  /** `frames` are the progress frames whose write succeeded; `base` counts the user's updates already settled when
      the session registered. */
  datatype Session = Session(user: string, live: bool, frames: seq<Update>, broken: bool, base: nat)

  datatype Loop =
    | Waiting
    | Holding(upd: Update)                         // taken from the channel, no snapshot yet
    | Sending(upd: Update, targets: set<nat>)      // snapshot taken; these are still to be written to
    | Exited

  datatype State = State(
    sessions: map<nat, Session>,
    loop: Loop,
    consumed: seq<Update>,       // everything taken from the channel
    settled: seq<Update>,        // those whose snapshot has been taken
    stopped: bool)

  datatype Event =
    | Connect(id: nat, user: string)
    | Disconnect(id: nat)
    | OtherWrite(id: nat, ok: bool)      // pong, ack, error and welcome lines
    | Take(upd: Update)
    | Snapshot
    | SendTo(id: nat, ok: bool)
    | EndSend
    | Stop
    | Exit

  function Init(): State {
    State(map[], Waiting, [], [], false)
  }

  predicate Can(s: State, e: Event) {
    match e
    case Connect(id, _) => id !in s.sessions
    case Disconnect(id) => id in s.sessions
    case OtherWrite(id, ok) => id in s.sessions && (s.sessions[id].broken ==> !ok)
    case Take(_) => s.loop == Waiting
    case Snapshot => s.loop.Holding?
    case SendTo(id, ok) =>
      s.loop.Sending? && id in s.loop.targets && id in s.sessions && (s.sessions[id].broken ==> !ok)
    case EndSend => s.loop.Sending? && s.loop.targets == {}
    case Stop => !s.stopped
    case Exit => s.stopped && s.loop == Waiting
  }

  /** The updates of one user, in order. */
  function Mine(upds: seq<Update>, user: string): seq<Update> {
    if upds == [] then []
    else
      var n := |upds| - 1;
      Mine(upds[..n], user) + if upds[n].user == user then [upds[n]] else []
  }

  /** broadcastProgress's snapshot: the live sessions of the update's user. */
  function Targets(s: State, upd: Update): set<nat> {
    set id | id in s.sessions && s.sessions[id].live && s.sessions[id].user == upd.user
  }

  function Do(s: State, e: Event): State
    requires Can(s, e)
  {
    match e
    case Connect(id, user) =>
      s.(sessions := s.sessions[id := Session(user, true, [], false, |Mine(s.settled, user)|)])
    case Disconnect(id) => s.(sessions := s.sessions[id := s.sessions[id].(live := false)])
    case OtherWrite(id, ok) => s.(sessions := s.sessions[id := s.sessions[id].(broken := !ok)])
    case Take(upd) => s.(loop := Holding(upd), consumed := s.consumed + [upd])
    case Snapshot => s.(loop := Sending(s.loop.upd, Targets(s, s.loop.upd)), settled := s.settled + [s.loop.upd])
    case SendTo(id, ok) =>
      var c := s.sessions[id];
      var c' := if ok then c.(frames := c.frames + [s.loop.upd]) else c.(broken := true);
      s.(sessions := s.sessions[id := c'], loop := Sending(s.loop.upd, s.loop.targets - {id}))
    case EndSend => s.(loop := Waiting)
    case Stop =>
      s.(sessions := map id | id in s.sessions :: s.sessions[id].(live := false), stopped := true)
    case Exit => s.(loop := Exited)
  }

  predicate Feasible(evs: seq<Event>)
    decreases |evs|, 0
  {
    evs == [] || (Feasible(evs[..|evs| - 1]) && Can(Run(evs[..|evs| - 1]), evs[|evs| - 1]))
  }

  function Run(evs: seq<Event>): State
    requires Feasible(evs)
    decreases |evs|, 1
  {
    if evs == [] then Init() else Do(Run(evs[..|evs| - 1]), evs[|evs| - 1])
  }

  // ----- Invariant -----

  predicate Due(s: State, id: nat) {
    s.loop.Sending? && id in s.loop.targets
  }

  /** A session's frames are a contiguous run of its user's settled updates, starting where it registered; a live
      session whose writer works has them all, save the one just being sent round. */
  predicate RunOk(s: State, id: nat)
    requires id in s.sessions
  {
    var c := s.sessions[id];
    var all := Mine(s.settled, c.user);
    && c.base + |c.frames| <= |all|
    && c.frames == all[c.base..c.base + |c.frames|]
    && (Due(s, id) ==> c.user == s.loop.upd.user)
    && (!c.broken && Due(s, id) ==> c.base + |c.frames| == |all| - 1)
    && (!c.broken && c.live && !Due(s, id) ==> c.base + |c.frames| == |all|)
  }

  ghost predicate LoopOk(s: State) {
    && (s.loop.Sending? ==> s.settled != [] && s.settled[|s.settled| - 1] == s.loop.upd)
    && s.consumed == s.settled + (if s.loop.Holding? then [s.loop.upd] else [])
    && (s.loop.Sending? ==> s.loop.targets <= s.sessions.Keys)
  }

  ghost predicate Inv(s: State) {
    LoopOk(s) && forall id <- s.sessions :: RunOk(s, id)
  }

  lemma MineAppend(upds: seq<Update>, u: Update, user: string)
    ensures Mine(upds + [u], user) == Mine(upds, user) + if u.user == user then [u] else []
  {
    assert (upds + [u])[..|upds|] == upds;
  }

  lemma MineEnd(upds: seq<Update>, user: string)
    requires upds != [] && upds[|upds| - 1].user == user
    ensures Mine(upds, user) != [] && Mine(upds, user)[|Mine(upds, user)| - 1] == upds[|upds| - 1]
  {
  }

  lemma SnapshotKeepsRuns(s: State, id: nat)
    requires s.loop.Holding? && Inv(s) && id in s.sessions
    ensures RunOk(Do(s, Snapshot), id)
  {
    assert RunOk(s, id);
    var c := s.sessions[id];
    MineAppend(s.settled, s.loop.upd, c.user);
    var all, all' := Mine(s.settled, c.user), Mine(s.settled + [s.loop.upd], c.user);
    assert all'[..|all|] == all;
    assert all'[c.base..c.base + |c.frames|] == all[c.base..c.base + |c.frames|];
  }

  lemma SendKeepsRuns(s: State, id: nat, ok: bool)
    requires Can(s, SendTo(id, ok)) && Inv(s)
    ensures RunOk(Do(s, SendTo(id, ok)), id)
  {
    assert RunOk(s, id);
    var c := s.sessions[id];
    MineEnd(s.settled, c.user);
    var all, n := Mine(s.settled, c.user), c.base + |c.frames|;
    if ok {
      assert n == |all| - 1 && all[n] == s.loop.upd;
      OneLonger(all, c.base, n);
    }
  }

  lemma OneLonger<X>(all: seq<X>, from: nat, to: nat)
    requires from <= to < |all|
    ensures all[from..to + 1] == all[from..to] + [all[to]]
  {
  }

  /** Everything a run depends on stays, or only gets worse for the session. */
  predicate Carried(s: State, s': State, id: nat) {
    && id in s.sessions && id in s'.sessions && s'.settled == s.settled
    && var (c, c') := (s.sessions[id], s'.sessions[id]);
    && c'.user == c.user && c'.base == c.base && c'.frames == c.frames
    && (c'.live ==> c.live) && (!c'.broken ==> !c.broken)
    && (Due(s', id) <==> Due(s, id)) && (Due(s', id) ==> s'.loop.upd == s.loop.upd)
  }

  lemma CarriedRun(s: State, s': State, id: nat)
    requires Carried(s, s', id) && RunOk(s, id)
    ensures RunOk(s', id)
  {
  }

  lemma StepCarries(s: State, e: Event, id: nat)
    requires Can(s, e) && id in s.sessions && !e.Snapshot? && !(e.SendTo? && e.id == id)
    ensures Carried(s, Do(s, e), id)
  {
  }

  lemma OtherKeepsRun(s: State, e: Event, id: nat)
    requires Can(s, e) && Inv(s) && id in Do(s, e).sessions && !e.Snapshot? && !(e.SendTo? && e.id == id)
    ensures RunOk(Do(s, e), id)
  {
    if id in s.sessions {
      StepCarries(s, e, id);
      CarriedRun(s, Do(s, e), id);
    } else {
      assert !Due(s, id);
    }
  }

  lemma StepKeepsLoop(s: State, e: Event)
    requires Can(s, e) && LoopOk(s)
    ensures LoopOk(Do(s, e))
  {
  }

  lemma StepKeepsInv(s: State, e: Event)
    requires Can(s, e) && Inv(s)
    ensures Inv(Do(s, e))
  {
    StepKeepsLoop(s, e);
    forall id <- Do(s, e).sessions
      ensures RunOk(Do(s, e), id)
    {
      if e.Snapshot? {
        SnapshotKeepsRuns(s, id);
      } else if e.SendTo? && id == e.id {
        SendKeepsRuns(s, id, e.ok);
      } else {
        OtherKeepsRun(s, e, id);
      }
    }
  }

  lemma {:induction false} RunsKeepInv(evs: seq<Event>)
    requires Feasible(evs)
    ensures Inv(Run(evs))
    decreases |evs|
  {
    if evs != [] {
      RunsKeepInv(evs[..|evs| - 1]);
      StepKeepsInv(Run(evs[..|evs| - 1]), evs[|evs| - 1]);
    }
  }

  // ----- Main results -----

  lemma {:induction false} MineIsOwn(upds: seq<Update>, user: string)
    ensures forall i | 0 <= i < |Mine(upds, user)| :: Mine(upds, user)[i].user == user
  {
    if upds != [] {
      MineIsOwn(upds[..|upds| - 1], user);
    }
  }

  /** Order, contiguity and isolation of one session's frames. */
  lemma SessionSeesContiguousRun(evs: seq<Event>, id: nat)
    requires Feasible(evs) && id in Run(evs).sessions
    ensures var s := Run(evs);
            var c := s.sessions[id];
            var all := Mine(s.settled, c.user);
            && s.settled <= s.consumed
            && c.base + |c.frames| <= |all| && c.frames == all[c.base..c.base + |c.frames|]
            && (forall i | 0 <= i < |c.frames| :: c.frames[i].user == c.user)
  {
    RunsKeepInv(evs);
    var s := Run(evs);
    assert RunOk(s, id);
    MineIsOwn(s.settled, s.sessions[id].user);
  }

  /** A session still connected with a working writer has every update of its user settled since it registered,
      except at most the one being sent round. */
  lemma LiveSessionMissesNothing(evs: seq<Event>, id: nat)
    requires Feasible(evs) && id in Run(evs).sessions
    requires Run(evs).sessions[id].live && !Run(evs).sessions[id].broken && !Due(Run(evs), id)
    ensures var c := Run(evs).sessions[id];
            c.base <= |Mine(Run(evs).settled, c.user)| && c.frames == Mine(Run(evs).settled, c.user)[c.base..]
  {
    RunsKeepInv(evs);
    assert RunOk(Run(evs), id);
  }

  /** The session's frames reach to its user's update number `k`. */
  predicate Has(c: Session, k: nat) {
    c.base <= k < c.base + |c.frames|
  }

  /** Update number `k` of its user, as the session saw it. */
  function Seen(c: Session, k: nat): Update
    requires Has(c, k)
  {
    c.frames[k - c.base]
  }

  lemma SeenIsSettled(s: State, id: nat, k: nat)
    requires Inv(s) && id in s.sessions && Has(s.sessions[id], k)
    ensures var c := s.sessions[id];
            k < |Mine(s.settled, c.user)| && Seen(c, k) == Mine(s.settled, c.user)[k]
  {
    assert RunOk(s, id);
  }

  lemma AgreeAt(s: State, a: nat, b: nat, k: nat)
    requires Inv(s) && a in s.sessions && b in s.sessions && s.sessions[a].user == s.sessions[b].user
    requires Has(s.sessions[a], k) && Has(s.sessions[b], k)
    ensures Seen(s.sessions[a], k) == Seen(s.sessions[b], k)
  {
    SeenIsSettled(s, a, k);
    SeenIsSettled(s, b, k);
  }

  /** Two sessions of one user never disagree: where their runs overlap they hold the same updates. */
  lemma SessionsAgree(evs: seq<Event>, a: nat, b: nat, k: nat)
    requires Feasible(evs) && a in Run(evs).sessions && b in Run(evs).sessions
    requires Run(evs).sessions[a].user == Run(evs).sessions[b].user
    requires Has(Run(evs).sessions[a], k) && Has(Run(evs).sessions[b], k)
    ensures Seen(Run(evs).sessions[a], k) == Seen(Run(evs).sessions[b], k)
  {
    RunsKeepInv(evs);
    AgreeAt(Run(evs), a, b, k);
  }

  // ----- Sessions out of the table -----

  function Bit(b: bool): nat {
    if b then 1 else 0
  }

  lemma StepLeavesDead(s: State, e: Event, id: nat)
    requires Can(s, e) && id in s.sessions && !s.sessions[id].live
    ensures id in Do(s, e).sessions && !Do(s, e).sessions[id].live
    ensures var c, c' := s.sessions[id], Do(s, e).sessions[id];
            c.frames <= c'.frames && |c'.frames| + Bit(Due(Do(s, e), id)) <= |c.frames| + Bit(Due(s, id))
  {
  }

  /** A session that has left the table, by disconnecting or by the server's stop, gets at most the one update whose
      snapshot it is still in. */
  lemma {:induction false} DeadSessionsGetNothingNew(evs: seq<Event>, k: nat, id: nat)
    requires Feasible(evs) && k <= |evs| && Feasible(evs[..k])
    requires id in Run(evs[..k]).sessions && !Run(evs[..k]).sessions[id].live
    ensures id in Run(evs).sessions && !Run(evs).sessions[id].live
    ensures var c, c' := Run(evs[..k]).sessions[id], Run(evs).sessions[id];
            c.frames <= c'.frames &&
            |c'.frames| + Bit(Due(Run(evs), id)) <= |c.frames| + Bit(Due(Run(evs[..k]), id))
    decreases |evs|
  {
    if k == |evs| {
      assert evs[..k] == evs;
    } else {
      var n := |evs| - 1;
      assert evs[..n][..k] == evs[..k];
      DeadSessionsGetNothingNew(evs[..n], k, id);
      StepLeavesDead(Run(evs[..n]), evs[n], id);
    }
  }

  /** After Stop no session there was receives anything but the update being sent round at that moment. */
  lemma StopSilences(evs: seq<Event>, k: nat, id: nat)
    requires Feasible(evs) && k < |evs| && evs[k] == Stop && Feasible(evs[..k]) && Feasible(evs[..k + 1])
    requires id in Run(evs[..k]).sessions
    ensures id in Run(evs).sessions && !Run(evs).sessions[id].live
    ensures var c, c' := Run(evs[..k]).sessions[id], Run(evs).sessions[id];
            c.frames <= c'.frames && |c'.frames| <= |c.frames| + Bit(Due(Run(evs[..k]), id))
  {
    assert evs[..k + 1][..k] == evs[..k];
    DeadSessionsGetNothingNew(evs, k + 1, id);
  }
}
