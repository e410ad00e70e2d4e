/** One update of the TCP loop's step system sent round without interruption, against `Server.BroadcastProgress`. */
module UninterruptedFanOut {
  import opened Channels
  import opened TcpSystem

  /** The state after these events, or None when one of them is not enabled in its turn. */
  function Take(s: State, evs: seq<Event>): Option<State>
    decreases |evs|
  {
    if evs == [] then Some(s)
    else if Can(s, evs[0]) then Take(Do(s, evs[0]), evs[1..])
    else None
  }

  /** The writes in this order; `works` tells which of them succeed. */
  function Writes(order: seq<nat>, works: set<nat>): seq<Event> {
    seq(|order|, i requires 0 <= i < |order| => SendTo(order[i], order[i] in works))
  }

  /** The loop is sending `upd` with exactly `order` still to write to; a writer that failed before fails again. */
  ghost predicate Facing(s: State, upd: Update, order: seq<nat>, works: set<nat>) {
    && s.loop.Sending? && s.loop.upd == upd && RangesOver(order, s.loop.targets)
    && (forall id <- order :: id in s.sessions && (s.sessions[id].broken ==> id !in works))
  }

  function After(c: Session, upd: Update, ok: bool): Session {
    if ok then c.(frames := c.frames + [upd]) else c.(broken := true)
  }

  ghost predicate Handed(s: State, s': State, order: seq<nat>, upd: Update, works: set<nat>) {
    s'.sessions.Keys == s.sessions.Keys &&
    forall id <- s.sessions ::
      s'.sessions[id] == if id in order then After(s.sessions[id], upd, id in works) else s.sessions[id]
  }

  lemma OneWrite(s: State, upd: Update, order: seq<nat>, works: set<nat>)
    requires order != [] && Facing(s, upd, order, works)
    ensures var e := SendTo(order[0], order[0] in works);
            Can(s, e) && Facing(Do(s, e), upd, order[1..], works) && Handed(s, Do(s, e), [order[0]], upd, works)
  {
    RangesOverRest(order, s.loop.targets);
    assert order[0] in order;
  }

  lemma HandedInTurn(s: State, s1: State, s2: State, order: seq<nat>, targets: set<nat>, upd: Update, works: set<nat>)
    requires order != [] && RangesOver(order, targets)
    requires Handed(s, s1, [order[0]], upd, works) && Handed(s1, s2, order[1..], upd, works)
    ensures Handed(s, s2, order, upd, works)
  {
    RangesOverRest(order, targets);
  }

  lemma {:induction false} LoopRuns(s: State, upd: Update, order: seq<nat>, works: set<nat>)
    requires Facing(s, upd, order, works)
    ensures var r := Take(s, Writes(order, works));
            r.Some? && Facing(r.value, upd, [], works) && Handed(s, r.value, order, upd, works)
    decreases |order|
  {
    if order != [] {
      OneWrite(s, upd, order, works);
      var s1 := Do(s, SendTo(order[0], order[0] in works));
      assert Writes(order, works)[1..] == Writes(order[1..], works);
      LoopRuns(s1, upd, order[1..], works);
      HandedInTurn(s, s1, Take(s1, Writes(order[1..], works)).value, order, s.loop.targets, upd, works);
    }
  }

  /** Whatever order the loop takes and whichever writes fail, one update sent round without interruption does what
      `Server.BroadcastProgress` promises: each registered session of the user is written to once, the others are
      untouched, and a failing session does not stop the rest. */
  lemma MatchesBroadcastProgress(s: State, order: seq<nat>, works: set<nat>)
    requires s.loop.Holding? && RangesOver(order, Targets(s, s.loop.upd))
    requires forall id <- order :: id in s.sessions && (s.sessions[id].broken ==> id !in works)
    ensures var r := Take(Do(s, Snapshot), Writes(order, works));
            && r.Some? && Can(r.value, EndSend)
            && forall id <- s.sessions :: id in r.value.sessions &&
                 Do(r.value, EndSend).sessions[id] ==
                 if s.sessions[id].live && s.sessions[id].user == s.loop.upd.user
                 then After(s.sessions[id], s.loop.upd, id in works) else s.sessions[id]
  {
    var s0 := Do(s, Snapshot);
    LoopRuns(s0, s.loop.upd, order, works);
    var s1 := Take(s0, Writes(order, works)).value;
    assert s1.loop.targets == {};
  }
}
