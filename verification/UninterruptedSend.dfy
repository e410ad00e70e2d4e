/** One send through a session's writer with nobody in between, against `LineWriter.WriteLine`. */
module UninterruptedSend {
  import opened Channels
  import opened Lines
  import opened LineSystem

  /** The state after these events, or None when one of them is not enabled in its turn. */
  ghost function After(s: State, evs: seq<Event>): Option<State>
    decreases |evs|
  {
    if evs == [] then Some(s)
    else if Can(s, evs[0]) then After(Do(s, evs[0]), evs[1..])
    else None
  }

  lemma AfterOne(s: State, e: Event, rest: seq<Event>)
    requires Can(s, e)
    ensures After(s, [e] + rest) == After(Do(s, e), rest)
  {
    assert ([e] + rest)[1..] == rest;
  }

  lemma AfterNone(s: State)
    ensures After(s, []) == Some(s)
  {
  }

  /** Nobody is sending, and the writer works and is empty. */
  predicate Quiet(s: State) {
    s.active == map[] && s.holder == None && !s.failed && s.buffer == [] && s.out == 0
  }

  /** Into the buffer: the payload at once, then its newline. */
  function Filling(t: nat, payload: string): seq<Event> {
    [Acquire(t, payload)] + ([Take(t, |payload|)] + ([Newline(t)] + []))
  }

  /** The whole line is buffered and nothing of it is out. */
  ghost predicate Filled(s: State, s': State, t: nat, payload: string) {
    && s'.active == map[t := Sender(payload, true, |payload|, |s.begun|, true, Idle)] && s'.holder == Some(t)
    && s'.buffer == Bytes(|s.begun|, 0, |payload| + 1) && s'.out == 0 && s'.wire == s.wire && !s'.failed
    && s'.begun == s.begun + [payload] && s'.torn == s.torn && s'.overlap == s.overlap
  }

  lemma Fills(s: State, t: nat, payload: string)
    requires Quiet(s) && Sendable(payload)
    ensures var r := After(s, Filling(t, payload)); r.Some? && Filled(s, r.value, t, payload)
  {
    var s1 := Do(s, Acquire(t, payload));
    var s2 := Do(s1, Take(t, |payload|));
    AfterOne(s, Acquire(t, payload), [Take(t, |payload|)] + ([Newline(t)] + []));
    AfterOne(s1, Take(t, |payload|), [Newline(t)] + []);
    AfterOne(s2, Newline(t), []);
    AfterNone(Do(s2, Newline(t)));
    BytesSplit(|s.begun|, 0, |payload|, |payload| + 1);
  }

  lemma {:induction false} AfterAppend(s: State, a: seq<Event>, b: seq<Event>)
    requires After(s, a).Some?
    ensures After(s, a + b) == After(After(s, a).value, b)
    decreases |a|
  {
    if a == [] {
      assert a + b == b;
    } else {
      assert (a + b)[1..] == a[1..] + b;
      AfterAppend(Do(s, a[0]), a[1..], b);
    }
  }

  lemma FlushTwice(s: State, e: Event, f: Event)
    requires Can(s, e) && Can(Do(s, e), f)
    ensures After(s, [e] + ([f] + [])) == Some(Do(Do(s, e), f))
  {
    AfterOne(s, e, [f] + []);
    AfterOne(Do(s, e), f, []);
    AfterNone(Do(Do(s, e), f));
  }

  /** A flush that works puts the payload and a newline on the wire, and the writer is as quiet as before. */
  lemma MatchesWriteLine(s: State, t: nat, payload: string)
    requires Quiet(s) && Sendable(payload)
    ensures var n := |payload| + 1;
            var r := After(s, Filling(t, payload) + ([Out(t, n, true)] + ([Done(t)] + [])));
            && r.Some? && Quiet(r.value) && r.value.begun == s.begun + [payload]
            && r.value.torn == s.torn && r.value.overlap == s.overlap
            && |r.value.wire| == |s.wire| + n && s.wire <= r.value.wire
            && Text(r.value.begun, r.value.wire[|s.wire|..]) == payload + "\n"
  {
    var n := |payload| + 1;
    Fills(s, t, payload);
    var s1 := After(s, Filling(t, payload)).value;
    AfterAppend(s, Filling(t, payload), [Out(t, n, true)] + ([Done(t)] + []));
    FlushTwice(s1, Out(t, n, true), Done(t));
    assert s1.buffer[..n] == s1.buffer;
    TextOfLine(s1.begun, |s.begun|);
    assert (s.wire + s1.buffer)[|s.wire|..] == Bytes(|s.begun|, 0, n);
  }

  /** A flush that fails leaves a part of the line on the wire, and the writer refuses every later line. */
  lemma MatchesFailedWriteLine(s: State, t: nat, payload: string, upTo: nat, u: nat, later: string)
    requires Quiet(s) && Sendable(payload) && upTo <= |payload| && Sendable(later)
    ensures var r := After(s, Filling(t, payload) + ([Out(t, upTo, false)] + ([Done(t)] + [])));
            && r.Some? && r.value.failed && r.value.active == map[] && r.value.holder == None
            && |r.value.wire| == |s.wire| + upTo && s.wire <= r.value.wire
            && Text(r.value.begun, r.value.wire[|s.wire|..]) == (payload + "\n")[..upTo]
            && var s2 := Do(r.value, Acquire(u, later));
            && Can(r.value, Acquire(u, later)) && Can(s2, Abort(u)) && Do(s2, Abort(u)).wire == r.value.wire
            && (forall k: nat :: !Can(s2, Take(u, k)))
  {
    Fills(s, t, payload);
    var s1 := After(s, Filling(t, payload)).value;
    AfterAppend(s, Filling(t, payload), [Out(t, upTo, false)] + ([Done(t)] + []));
    FlushTwice(s1, Out(t, upTo, false), Done(t));
    TextOfLine(s1.begun, |s.begun|);
    assert (s.wire + s1.buffer[..upTo])[|s.wire|..] == Bytes(|s.begun|, 0, |payload| + 1)[..upTo];
  }
}
