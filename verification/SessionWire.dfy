/** What the peer of one TCP session reads, from the broadcast loop down to the bytes: the fan-out of `TcpSystem` and
    the line writer of `LineSystem`, running as one system. All lines are written under the session mutex, as after the
    welcome (internal/tcp/server.go:141-227). */
module SessionWire {
  import opened Lines
  import T = TcpSystem
  import L = LineSystem
  import F = LineFraming
  import K = LineLocked

  type Update = T.Update

  /** The session looked at: any. */
  const ME: nat

  /** The goroutine of the broadcast loop inside its writer. */
  const LOOP: nat := 0

  /** How updates are written, and which lines are progress lines. */
  datatype Format = Format(encode: Update -> string, progress: string -> bool)

  ghost predicate Sound(f: Format) {
    forall u: Update :: L.Sendable(f.encode(u)) && f.progress(f.encode(u))
  }

  datatype World = World(tcp: T.State, line: L.State)

  datatype Event =
    | Tcp(te: T.Event)                   // everything but a write to this session
    | Start                              // the loop takes the session mutex for the update being sent round
    | Reply(t: nat, payload: string)     // the reader takes it, for a line that is no progress line
    | Inside(le: L.Event)                // a step of the sender holding it
    | Return(le: L.Event)                // the step with which its send returns

  function Init(): World {
    World(T.Init(), L.Init())
  }

  predicate WritesHere(te: T.Event) {
    (te.SendTo? || te.OtherWrite?) && te.id == ME
  }

  /** The loop sends to one session at a time. */
  predicate LoopBusy(w: World) {
    LOOP in w.line.active
  }

  ghost predicate Returns(s: L.State, le: L.Event) {
    L.Can(s, le) && le.t in s.active && le.t !in L.Do(s, le).active
  }

  /** What the return of a send means to the server. */
  ghost function Outcome(s: L.State, le: L.Event): T.Event {
    if le.t == LOOP then T.SendTo(ME, F.Succeeds(s, le)) else T.OtherWrite(ME, F.Succeeds(s, le))
  }

  ghost predicate Can(f: Format, w: World, e: Event) {
    match e
    case Tcp(te) => T.Can(w.tcp, te) && !WritesHere(te) && (te.SendTo? ==> !LoopBusy(w))
    case Start =>
      w.tcp.loop.Sending? && ME in w.tcp.loop.targets && ME in w.tcp.sessions && !LoopBusy(w) &&
      L.Can(w.line, L.Acquire(LOOP, f.encode(w.tcp.loop.upd)))
    case Reply(t, payload) =>
      t != LOOP && ME in w.tcp.sessions && !f.progress(payload) && L.Can(w.line, L.Acquire(t, payload))
    case Inside(le) =>
      !le.Acquire? && !le.Barge? && L.Can(w.line, le) && !Returns(w.line, le)
    case Return(le) =>
      !le.Acquire? && !le.Barge? && Returns(w.line, le) && T.Can(w.tcp, Outcome(w.line, le))
  }

  ghost function Do(f: Format, w: World, e: Event): World
    requires Can(f, w, e)
  {
    match e
    case Tcp(te) => w.(tcp := T.Do(w.tcp, te))
    case Start => w.(line := L.Do(w.line, L.Acquire(LOOP, f.encode(w.tcp.loop.upd))))
    case Reply(t, payload) => w.(line := L.Do(w.line, L.Acquire(t, payload)))
    case Inside(le) => w.(line := L.Do(w.line, le))
    case Return(le) => World(T.Do(w.tcp, Outcome(w.line, le)), L.Do(w.line, le))
  }

  ghost predicate Feasible(f: Format, evs: seq<Event>)
    decreases |evs|, 0
  {
    evs == [] || (Feasible(f, evs[..|evs| - 1]) && Can(f, Run(f, evs[..|evs| - 1]), evs[|evs| - 1]))
  }

  ghost function Run(f: Format, evs: seq<Event>): World
    requires Feasible(f, evs)
    decreases |evs|, 1
  {
    if evs == [] then Init() else Do(f, Run(f, evs[..|evs| - 1]), evs[|evs| - 1])
  }

  // ----- Progress lines -----

  function Encoded(f: Format, upds: seq<Update>): seq<string> {
    seq(|upds|, i requires 0 <= i < |upds| => f.encode(upds[i]))
  }

  function Progress(f: Format, lines: seq<string>): seq<string> {
    if lines == [] then []
    else
      var n := |lines| - 1;
      Progress(f, lines[..n]) + if f.progress(lines[n]) then [lines[n]] else []
  }

  lemma ProgressAppend(f: Format, lines: seq<string>, p: string)
    ensures Progress(f, lines + [p]) == Progress(f, lines) + if f.progress(p) then [p] else []
  {
    assert (lines + [p])[..|lines|] == lines;
  }

  lemma {:induction false} ProgressOfPrefix(f: Format, part: seq<string>, lines: seq<string>)
    requires part <= lines
    ensures Progress(f, part) <= Progress(f, lines)
    decreases |lines|
  {
    if |part| < |lines| {
      ProgressOfPrefix(f, part, lines[..|lines| - 1]);
    } else {
      assert part == lines;
    }
  }

  /** Everything settled for the session's user since it registered. */
  function Owed(t: T.State): seq<Update>
    requires ME in t.sessions
  {
    var all := T.Mine(t.settled, t.sessions[ME].user);
    if t.sessions[ME].base <= |all| then all[t.sessions[ME].base..] else []
  }

  // ----- Invariant -----

  ghost predicate LineOk(s: L.State) {
    F.Inv(s) && K.AllLocked(s) && !s.torn && !s.overlap
  }

  /** The loop's line in progress, once begun. */
  function Underway(w: World): seq<string> {
    if LOOP in w.line.active && w.line.active[LOOP].pos > 0 then [w.line.active[LOOP].payload] else []
  }

  ghost predicate LoopOk(f: Format, w: World) {
    && (LoopBusy(w) ==>
          w.tcp.loop.Sending? && ME in w.tcp.loop.targets && ME in w.tcp.sessions &&
          w.line.active[LOOP].payload == f.encode(w.tcp.loop.upd))
    && (forall t <- w.line.active | t != LOOP :: !f.progress(w.line.active[t].payload))
  }

  /** The progress lines begun are the frames written, and the one under way; after a failure, a part of what is
      owed. */
  ghost predicate LinesOk(f: Format, w: World) {
    if ME !in w.tcp.sessions then w.line.begun == [] && w.line.active == map[] && !w.line.failed
    else
      && w.tcp.sessions[ME].broken == w.line.failed
      && (if w.line.failed then Progress(f, w.line.begun) <= Encoded(f, Owed(w.tcp))
          else Progress(f, w.line.begun) == Encoded(f, w.tcp.sessions[ME].frames) + Underway(w))
  }

  ghost predicate Inv(f: Format, w: World) {
    T.Inv(w.tcp) && LineOk(w.line) && LoopOk(f, w) && LinesOk(f, w)
  }

  // ----- Steps -----

  lemma LineStepIsOk(s: L.State, le: L.Event)
    requires LineOk(s) && L.Can(s, le) && !le.Barge?
    ensures LineOk(L.Do(s, le))
  {
    F.StepKeepsInv(s, le);
    K.NoTrouble(s, le);
    K.StaysLocked(s, le);
  }

  lemma SessionStays(t: T.State, te: T.Event)
    requires T.Can(t, te) && ME in t.sessions
    ensures ME in T.Do(t, te).sessions
    ensures var c, c' := t.sessions[ME], T.Do(t, te).sessions[ME];
            c'.user == c.user && c'.base == c.base &&
            (!WritesHere(te) ==> c'.frames == c.frames && c'.broken == c.broken)
    ensures !te.Snapshot? ==> T.Do(t, te).settled == t.settled
  {
  }

  lemma OwedGrows(t: T.State, te: T.Event)
    requires T.Can(t, te) && T.Inv(t) && ME in t.sessions
    ensures ME in T.Do(t, te).sessions && Owed(t) <= Owed(T.Do(t, te))
  {
    assert T.RunOk(t, ME);
    SessionStays(t, te);
    var user := t.sessions[ME].user;
    if te.Snapshot? {
      T.MineAppend(t.settled, t.loop.upd, user);
    }
    SuffixGrows(T.Mine(t.settled, user), T.Mine(T.Do(t, te).settled, user), t.sessions[ME].base);
  }

  lemma SuffixGrows(a: seq<Update>, b: seq<Update>, from: nat)
    requires a <= b && from <= |a|
    ensures a[from..] <= b[from..]
  {
  }

  /** The frames so far and the update due, if there is one, are the beginning of what is owed. */
  lemma FramesAreOwed(t: T.State)
    requires T.Inv(t) && ME in t.sessions && !t.sessions[ME].broken
    ensures t.sessions[ME].frames <= Owed(t)
    ensures T.Due(t, ME) ==> t.sessions[ME].frames + [t.loop.upd] <= Owed(t)
  {
    assert T.RunOk(t, ME);
    var c := t.sessions[ME];
    if T.Due(t, ME) {
      T.MineEnd(t.settled, c.user);
      var all := T.Mine(t.settled, c.user);
      assert all[c.base..] == c.frames + [all[|all| - 1]];
    }
  }

  lemma EncodedPrefix(f: Format, a: seq<Update>, b: seq<Update>)
    requires a <= b
    ensures Encoded(f, a) <= Encoded(f, b)
  {
  }

  lemma EncodedAppend(f: Format, a: seq<Update>, u: Update)
    ensures Encoded(f, a + [u]) == Encoded(f, a) + [f.encode(u)]
  {
  }

  /** Whatever the writer's state, the progress lines begun are the beginning of what is owed. */
  lemma LinesAreOwed(f: Format, w: World)
    requires Inv(f, w) && ME in w.tcp.sessions
    ensures Progress(f, w.line.begun) <= Encoded(f, Owed(w.tcp))
  {
    if !w.line.failed {
      var frames := w.tcp.sessions[ME].frames;
      FramesAreOwed(w.tcp);
      if Underway(w) != [] {
        EncodedAppend(f, frames, w.tcp.loop.upd);
        EncodedPrefix(f, frames + [w.tcp.loop.upd], Owed(w.tcp));
      } else {
        EncodedPrefix(f, frames, Owed(w.tcp));
        assert Encoded(f, frames) + [] == Encoded(f, frames);
      }
    }
  }

  lemma TcpStepKeeps(f: Format, w: World, te: T.Event)
    requires Can(f, w, Tcp(te)) && Inv(f, w)
    ensures Inv(f, Do(f, w, Tcp(te)))
  {
    T.StepKeepsInv(w.tcp, te);
    LoopStays(f, w, te);
    if ME in w.tcp.sessions {
      OwedGrows(w.tcp, te);
      SessionStays(w.tcp, te);
      EncodedPrefix(f, Owed(w.tcp), Owed(T.Do(w.tcp, te)));
      SameLines(f, w, T.Do(w.tcp, te));
    } else {
      NoLinesYet(f, w, te);
    }
  }

  /** While the loop is inside this session's writer it does nothing else. */
  lemma LoopStays(f: Format, w: World, te: T.Event)
    requires Can(f, w, Tcp(te)) && LoopOk(f, w)
    ensures LoopOk(f, w.(tcp := T.Do(w.tcp, te)))
  {
    if LoopBusy(w) {
      SessionStays(w.tcp, te);
      assert T.Do(w.tcp, te).loop == w.tcp.loop;
    }
  }

  lemma SameLines(f: Format, w: World, t: T.State)
    requires LinesOk(f, w) && ME in w.tcp.sessions && ME in t.sessions
    requires t.sessions[ME].frames == w.tcp.sessions[ME].frames && t.sessions[ME].broken == w.tcp.sessions[ME].broken
    requires Encoded(f, Owed(w.tcp)) <= Encoded(f, Owed(t))
    ensures LinesOk(f, w.(tcp := t))
  {
  }

  lemma NoLinesYet(f: Format, w: World, te: T.Event)
    requires Can(f, w, Tcp(te)) && LinesOk(f, w) && ME !in w.tcp.sessions
    ensures LinesOk(f, w.(tcp := T.Do(w.tcp, te)))
  {
    assert Encoded(f, []) + Underway(w) == [];
  }

  lemma AcquireKeeps(f: Format, w: World, t: nat, payload: string)
    requires Inv(f, w) && L.Can(w.line, L.Acquire(t, payload)) && ME in w.tcp.sessions
    requires if t == LOOP then w.tcp.loop.Sending? && ME in w.tcp.loop.targets && payload == f.encode(w.tcp.loop.upd)
             else !f.progress(payload)
    ensures Inv(f, w.(line := L.Do(w.line, L.Acquire(t, payload))))
  {
    LineStepIsOk(w.line, L.Acquire(t, payload));
    assert Underway(w.(line := L.Do(w.line, L.Acquire(t, payload)))) == Underway(w);
  }

  /** A step of a sender that stays: its line, and the lines begun. */
  lemma InsideLines(s: L.State, le: L.Event)
    requires L.Can(s, le) && !le.Acquire? && !le.Barge? && !Returns(s, le)
    ensures var s' := L.Do(s, le);
            && s'.failed == s.failed && s'.active.Keys == s.active.Keys
            && (forall t <- s.active :: s'.active[t].payload == s.active[t].payload)
            && (forall t <- s.active | t != le.t :: s'.active[t] == s.active[t])
            && (if le.Take? && s.active[le.t].pos == 0
                then s'.begun == s.begun + [s.active[le.t].payload] && s'.active[le.t].pos > 0
                else s'.begun == s.begun && (s'.active[le.t].pos > 0 <==> s.active[le.t].pos > 0))
  {
  }

  lemma InsideKeeps(f: Format, w: World, le: L.Event)
    requires Can(f, w, Inside(le)) && Inv(f, w) && Sound(f)
    ensures Inv(f, Do(f, w, Inside(le)))
  {
    var w' := Do(f, w, Inside(le));
    LineStepIsOk(w.line, le);
    InsideLines(w.line, le);
    var p := w.line.active[le.t].payload;
    ProgressAppend(f, w.line.begun, p);
    if w.line.failed {
      assert w'.line.begun == w.line.begun;
    } else if le.Take? && w.line.active[le.t].pos == 0 {
      assert Encoded(f, w.tcp.sessions[ME].frames) + [] == Encoded(f, w.tcp.sessions[ME].frames);
      assert le.t == LOOP ==> Underway(w) == [] && Underway(w') == [p];
    } else {
      assert Underway(w') == Underway(w);
    }
  }

  /** A step with which a send returns begins no line. It fails exactly if the writer has failed by then. */
  lemma ReturnLines(s: L.State, le: L.Event)
    requires LineOk(s) && Returns(s, le) && !le.Acquire? && !le.Barge?
    ensures var s' := L.Do(s, le);
            && s'.begun == s.begun && s'.active == s.active - {le.t}
            && (F.Succeeds(s, le) ==> s'.failed == s.failed && s.active[le.t].ended && s.active[le.t].pos > 0)
            && (!F.Succeeds(s, le) ==> s'.failed)
  {
    OnlyEndsReturn(s, le);
    if le.Done? {
      DoneReturns(s, le.t);
    } else {
      assert F.SenderOk(s.active[le.t]);
    }
  }

  lemma OnlyEndsReturn(s: L.State, le: L.Event)
    requires Returns(s, le) && !le.Acquire? && !le.Barge?
    ensures le.Done? || le.Skip? || le.Abort?
  {
  }

  lemma DoneReturns(s: L.State, t: nat)
    requires F.LockOk(s) && Returns(s, L.Done(t))
    ensures var s', p := L.DoDone(s, t), s.active[t];
            && s'.begun == s.begun && s'.active == s.active - {t}
            && (p.flush.ok ==> p.ended && p.pos > 0 && s'.failed == s.failed)
            && (!p.flush.ok ==> s'.failed)
  {
    assert F.SenderOk(s.active[t]);
  }

  lemma LoopReturns(f: Format, w: World, le: L.Event)
    requires Can(f, w, Return(le)) && Inv(f, w) && le.t == LOOP
    ensures LinesOk(f, Do(f, w, Return(le))) && LoopOk(f, Do(f, w, Return(le)))
  {
    var w' := Do(f, w, Return(le));
    ReturnLines(w.line, le);
    if F.Succeeds(w.line, le) {
      EncodedAppend(f, w.tcp.sessions[ME].frames, w.tcp.loop.upd);
      assert Underway(w') == [];
      assert Encoded(f, w'.tcp.sessions[ME].frames) + [] == Encoded(f, w'.tcp.sessions[ME].frames);
    } else {
      LinesAreOwed(f, w);
      assert Owed(w'.tcp) == Owed(w.tcp);
    }
  }

  lemma ReaderReturns(f: Format, w: World, le: L.Event)
    requires Can(f, w, Return(le)) && Inv(f, w) && le.t != LOOP
    ensures LinesOk(f, Do(f, w, Return(le))) && LoopOk(f, Do(f, w, Return(le)))
  {
    var w' := Do(f, w, Return(le));
    ReturnLines(w.line, le);
    assert Underway(w') == Underway(w);
    assert Owed(w'.tcp) == Owed(w.tcp);
    if !F.Succeeds(w.line, le) {
      LinesAreOwed(f, w);
    }
  }

  lemma StepKeepsInv(f: Format, w: World, e: Event)
    requires Can(f, w, e) && Inv(f, w) && Sound(f)
    ensures Inv(f, Do(f, w, e))
  {
    match e
    case Tcp(te) => TcpStepKeeps(f, w, te);
    case Start => AcquireKeeps(f, w, LOOP, f.encode(w.tcp.loop.upd));
    case Reply(t, payload) => AcquireKeeps(f, w, t, payload);
    case Inside(le) => InsideKeeps(f, w, le);
    case Return(le) =>
      T.StepKeepsInv(w.tcp, Outcome(w.line, le));
      LineStepIsOk(w.line, le);
      if le.t == LOOP {
        LoopReturns(f, w, le);
      } else {
        ReaderReturns(f, w, le);
      }
  }

  lemma InitIsOk(f: Format)
    ensures Inv(f, Init())
  {
    F.InitIsOk();
  }

  lemma {:induction false} RunsKeepInv(f: Format, evs: seq<Event>)
    requires Feasible(f, evs) && Sound(f)
    ensures Inv(f, Run(f, evs))
    decreases |evs|
  {
    if evs == [] {
      InitIsOk(f);
    } else {
      RunsKeepInv(f, evs[..|evs| - 1]);
      StepKeepsInv(f, Run(f, evs[..|evs| - 1]), evs[|evs| - 1]);
    }
  }

  // ----- Main result -----

  /** From the broker to the bytes: at any moment of any run, whatever failed, the progress lines the peer can read are
      the encodings of its user's updates since it registered, from the first one on, in the loop's order, each once,
      with nothing of another user among them. */
  lemma PeerReadsOwnUpdates(f: Format, evs: seq<Event>)
    requires Feasible(f, evs) && Sound(f) && ME in Run(f, evs).tcp.sessions
    ensures var w := Run(f, evs);
            Progress(f, Read(L.Text(w.line.begun, w.line.wire)).1) <= Encoded(f, Owed(w.tcp))
  {
    RunsKeepInv(f, evs);
    var w := Run(f, evs);
    F.WholeLines(w.line);
    ProgressOfPrefix(f, Read(L.Text(w.line.begun, w.line.wire)).1, w.line.begun);
    LinesAreOwed(f, w);
  }
}
