/** Three runs of one TCP session in which the welcome line, written without the mutex, and a line that was sent get in
    each other's way: one tears, one sends the welcome twice, one loses the other line. "w" stands for the welcome. */
module LineWitness {
  import opened Channels
  import opened Lines
  import opened LineSystem

  ghost predicate Reachable(s: State) {
    exists evs: seq<Event> :: Feasible(evs) && Run(evs) == s
  }

  lemma Begin() returns (s: State)
    ensures Reachable(s) && s == Init()
  {
    s := Init();
    assert Feasible([]) && Run([]) == s;
  }

  lemma Step(s: State, e: Event) returns (next: State)
    requires Reachable(s) && Can(s, e)
    ensures Reachable(next) && next == Do(s, e)
  {
    var evs :| Feasible(evs) && Run(evs) == s;
    var longer := evs + [e];
    assert longer[..|longer| - 1] == evs;
    next := Do(s, e);
    assert Run(longer) == next;
  }

  const W: seq<Byte> := [Byte(0, 0)]
  const WELCOME: seq<Byte> := [Byte(0, 0), Byte(0, 1)]
  const P: seq<Byte> := [Byte(1, 0), Byte(1, 1)]

  lemma HalfWelcome() returns (s: State)
    ensures Reachable(s)
    ensures s == State(W, W, 0, [], false, None, map[0 := Sender("w", false, 1, 0, false, Idle)], ["w"], false, false)
  {
    s := Begin();
    s := Step(s, Barge(0, "w"));
    s := Step(s, Take(0, 1));
    assert Bytes(0, 0, 1) == W;
  }

  /** Its newline is in and its flush has written the buffer, but not emptied it. */
  lemma WelcomeGoingOut() returns (s: State)
    ensures Reachable(s)
    ensures s == State(WELCOME, WELCOME, 2, WELCOME, false, None,
                       map[0 := Sender("w", false, 1, 0, true, Under(true))], ["w"], false, false)
  {
    s := WholeWelcome();
    s := Step(s, Out(0, 2, true));
    assert WELCOME[..2] == WELCOME;
  }

  lemma WholeWelcome() returns (s: State)
    ensures Reachable(s)
    ensures s == State(WELCOME, WELCOME, 0, [], false, None, map[0 := Sender("w", false, 1, 0, true, Idle)], ["w"],
                       false, false)
  {
    s := HalfWelcome();
    s := Step(s, Newline(0));
    assert W + [Byte(0, 1)] == WELCOME;
  }

  /** With the welcome in some state, another sender takes the mutex and puts the first byte of its line in. */
  lemma StartLine(s: State) returns (next: State)
    requires Reachable(s) && s.active.Keys == {0} && |s.begun| == 1 && s.holder == None && !s.failed
    ensures Reachable(next)
    ensures next == s.(taken := s.taken + [Byte(1, 0)], buffer := s.buffer + [Byte(1, 0)], holder := Some(1),
                       active := s.active[1 := Sender("p", true, 1, 1, false, Idle)], begun := s.begun + ["p"],
                       torn := s.torn || MidLine(s, 0))
  {
    next := TakeMutex(s);
    FirstByte(next);
    next := Step(next, Take(1, 1));
  }

  lemma TakeMutex(s: State) returns (next: State)
    requires Reachable(s) && s.active.Keys == {0} && s.holder == None
    ensures Reachable(next)
    ensures next == s.(holder := Some(1), active := s.active[1 := Sender("p", true, 0, 0, false, Idle)])
  {
    next := Step(s, Acquire(1, "p"));
  }

  lemma FirstByte(s: State)
    requires s.active.Keys == {0, 1} && s.active[1] == Sender("p", true, 0, 0, false, Idle)
    requires |s.begun| == 1 && !s.failed
    ensures Can(s, Take(1, 1))
    ensures DoTake(s, 1, 1) ==
            s.(taken := s.taken + [Byte(1, 0)], buffer := s.buffer + [Byte(1, 0)],
               active := s.active[1 := Sender("p", true, 1, 1, false, Idle)], begun := s.begun + ["p"],
               torn := s.torn || MidLine(s, 0))
  {
    assert Bytes(1, 0, 1) == [Byte(1, 0)];
    assert OthersMidLine(s, 1) <==> MidLine(s, 0);
  }

  lemma PutLine(s: State) returns (next: State)
    requires Reachable(s) && s.active.Keys == {0} && |s.begun| == 1 && s.holder == None && !s.failed
    ensures Reachable(next)
    ensures next == s.(taken := s.taken + P, buffer := s.buffer + P, holder := Some(1),
                       active := s.active[1 := Sender("p", true, 1, 1, true, Idle)], begun := s.begun + ["p"],
                       torn := s.torn || MidLine(s, 0))
  {
    next := StartLine(s);
    next := Step(next, Newline(1));
    assert s.taken + [Byte(1, 0)] + [Byte(1, 1)] == s.taken + P;
    assert s.buffer + [Byte(1, 0)] + [Byte(1, 1)] == s.buffer + P;
  }

  /** And another sender has put its whole line into the buffer. */
  lemma LineSlipsIn() returns (s: State)
    ensures Reachable(s)
    ensures s == State(WELCOME + P, WELCOME + P, 2, WELCOME, false, Some(1),
                       map[0 := Sender("w", false, 1, 0, true, Under(true)),
                           1 := Sender("p", true, 1, 1, true, Idle)],
                       ["w", "p"], false, false)
  {
    s := WelcomeGoingOut();
    s := PutLine(s);
  }

  lemma ReadTwo(a: string, b: string)
    requires OneLine(a) && OneLine(b)
    ensures Read(Line(a) + Line(b)).1 == [a, b]
  {
    assert Stream([a]) == Stream([]) + Line(a) == Line(a) by {
      assert [a][..0] == [];
    }
    assert [a, b][..1] == [a];
    assert Stream([a, b]) == Line(a) + Line(b);
    ReadStream([a, b]);
  }

  lemma ReadThree(a: string, b: string, c: string)
    requires OneLine(a) && OneLine(b) && OneLine(c)
    ensures Read(Line(a) + Line(b) + Line(c)).1 == [a, b, c]
  {
    assert Stream([a]) == Line(a) by {
      assert [a][..0] == [];
    }
    assert [a, b][..1] == [a] && [a, b, c][..2] == [a, b];
    assert Stream([a, b]) == Line(a) + Line(b);
    assert Stream([a, b, c]) == Line(a) + Line(b) + Line(c);
    ReadStream([a, b, c]);
  }

  // ----- Sent twice -----

  lemma BothReturn() returns (s: State)
    ensures Reachable(s) && s.active == map[] && s.begun == ["w", "p"] && s.overlap && !s.torn && !s.failed
    ensures s.wire == WELCOME + (WELCOME + P)
  {
    s := LineSlipsIn();
    s := Step(s, Out(1, 4, true));
    assert (WELCOME + P)[..4] == WELCOME + P;
    s := Step(s, Done(1));
    s := Step(s, Done(0));
  }

  /** Both sends report success, and the peer reads the welcome twice. */
  lemma WelcomeCanRepeat()
    ensures exists evs: seq<Event> ::
              Feasible(evs) && Run(evs).active == map[] && !Run(evs).failed && !Run(evs).torn &&
              Run(evs).begun == ["w", "p"] && Read(Text(Run(evs).begun, Run(evs).wire)).1 == ["w", "w", "p"]
  {
    var s := BothReturn();
    assert Text(s.begun, s.wire) == Line("w") + Line("w") + Line("p");
    ReadThree("w", "w", "p");
    var evs :| Feasible(evs) && Run(evs) == s;
  }

  // ----- Lost -----

  lemma LineIsDropped() returns (s: State)
    ensures Reachable(s) && s.active == map[] && s.begun == ["w", "p"] && s.overlap && !s.torn && !s.failed
    ensures s.wire == WELCOME && s.buffer == []
  {
    s := LineSlipsIn();
    s := Step(s, Done(0));
    s := Step(s, Skip(1));
  }

  /** Both sends report success, and the peer never gets the other line. */
  lemma LineCanBeLost()
    ensures exists evs: seq<Event> ::
              Feasible(evs) && Run(evs).active == map[] && !Run(evs).failed && !Run(evs).torn &&
              Run(evs).buffer == [] && Run(evs).begun == ["w", "p"] &&
              Read(Text(Run(evs).begun, Run(evs).wire)).1 == ["w"]
  {
    var s := LineIsDropped();
    assert Text(s.begun, s.wire) == Line("w");
    assert Stream(["w"]) == Line("w") by {
      assert ["w"][..0] == [];
    }
    ReadStream(["w"]);
    var evs :| Feasible(evs) && Run(evs) == s;
  }

  // ----- Torn -----

  lemma LineCutsIn() returns (s: State)
    ensures Reachable(s)
    ensures s == State(W + P, W + P, 0, [], false, Some(1),
                       map[0 := Sender("w", false, 1, 0, false, Idle), 1 := Sender("p", true, 1, 1, true, Idle)],
                       ["w", "p"], true, false)
  {
    s := HalfWelcome();
    s := PutLine(s);
  }

  lemma TornLines() returns (s: State)
    ensures Reachable(s) && s.begun == ["w", "p"] && s.torn && !s.overlap
    ensures s.wire == W + P + [Byte(0, 1)]
  {
    s := LineCutsIn();
    s := Step(s, Newline(0));
    s := Step(s, Out(0, 4, true));
    assert (W + P + [Byte(0, 1)])[..4] == W + P + [Byte(0, 1)];
  }

  /** The peer reads a line nobody sent. */
  lemma WelcomeCanTear()
    ensures exists evs: seq<Event> ::
              Feasible(evs) && Run(evs).torn && !Run(evs).overlap && Run(evs).begun == ["w", "p"] &&
              Read(Text(Run(evs).begun, Run(evs).wire)).1 == ["wp", ""]
  {
    var s := TornLines();
    assert Text(s.begun, s.wire) == Line("wp") + Line("");
    ReadTwo("wp", "");
    var evs :| Feasible(evs) && Run(evs) == s;
  }
}
