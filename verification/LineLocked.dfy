/** Stretches of a run in which every sender of a TCP session holds the mutex: from the start, or from the moment the
    welcome line is done (internal/tcp/server.go:122-132, 223-244). */
module LineLocked {
  import opened Channels
  import opened Lines
  import opened LineSystem
  import opened LineFraming

  /** From event `k` on, nobody writes without the mutex. */
  predicate NoBarge(evs: seq<Event>, k: nat) {
    forall i | k <= i < |evs| :: !evs[i].Barge?
  }

  ghost predicate AllLocked(s: State) {
    forall t <- s.active :: s.active[t].locked
  }

  /** Payloads in the order their senders took the mutex, from event `k` on. */
  function Acquired(evs: seq<Event>, k: nat): seq<string>
    requires k <= |evs|
  {
    if k == |evs| then []
    else
      var n := |evs| - 1;
      Acquired(evs[..n], k) + if evs[n].Acquire? then [evs[n].payload] else []
  }

  /** The payload of the mutex's owner, if none of it has been taken yet. */
  function Pending(s: State): seq<string> {
    if s.holder.Some? && s.holder.value in s.active && s.active[s.holder.value].pos == 0
    then [s.active[s.holder.value].payload] else []
  }

  /** The bytes still to be taken of the line the mutex's owner has in progress. */
  function Missing(s: State): seq<Byte> {
    if s.holder.Some? && MidLine(s, s.holder.value) then
      var p := s.active[s.holder.value];
      if p.pos <= |p.payload| then Rest(p) else []
    else []
  }

  /** The lines begun since `base` came in mutex order. */
  ghost predicate LinesSince(base: State, s: State, acquired: seq<string>) {
    base.begun <= s.begun &&
    var lines := s.begun[|base.begun|..];
    if s.failed then lines <= Pending(base) + acquired
    else lines + Pending(s) == Pending(base) + acquired
  }

  /** The bytes taken since finish the line in progress then and are whole lines after it. */
  ghost predicate BytesSince(base: State, s: State) {
    base.taken <= s.taken && |base.begun| <= |s.begun| &&
    var bytes := s.taken[|base.taken|..];
    if s.failed then bytes <= Missing(base) + BytesFrom(s.begun, |base.begun|)
    else bytes + Missing(s) == Missing(base) + BytesFrom(s.begun, |base.begun|)
  }

  /** What has gone out since and what waits are the bytes that waited then and those taken since, each once. */
  ghost predicate WireSince(base: State, s: State) {
    base.wire <= s.wire && base.taken <= s.taken &&
    s.wire[|base.wire|..] + Unsent(s) == Unsent(base) + s.taken[|base.taken|..]
  }

  ghost predicate Since(base: State, s: State, acquired: seq<string>) {
    && AllLocked(s) && s.torn == base.torn && s.overlap == base.overlap
    && LinesSince(base, s, acquired) && BytesSince(base, s) && WireSince(base, s)
  }

  // ----- One step -----

  lemma OnlyTheHolder(s: State, t: nat)
    requires LockOk(s) && AllLocked(s) && t in s.active
    ensures s.holder == Some(t) && forall u <- s.active :: u == t
  {
  }

  lemma NoTrouble(s: State, e: Event)
    requires Can(s, e) && LockOk(s) && FlushOk(s) && AllLocked(s)
    ensures Do(s, e).torn == s.torn && Do(s, e).overlap == s.overlap
  {
    if (Do(s, e).torn && !s.torn) || (Do(s, e).overlap && !s.overlap) {
      SomebodyElse(s, e);
      OnlyTheHolder(s, e.t);
    }
  }

  lemma StaysLocked(s: State, e: Event)
    requires Can(s, e) && AllLocked(s) && !e.Barge?
    ensures AllLocked(Do(s, e))
  {
  }

  lemma StepLines(s: State, e: Event)
    requires Can(s, e) && LockOk(s) && AllLocked(s) && !e.Barge?
    ensures var s' := Do(s, e);
            && (s.failed ==> s'.failed && s'.begun == s.begun)
            && s.begun <= s'.begun
            && (!s.failed && !s'.failed ==>
                  s'.begun[|s.begun|..] + Pending(s') == Pending(s) + if e.Acquire? then [e.payload] else [])
            && (!s.failed && s'.failed ==> s'.begun == s.begun && !e.Acquire?)
  {
    if !e.Acquire? {
      OnlyTheHolder(s, e.t);
    }
  }

  lemma StepKeepsLines(base: State, s: State, acquired: seq<string>, e: Event)
    requires Can(s, e) && LockOk(s) && AllLocked(s) && !e.Barge? && LinesSince(base, s, acquired)
    ensures LinesSince(base, Do(s, e), acquired + if e.Acquire? then [e.payload] else [])
  {
    var s' := Do(s, e);
    StepLines(s, e);
    var more := if e.Acquire? then [e.payload] else [];
    var lines, next := s.begun[|base.begun|..], s'.begun[|s.begun|..];
    assert s'.begun[|base.begun|..] == lines + next;
    assert Pending(base) + (acquired + more) == Pending(base) + acquired + more;
    if !s.failed && !s'.failed {
      assert lines + next + Pending(s') == lines + (next + Pending(s')) == lines + Pending(s) + more;
    }
  }

  /** The bytes one step takes, against what is missing of the line in progress. */
  lemma StepBytes(s: State, e: Event)
    requires Can(s, e) && LockOk(s) && AllLocked(s) && !e.Barge?
    ensures var s' := Do(s, e);
            && s.taken <= s'.taken && (s.failed ==> s'.failed && s'.taken == s.taken && s'.begun == s.begun)
            && (!s.failed && s'.failed ==> s'.taken == s.taken && s'.begun == s.begun)
            && (!s.failed && !s'.failed && !e.Take? ==>
                  s'.begun == s.begun && s'.taken[|s.taken|..] + Missing(s') == Missing(s))
  {
    if e.Newline? {
      OnlyTheHolder(s, e.t);
      assert SenderOk(s.active[e.t]);
    } else if !e.Acquire? {
      OnlyTheHolder(s, e.t);
    }
  }

  lemma TakeBytes(s: State, t: nat, n: nat)
    requires Can(s, Take(t, n)) && LockOk(s) && AllLocked(s)
    ensures var s' := DoTake(s, t, n);
            var p := s.active[t];
            && s'.taken[|s.taken|..] + Missing(s') ==
               Missing(s) + (if p.pos == 0 then Bytes(|s.begun|, 0, |p.payload| + 1) else [])
            && s'.begun == if p.pos == 0 then s.begun + [p.payload] else s.begun
  {
    var s', p := DoTake(s, t, n), s.active[t];
    OnlyTheHolder(s, t);
    assert SenderOk(p) && MidLine(s', t);
    BytesSplit(s'.active[t].index, p.pos, p.pos + n, |p.payload| + 1);
  }

  lemma TakeKeepsBytes(base: State, s: State, t: nat, n: nat)
    requires Can(s, Take(t, n)) && LockOk(s) && AllLocked(s) && BytesSince(base, s)
    ensures BytesSince(base, DoTake(s, t, n))
  {
    var s', p := DoTake(s, t, n), s.active[t];
    TakeBytes(s, t, n);
    var bytes, next := s.taken[|base.taken|..], s'.taken[|s.taken|..];
    var more := if p.pos == 0 then Bytes(|s.begun|, 0, |p.payload| + 1) else [];
    assert s'.taken[|base.taken|..] == bytes + next;
    Regroup(bytes, next, Missing(s'));
    Regroup(bytes, Missing(s), more);
    Regroup(Missing(base), BytesFrom(s.begun, |base.begun|), more);
    if p.pos == 0 {
      BytesFromAppend(s.begun, p.payload, |base.begun|);
    } else {
      assert BytesFrom(s.begun, |base.begun|) + more == BytesFrom(s.begun, |base.begun|);
    }
  }

  lemma StepKeepsBytes(base: State, s: State, e: Event)
    requires Can(s, e) && LockOk(s) && AllLocked(s) && !e.Barge? && BytesSince(base, s)
    ensures BytesSince(base, Do(s, e))
  {
    if e.Take? {
      TakeKeepsBytes(base, s, e.t, e.n);
    } else {
      var s' := Do(s, e);
      StepBytes(s, e);
      var bytes, next := s.taken[|base.taken|..], s'.taken[|s.taken|..];
      assert s'.taken[|base.taken|..] == bytes + next;
      Regroup(bytes, next, Missing(s'));
    }
  }

  /** One step moves bytes from the payload to the buffer, or from the buffer to the wire; none gets lost. */
  lemma StepWire(s: State, e: Event)
    requires Can(s, e) && LockOk(s) && FlushOk(s) && AllLocked(s) && !e.Barge?
    ensures var s' := Do(s, e);
            s.wire <= s'.wire && s.taken <= s'.taken &&
            s'.wire[|s.wire|..] + Unsent(s') == Unsent(s) + s'.taken[|s.taken|..]
  {
    if e.Out? {
      OutMoves(s, e.t, e.upTo, e.ok);
    } else if e.Done? {
      DoneMoves(s, e.t);
    } else if e.Take? || e.Newline? {
      var s' := Do(s, e);
      assert s'.buffer == s.buffer + s'.taken[|s.taken|..];
      assert s'.wire[|s.wire|..] == [];
    } else {
      assert Do(s, e).wire[|s.wire|..] == [] && Do(s, e).taken[|s.taken|..] == [];
    }
  }

  lemma OutMoves(s: State, t: nat, upTo: nat, ok: bool)
    requires Can(s, Out(t, upTo, ok)) && LockOk(s) && FlushOk(s) && AllLocked(s)
    ensures var s' := DoOut(s, t, upTo, ok);
            s.wire <= s'.wire && s'.wire[|s.wire|..] + Unsent(s') == Unsent(s)
  {
    var s' := DoOut(s, t, upTo, ok);
    OnlyTheHolder(s, t);
    assert forall u :: !Flushing(s, u);
    assert s'.wire[|s.wire|..] == s.buffer[..upTo];
    assert s.buffer[..upTo] + s.buffer[upTo..] == s.buffer;
  }

  lemma DoneMoves(s: State, t: nat)
    requires Can(s, Done(t)) && LockOk(s) && FlushOk(s) && AllLocked(s)
    ensures DoDone(s, t).wire == s.wire && DoDone(s, t).taken == s.taken && Unsent(DoDone(s, t)) == Unsent(s)
  {
    OnlyTheHolder(s, t);
    assert Flushing(s, t);
  }

  lemma StepKeepsWireSince(base: State, s: State, e: Event)
    requires Can(s, e) && LockOk(s) && FlushOk(s) && AllLocked(s) && !e.Barge? && WireSince(base, s)
    ensures WireSince(base, Do(s, e))
  {
    var s' := Do(s, e);
    StepWire(s, e);
    SuffixGrows(base.wire, s.wire, s'.wire);
    SuffixGrows(base.taken, s.taken, s'.taken);
    MovedOn(Unsent(base), s.wire[|base.wire|..], s'.wire[|s.wire|..], Unsent(s), Unsent(s'),
            s.taken[|base.taken|..], s'.taken[|s.taken|..]);
  }

  lemma SuffixGrows<T>(a: seq<T>, b: seq<T>, c: seq<T>)
    requires a <= b <= c
    ensures a <= c && c[|a|..] == b[|a|..] + c[|b|..]
  {
  }

  /** Two stretches, one after the other. */
  lemma MovedOn<T>(
    waited: seq<T>, sent: seq<T>, next: seq<T>, unsent: seq<T>, unsent': seq<T>, bytes: seq<T>, more: seq<T>)
    requires sent + unsent == waited + bytes && next + unsent' == unsent + more
    ensures sent + next + unsent' == waited + (bytes + more)
  {
    Regroup(sent, next, unsent');
    Regroup(sent, unsent, more);
    Regroup(waited, bytes, more);
  }

  lemma StepSince(base: State, s: State, acquired: seq<string>, e: Event)
    requires Can(s, e) && Inv(s) && !e.Barge? && Since(base, s, acquired)
    ensures Since(base, Do(s, e), acquired + if e.Acquire? then [e.payload] else [])
  {
    NoTrouble(s, e);
    StaysLocked(s, e);
    StepKeepsLines(base, s, acquired, e);
    StepKeepsBytes(base, s, e);
    StepKeepsWireSince(base, s, e);
  }

  lemma SinceStart(base: State)
    requires AllLocked(base)
    ensures Since(base, base, [])
  {
    assert base.begun[|base.begun|..] == [] && base.taken[|base.taken|..] == [] && base.wire[|base.wire|..] == [];
    assert Pending(base) + [] == Pending(base) && Missing(base) + [] == Missing(base);
    assert Unsent(base) + [] == Unsent(base) && [] + Unsent(base) == Unsent(base);
    assert [] + Pending(base) == Pending(base) && [] + Missing(base) == Missing(base);
  }

  lemma {:induction false} SinceRun(evs: seq<Event>, k: nat)
    requires Feasible(evs) && k <= |evs| && NoBarge(evs, k)
    requires Feasible(evs[..k]) && AllLocked(Run(evs[..k]))
    ensures Since(Run(evs[..k]), Run(evs), Acquired(evs, k))
    decreases |evs|
  {
    if k == |evs| {
      assert evs[..k] == evs;
      SinceStart(Run(evs));
    } else {
      var n := |evs| - 1;
      assert evs[..n][..k] == evs[..k];
      SinceRun(evs[..n], k);
      RunsKeepInv(evs[..n]);
      StepSince(Run(evs[..k]), Run(evs[..n]), Acquired(evs[..n], k), evs[n]);
    }
  }

  // ----- Main results -----

  lemma PendingCut(lines: seq<string>, s: State, all: seq<string>)
    requires if s.failed then lines <= all else lines + Pending(s) == all
    ensures lines <= all
  {
    if !s.failed {
      assert (lines + Pending(s))[..|lines|] == lines;
    }
  }

  /** Frame integrity: if every sender takes the mutex, then in every run nothing is torn, sent twice or dropped, and
      what a peer can read are whole payloads in mutex order, each once, whatever failed. */
  lemma LockedSendersFrame(evs: seq<Event>)
    requires Feasible(evs) && NoBarge(evs, 0)
    ensures var s := Run(evs);
            && !s.torn && !s.overlap
            && s.begun <= Acquired(evs, 0) && (!s.failed ==> s.begun + Pending(s) == Acquired(evs, 0))
            && Read(Text(s.begun, s.wire)).1 <= s.begun <= Acquired(evs, 0)
  {
    assert evs[..0] == [];
    SinceRun(evs, 0);
    var s := Run(evs);
    assert s.begun[0..] == s.begun && [] + Acquired(evs, 0) == Acquired(evs, 0);
    PendingCut(s.begun, s, Acquired(evs, 0));
    WireCarriesWholeLines(evs);
  }

  /** What goes out after `base`, as text: what waited, the end of the line in progress, and the new lines. */
  lemma TextSince(base: State, s: State, acquired: seq<string>)
    requires Since(base, s, acquired)
    ensures base.begun <= s.begun && base.wire <= s.wire
    ensures Text(s.begun, s.wire[|base.wire|..]) <=
            Text(s.begun, Unsent(base) + Missing(base)) + Stream(s.begun[|base.begun|..])
  {
    var bytes, lines := s.taken[|base.taken|..], BytesFrom(s.begun, |base.begun|);
    if !s.failed {
      assert (bytes + Missing(s))[..|bytes|] == bytes;
    }
    assert bytes <= Missing(base) + lines;
    var sent := s.wire[|base.wire|..];
    assert (sent + Unsent(s))[..|sent|] == sent;
    assert sent <= Unsent(base) + bytes;
    assert Unsent(base) + bytes <= Unsent(base) + (Missing(base) + lines);
    Regroup(Unsent(base), Missing(base), lines);
    PrefixText(s.begun, sent, Unsent(base) + Missing(base) + lines);
    TextAppend(s.begun, Unsent(base) + Missing(base), lines);
    TextOfLines(s.begun, |base.begun|);
  }

  /** The same from the moment the welcome line is done: whatever came before, from then on the peer is sent what was
      waiting, the end of the line in progress if there is one, and whole payloads in mutex order; and nothing more is
      torn, sent twice or dropped. */
  lemma FramedAfterWelcome(evs: seq<Event>, k: nat)
    requires Feasible(evs) && k <= |evs| && NoBarge(evs, k)
    requires Feasible(evs[..k]) && AllLocked(Run(evs[..k]))
    ensures var base, s := Run(evs[..k]), Run(evs);
            && base.begun <= s.begun && base.wire <= s.wire && s.torn == base.torn && s.overlap == base.overlap
            && Text(s.begun, s.wire[|base.wire|..]) <=
               Text(s.begun, Unsent(base) + Missing(base)) + Stream(s.begun[|base.begun|..])
            && s.begun[|base.begun|..] <= Pending(base) + Acquired(evs, k)
  {
    SinceRun(evs, k);
    var base, s := Run(evs[..k]), Run(evs);
    TextSince(base, s, Acquired(evs, k));
    PendingCut(s.begun[|base.begun|..], s, Pending(base) + Acquired(evs, k));
  }
}
