/** Exactly when the lines of one TCP session come out whole, in every interleaving, the unlocked welcome included. */
module LineFraming {
  import opened Channels
  import opened Lines
  import opened LineSystem

  // ----- What every run keeps -----

  predicate SenderOk(p: Sender) {
    Sendable(p.payload) && p.pos <= |p.payload| && (p.ended ==> p.pos == |p.payload|)
  }

  ghost predicate LockOk(s: State) {
    && (forall t <- s.active :: SenderOk(s.active[t]))
    && (forall t <- s.active :: s.active[t].locked <==> s.holder == Some(t))
    && (s.holder.Some? ==> s.holder.value in s.active)
    && OneLiners(s.begun) && s.out <= |s.buffer|
  }

  lemma StepKeepsLock(s: State, e: Event)
    requires Can(s, e) && LockOk(s)
    ensures LockOk(Do(s, e))
  {
    if e.Take? {
      TakeKeepsLock(s, e.t, e.n);
    } else if e.Done? {
      DoneKeepsLock(s, e.t);
    }
  }

  lemma TakeKeepsLock(s: State, t: nat, n: nat)
    requires Can(s, Take(t, n)) && LockOk(s)
    ensures LockOk(DoTake(s, t, n))
  {
    assert SenderOk(s.active[t]);
  }

  lemma DoneKeepsLock(s: State, t: nat)
    requires Can(s, Done(t)) && LockOk(s)
    ensures LockOk(DoDone(s, t))
  {
    if s.active[t].flush.ok && !s.active[t].ended {
      SameSenders(s, DoDone(s, t), t);
    } else {
      LeaverKeepsLock(s, DoDone(s, t), t);
    }
  }

  lemma SameSenders(s: State, s': State, t: nat)
    requires LockOk(s) && t in s.active && s'.active == s.active[t := s.active[t].(flush := Idle)]
    requires s'.holder == s.holder && s'.begun == s.begun && s'.out <= |s'.buffer|
    ensures LockOk(s')
  {
  }

  lemma LeaverKeepsLock(s: State, s': State, t: nat)
    requires LockOk(s) && t in s.active && s'.active == s.active - {t}
    requires s'.holder == if s.active[t].locked then None else s.holder
    requires s'.begun == s.begun && s'.out <= |s'.buffer|
    ensures LockOk(s')
  {
  }

  predicate Placed(p: Sender) {
    p.pos > 0
  }

  /** Each sender has a line of its own, and of an unfinished line just the bytes up to `pos` have been taken. */
  ghost predicate PlacesOk(s: State) {
    && (forall t <- s.active | Placed(s.active[t]) ::
          s.active[t].index < |s.begun| && s.begun[s.active[t].index] == s.active[t].payload)
    && (forall t <- s.active, u <- s.active | t != u && Placed(s.active[t]) && Placed(s.active[u]) ::
          s.active[t].index != s.active[u].index)
  }

  lemma TakeKeepsPlaces(s: State, t: nat, n: nat)
    requires Can(s, Take(t, n)) && PlacesOk(s)
    ensures PlacesOk(DoTake(s, t, n))
  {
    var s' := DoTake(s, t, n);
    assert s.begun <= s'.begun;
  }

  /** Nobody's place changes, and nobody gets one. */
  lemma SamePlaces(s: State, s': State)
    requires PlacesOk(s) && s'.begun == s.begun
    requires forall t <- s'.active | Placed(s'.active[t]) ::
               t in s.active && Placed(s.active[t]) &&
               s'.active[t].index == s.active[t].index && s'.active[t].payload == s.active[t].payload
    ensures PlacesOk(s')
  {
  }

  lemma StepKeepsPlaces(s: State, e: Event)
    requires Can(s, e) && PlacesOk(s)
    ensures PlacesOk(Do(s, e))
  {
    if e.Take? {
      TakeKeepsPlaces(s, e.t, e.n);
    } else {
      SamePlaces(s, Do(s, e));
    }
  }

  /** No byte is taken twice. */
  ghost predicate TakenOk(s: State) {
    && Distinct(s.taken) && Below(s.taken, |s.begun|)
    && (forall t <- s.active, i | 0 <= i < |s.taken| && MidLine(s, t) && s.taken[i].line == s.active[t].index ::
          s.taken[i].at < s.active[t].pos)
  }

  lemma DistinctAppend<T>(xs: seq<T>, ys: seq<T>)
    requires Distinct(xs) && Distinct(ys) && forall i, j | 0 <= i < |xs| && 0 <= j < |ys| :: xs[i] != ys[j]
    ensures Distinct(xs + ys)
  {
  }

  lemma TakeIsFresh(s: State, t: nat, n: nat)
    requires Can(s, Take(t, n)) && TakenOk(s)
    ensures Distinct(DoTake(s, t, n).taken)
  {
    var p, p' := s.active[t], DoTake(s, t, n).active[t];
    var more := Bytes(p'.index, p.pos, p'.pos);
    forall i, j | 0 <= i < |s.taken| && 0 <= j < |more|
      ensures s.taken[i] != more[j]
    {
      assert p.pos > 0 ==> MidLine(s, t);
    }
    DistinctAppend(s.taken, more);
  }

  lemma TakeKeepsTaken(s: State, t: nat, n: nat)
    requires Can(s, Take(t, n)) && LockOk(s) && PlacesOk(s) && TakenOk(s)
    ensures TakenOk(DoTake(s, t, n))
  {
    var s' := DoTake(s, t, n);
    var p := s.active[t];
    TakeIsFresh(s, t, n);
    StepKeepsPlaces(s, Take(t, n));
    forall u <- s'.active, i | 0 <= i < |s'.taken| && MidLine(s', u) && s'.taken[i].line == s'.active[u].index
      ensures s'.taken[i].at < s'.active[u].pos
    {
      if u == t && i < |s.taken| {
        assert p.pos > 0 ==> MidLine(s, t);
      } else if u != t {
        assert MidLine(s, u);
      }
    }
  }

  lemma NewlineKeepsTaken(s: State, t: nat)
    requires Can(s, Newline(t)) && LockOk(s) && PlacesOk(s) && TakenOk(s)
    ensures TakenOk(DoNewline(s, t))
  {
    var s' := DoNewline(s, t);
    var b := Byte(s.active[t].index, s.active[t].pos);
    assert SenderOk(s.active[t]) && MidLine(s, t);
    DistinctAppend(s.taken, [b]);
    forall u <- s'.active, i | 0 <= i < |s'.taken| && MidLine(s', u) && s'.taken[i].line == s'.active[u].index
      ensures s'.taken[i].at < s'.active[u].pos
    {
      assert MidLine(s, u) && s.active[u].index != s.active[t].index;
    }
  }

  lemma QuietKeepsTaken(s: State, e: Event)
    requires Can(s, e) && TakenOk(s) && !e.Take? && !e.Newline?
    ensures TakenOk(Do(s, e))
  {
    QuietStep(s, e);
    var s' := Do(s, e);
    forall u <- s'.active, i | 0 <= i < |s'.taken| && MidLine(s', u) && s'.taken[i].line == s'.active[u].index
      ensures s'.taken[i].at < s'.active[u].pos
    {
      assert MidLine(s, u);
    }
  }

  lemma StepKeepsTaken(s: State, e: Event)
    requires Can(s, e) && LockOk(s) && PlacesOk(s) && TakenOk(s)
    ensures TakenOk(Do(s, e))
  {
    if e.Take? {
      TakeKeepsTaken(s, e.t, e.n);
    } else if e.Newline? {
      NewlineKeepsTaken(s, e.t);
    } else {
      QuietKeepsTaken(s, e);
    }
  }

  // ----- The bytes taken -----

  /** The bytes of a sender's line still to be taken. */
  function Rest(p: Sender): seq<Byte>
    requires p.pos <= |p.payload|
  {
    Bytes(p.index, p.pos, |p.payload| + 1)
  }

  /** With nothing torn the bytes taken are whole lines in the order begun, the last one perhaps unfinished. */
  ghost predicate InOrderOk(s: State)
    requires LockOk(s)
  {
    !s.torn ==>
      if s.failed then s.taken <= BytesFrom(s.begun, 0)
      else
        && (forall t, u :: MidLine(s, t) && MidLine(s, u) ==> t == u)
        && ((forall t :: !MidLine(s, t)) ==> s.taken == BytesFrom(s.begun, 0))
        && (forall t :: MidLine(s, t) ==>
              s.active[t].index == |s.begun| - 1 && s.taken + Rest(s.active[t]) == BytesFrom(s.begun, 0))
  }

  lemma InOrder(s: State)
    requires LockOk(s) && InOrderOk(s) && !s.torn
    ensures s.taken <= BytesFrom(s.begun, 0)
  {
    if !s.failed && exists t :: MidLine(s, t) {
      var t :| MidLine(s, t);
      assert s.taken == (s.taken + Rest(s.active[t]))[..|s.taken|];
    }
  }

  /** The first bytes of a new line. */
  lemma FirstTake(s: State, t: nat, n: nat)
    requires Can(s, Take(t, n)) && LockOk(s) && InOrderOk(s) && s.active[t].pos == 0 && !DoTake(s, t, n).torn
    ensures var s' := DoTake(s, t, n);
            s'.active[t].index == |s'.begun| - 1 && s'.active[t].pos <= |s'.active[t].payload| &&
            s'.taken + Rest(s'.active[t]) == BytesFrom(s'.begun, 0)
  {
    var p := s.active[t].payload;
    forall u: nat
      ensures !MidLine(s, u)
    {
      assert u != t ==> !MidLine(s, u);
    }
    BytesFromAppend(s.begun, p, 0);
    BytesSplit(|s.begun|, 0, n, |p| + 1);
    Regroup(s.taken, Bytes(|s.begun|, 0, n), Bytes(|s.begun|, n, |p| + 1));
  }

  lemma Regroup<T>(a: seq<T>, b: seq<T>, c: seq<T>)
    ensures (a + b) + c == a + (b + c)
  {
  }

  lemma NextTake(s: State, t: nat, n: nat)
    requires Can(s, Take(t, n)) && LockOk(s) && InOrderOk(s) && s.active[t].pos > 0 && !DoTake(s, t, n).torn
    ensures var s' := DoTake(s, t, n);
            s'.active[t].index == |s'.begun| - 1 && s'.active[t].pos <= |s'.active[t].payload| &&
            s'.taken + Rest(s'.active[t]) == BytesFrom(s'.begun, 0)
  {
    var p := s.active[t];
    assert MidLine(s, t);
    BytesSplit(p.index, p.pos, p.pos + n, |p.payload| + 1);
    Regroup(s.taken, Bytes(p.index, p.pos, p.pos + n), Bytes(p.index, p.pos + n, |p.payload| + 1));
  }

  lemma TakeKeepsOrder(s: State, t: nat, n: nat)
    requires Can(s, Take(t, n)) && LockOk(s) && InOrderOk(s) && LockOk(DoTake(s, t, n))
    ensures InOrderOk(DoTake(s, t, n))
  {
    var s' := DoTake(s, t, n);
    if !s'.torn {
      if s.active[t].pos == 0 {
        FirstTake(s, t, n);
      } else {
        NextTake(s, t, n);
      }
      assert MidLine(s', t);
      forall u: nat | u != t
        ensures !MidLine(s', u)
      {
        assert !MidLine(s, u);
      }
    }
  }

  lemma NewlineKeepsOrder(s: State, t: nat)
    requires Can(s, Newline(t)) && LockOk(s) && InOrderOk(s) && LockOk(DoNewline(s, t))
    ensures InOrderOk(DoNewline(s, t))
  {
    var s' := DoNewline(s, t);
    if !s.torn {
      assert SenderOk(s.active[t]) && MidLine(s, t);
      assert Rest(s.active[t]) == [Byte(s.active[t].index, s.active[t].pos)];
      forall u: nat
        ensures !MidLine(s', u)
      {
        assert u != t ==> !MidLine(s, u);
      }
    }
  }

  lemma QuietKeepsOrder(s: State, e: Event)
    requires Can(s, e) && LockOk(s) && InOrderOk(s) && !e.Take? && !e.Newline? && LockOk(Do(s, e))
    ensures InOrderOk(Do(s, e))
  {
    QuietStep(s, e);
    if !s.torn {
      InOrder(s);
      if !Do(s, e).failed {
        SameOrder(s, Do(s, e));
      }
    }
  }

  /** A step that takes no byte: lines in progress stay as they are, or the writer has failed. */
  lemma QuietStep(s: State, e: Event)
    requires Can(s, e) && !e.Take? && !e.Newline?
    ensures var s' := Do(s, e);
            && s'.taken == s.taken && s'.begun == s.begun && s'.torn == s.torn
            && (s.failed ==> s'.failed)
            && (!s'.failed ==> forall u :: MidLine(s', u) <==> MidLine(s, u))
            && (forall u :: MidLine(s', u) ==> MidLine(s, u) && SameLine(s.active[u], s'.active[u]))
  {
  }

  predicate SameLine(p: Sender, p': Sender) {
    p'.payload == p.payload && p'.pos == p.pos && p'.index == p.index
  }

  lemma SameOrder(s: State, s': State)
    requires LockOk(s) && InOrderOk(s) && LockOk(s') && !s.torn && !s.failed
    requires s'.taken == s.taken && s'.begun == s.begun && s'.torn == s.torn && !s'.failed
    requires forall u :: MidLine(s', u) <==> MidLine(s, u)
    requires forall u :: MidLine(s', u) ==> SameLine(s.active[u], s'.active[u])
    ensures InOrderOk(s')
  {
    if t :| MidLine(s', t) {
      assert MidLine(s, t);
    }
  }

  lemma StepKeepsOrder(s: State, e: Event)
    requires Can(s, e) && LockOk(s) && InOrderOk(s) && LockOk(Do(s, e))
    ensures InOrderOk(Do(s, e))
  {
    if e.Take? {
      TakeKeepsOrder(s, e.t, e.n);
    } else if e.Newline? {
      NewlineKeepsOrder(s, e.t);
    } else {
      QuietKeepsOrder(s, e);
    }
  }

  // ----- A tear is never mended -----

  predicate DiffersAt(s: State, i: nat) {
    i < |s.taken| && i < |BytesFrom(s.begun, 0)| && s.taken[i] != BytesFrom(s.begun, 0)[i]
  }

  ghost predicate TornOk(s: State) {
    s.torn ==> exists i: nat :: DiffersAt(s, i)
  }

  lemma StepGrows(s: State, e: Event)
    requires Can(s, e)
    ensures s.taken <= Do(s, e).taken && BytesFrom(s.begun, 0) <= BytesFrom(Do(s, e).begun, 0)
    ensures s.torn ==> Do(s, e).torn
  {
    if e.Take? {
      BytesFromAppend(s.begun, s.active[e.t].payload, 0);
    }
  }

  /** The byte that tears stands where a byte of the unfinished line should be. */
  lemma TakeTears(s: State, t: nat, n: nat)
    requires Can(s, Take(t, n)) && LockOk(s) && PlacesOk(s) && InOrderOk(s) && !s.torn && DoTake(s, t, n).torn
    ensures DiffersAt(DoTake(s, t, n), |s.taken|)
  {
    var s' := DoTake(s, t, n);
    var u :| u != t && MidLine(s, u);
    assert SenderOk(s.active[u]) && !MidLine(s, t);
    StepGrows(s, Take(t, n));
    var whole := BytesFrom(s.begun, 0);
    assert whole[|s.taken|] == (s.taken + Rest(s.active[u]))[|s.taken|] == Rest(s.active[u])[0];
    assert s'.taken[|s.taken|] == Bytes(|s.begun|, 0, n)[0];
  }

  lemma StepKeepsTorn(s: State, e: Event)
    requires Can(s, e) && LockOk(s) && PlacesOk(s) && InOrderOk(s) && TornOk(s)
    ensures TornOk(Do(s, e))
  {
    StepGrows(s, e);
    if s.torn {
      var i: nat :| DiffersAt(s, i);
      assert DiffersAt(Do(s, e), i);
    } else if Do(s, e).torn {
      TakeTears(s, e.t, e.n);
    }
  }

  // ----- The bytes that went out -----

  ghost predicate Doubled(s: State) {
    !Distinct(s.wire)
  }

  predicate LostAt(s: State, i: nat) {
    i < |s.taken| && s.taken[i] !in s.wire && s.taken[i] !in s.buffer
  }

  /** While flushes do not overlap, every byte taken has gone out or waits, each once, in order; afterwards some byte
      went out twice or is gone for good. */
  ghost predicate WireOk(s: State) {
    && (forall i | 0 <= i < s.out && i < |s.buffer| :: s.buffer[i] in s.wire)
    && (!s.overlap ==> s.wire + Unsent(s) == s.taken)
    && (s.overlap ==> Doubled(s) || exists i: nat :: LostAt(s, i))
  }

  /** What a step may take: nothing, or bytes that were never taken before. */
  lemma TakeKeepsWire(s: State, s': State, more: seq<Byte>)
    requires WireOk(s) && s.out <= |s.buffer| && s'.wire == s.wire && s'.out == s.out && s'.overlap == s.overlap
    requires s'.taken == s.taken + more && s'.buffer == s.buffer + more && Distinct(s'.taken)
    ensures WireOk(s')
  {
    assert Unsent(s') == Unsent(s) + more;
    Regroup(s.wire, Unsent(s), more);
    if i: nat :| LostAt(s, i) {
      assert s'.taken[i] == s.taken[i];
      forall j | 0 <= j < |more|
        ensures more[j] != s.taken[i]
      {
        assert s'.taken[|s.taken| + j] == more[j];
      }
      assert LostAt(s', i);
    }
  }

  lemma OutKeepsWire(s: State, t: nat, upTo: nat, ok: bool)
    requires Can(s, Out(t, upTo, ok)) && LockOk(s) && WireOk(s)
    ensures WireOk(DoOut(s, t, upTo, ok))
  {
    FrontIsOut(s, t, upTo, ok);
    if s.overlap {
      OutKeepsHarm(s, t, upTo, ok);
    } else if s.out > 0 && upTo > 0 {
      SentTwice(s.wire, s.buffer[..upTo]);
    } else {
      OutInOrder(s, t, upTo, ok);
    }
  }

  lemma FrontIsOut(s: State, t: nat, upTo: nat, ok: bool)
    requires Can(s, Out(t, upTo, ok)) && LockOk(s) && WireOk(s)
    ensures var s' := DoOut(s, t, upTo, ok);
            forall i | 0 <= i < s'.out && i < |s'.buffer| :: s'.buffer[i] in s'.wire
  {
    forall i | 0 <= i < upTo
      ensures s.buffer[i] in s.buffer[..upTo]
    {
      assert s.buffer[..upTo][i] == s.buffer[i];
    }
  }

  /** A flush that is alone, or sends nothing. */
  lemma OutInOrder(s: State, t: nat, upTo: nat, ok: bool)
    requires Can(s, Out(t, upTo, ok)) && LockOk(s) && s.wire + Unsent(s) == s.taken && (s.out == 0 || upTo == 0)
    ensures var s' := DoOut(s, t, upTo, ok); s'.wire + Unsent(s') == s'.taken
  {
    if s.out == 0 {
      assert s.buffer[..upTo] + s.buffer[upTo..] == s.buffer;
      Regroup(s.wire, s.buffer[..upTo], s.buffer[upTo..]);
    } else {
      assert DoOut(s, t, upTo, ok).wire == s.wire;
    }
  }

  lemma SentTwice(wire: seq<Byte>, more: seq<Byte>)
    requires more != [] && more[0] in wire
    ensures !Distinct(wire + more)
  {
    var i :| 0 <= i < |wire| && wire[i] == more[0];
    assert (wire + more)[i] == (wire + more)[|wire|];
  }

  lemma OutKeepsHarm(s: State, t: nat, upTo: nat, ok: bool)
    requires Can(s, Out(t, upTo, ok)) && WireOk(s) && s.overlap
    ensures Doubled(DoOut(s, t, upTo, ok)) || exists i: nat :: LostAt(DoOut(s, t, upTo, ok), i)
  {
    var s' := DoOut(s, t, upTo, ok);
    if Doubled(s) {
      var i, j :| 0 <= i < j < |s.wire| && s.wire[i] == s.wire[j];
      assert s'.wire[i] == s'.wire[j];
    } else {
      var i: nat :| LostAt(s, i);
      assert forall k | 0 <= k < upTo :: s.buffer[..upTo][k] in s.buffer;
      assert LostAt(s', i);
    }
  }

  lemma DoneKeepsWire(s: State, t: nat)
    requires Can(s, Done(t)) && LockOk(s) && TakenOk(s) && WireOk(s)
    ensures WireOk(DoDone(s, t))
  {
    var s' := DoDone(s, t);
    if s.overlap && !Doubled(s) {
      var i: nat :| LostAt(s, i);
      assert forall b <- s'.buffer :: b in s.buffer;
      assert LostAt(s', i);
    } else if !s.overlap && s'.overlap {
      DroppedIsLost(s);
      var i: nat :| i < |s.taken| && s.taken[i] == s.buffer[s.out] && s.taken[i] !in s.wire;
      assert LostAt(s', i);
    }
  }

  lemma DroppedIsLost(s: State)
    requires !s.overlap && WireOk(s) && TakenOk(s) && s.out < |s.buffer|
    ensures exists i: nat :: i < |s.taken| && s.taken[i] == s.buffer[s.out] && s.taken[i] !in s.wire
  {
    var i := |s.wire|;
    assert s.taken[i] == (s.wire + Unsent(s))[i] == s.buffer[s.out];
    forall k | 0 <= k < |s.wire|
      ensures s.wire[k] != s.taken[i]
    {
      assert s.taken[k] == (s.wire + Unsent(s))[k] == s.wire[k];
    }
  }

  lemma StepKeepsWire(s: State, e: Event)
    requires Can(s, e) && LockOk(s) && TakenOk(s) && TakenOk(Do(s, e)) && WireOk(s)
    ensures WireOk(Do(s, e))
  {
    if e.Take? {
      var p := AfterTake(s, s.active[e.t], e.n);
      TakeKeepsWire(s, Do(s, e), Bytes(p.index, p.pos - e.n, p.pos));
    } else if e.Newline? {
      TakeKeepsWire(s, Do(s, e), [Byte(s.active[e.t].index, s.active[e.t].pos)]);
    } else if e.Out? {
      OutKeepsWire(s, e.t, e.upTo, e.ok);
    } else if e.Done? {
      DoneKeepsWire(s, e.t);
    } else {
      SameWire(s, Do(s, e));
    }
  }

  lemma SameWire(s: State, s': State)
    requires WireOk(s) && s'.wire == s.wire && s'.buffer == s.buffer && s'.out == s.out && s'.taken == s.taken
    requires s'.overlap == s.overlap
    ensures WireOk(s')
  {
    if i: nat :| LostAt(s, i) {
      assert LostAt(s', i);
    }
  }

  // ----- Flushes under way -----

  /** Bytes have gone out that the buffer still holds only while some flush is under way; and a successful flush under
      way covers the whole buffer, unless somebody else has a line in progress. */
  ghost predicate FlushOk(s: State) {
    && (s.out > 0 ==> !s.failed && exists t :: Flushing(s, t))
    && (!s.failed ==> forall t :: Flushing(s, t) && s.active[t].flush.ok && s.out < |s.buffer| ==>
          exists u :: u != t && u in s.active && Placed(s.active[u]))
  }

  predicate Flushing(s: State, t: nat) {
    t in s.active && s.active[t].flush.Under?
  }

  lemma StartKeepsFlush(s: State, e: Event)
    requires Can(s, e) && FlushOk(s) && (e.Acquire? || e.Barge?)
    ensures FlushOk(Do(s, e))
  {
    var s' := Do(s, e);
    if t :| Flushing(s, t) {
      assert Flushing(s', t);
    }
    forall t | Flushing(s', t) && s'.active[t].flush.ok && s'.out < |s'.buffer| && !s'.failed
      ensures exists u :: u != t && u in s'.active && Placed(s'.active[u])
    {
      assert Flushing(s, t);
      var u :| u != t && u in s.active && Placed(s.active[u]);
      assert u in s'.active && Placed(s'.active[u]);
    }
  }

  /** Whoever takes a byte is in progress afterwards. */
  lemma ByteKeepsFlush(s: State, e: Event)
    requires Can(s, e) && LockOk(s) && FlushOk(s) && (e.Take? || e.Newline?)
    ensures FlushOk(Do(s, e))
  {
    var s' := Do(s, e);
    assert SenderOk(s.active[e.t]) && Placed(s'.active[e.t]);
    if t :| Flushing(s, t) {
      assert Flushing(s', t);
    }
    forall t | Flushing(s', t)
      ensures t != e.t
    {
    }
  }

  lemma OutKeepsFlush(s: State, t: nat, upTo: nat, ok: bool)
    requires Can(s, Out(t, upTo, ok)) && LockOk(s) && FlushOk(s)
    ensures FlushOk(DoOut(s, t, upTo, ok))
  {
    var s' := DoOut(s, t, upTo, ok);
    assert Flushing(s', t);
    forall u | Flushing(s', u) && s'.active[u].flush.ok && s'.out < |s'.buffer|
      ensures exists v :: v != u && v in s'.active && Placed(s'.active[v])
    {
      assert u != t && Flushing(s, u);
      var v :| v != u && v in s.active && Placed(s.active[v]);
      assert v in s'.active && Placed(s'.active[v]);
    }
  }

  /** Whoever ends a flush or a send finds or leaves the buffer empty, unless the writer has failed. */
  lemma EndKeepsFlush(s: State, e: Event)
    requires Can(s, e) && LockOk(s) && FlushOk(s) && (e.Done? || e.Skip? || e.Abort?)
    ensures FlushOk(Do(s, e))
  {
    var s' := Do(s, e);
    assert s'.out == 0;
    assert !s'.failed ==> s'.buffer == [];
  }

  lemma StepKeepsFlush(s: State, e: Event)
    requires Can(s, e) && LockOk(s) && FlushOk(s)
    ensures FlushOk(Do(s, e))
  {
    if e.Acquire? || e.Barge? {
      StartKeepsFlush(s, e);
    } else if e.Take? || e.Newline? {
      ByteKeepsFlush(s, e);
    } else if e.Out? {
      OutKeepsFlush(s, e.t, e.upTo, e.ok);
    } else {
      EndKeepsFlush(s, e);
    }
  }

  // ----- A sender's own line -----

  /** How many bytes there are up to the end of a line. */
  function EndOf(lines: seq<string>, index: nat): nat {
    if index < |lines| then |BytesFrom(lines[..index + 1], 0)| else 0
  }

  /** A line with its newline in is among the bytes taken; with its own flush out, among those that went out. */
  ghost predicate DeliveredOk(s: State) {
    !s.torn && !s.overlap ==>
      && (forall t <- s.active | s.active[t].ended :: EndOf(s.begun, s.active[t].index) <= |s.taken|)
      && (forall t <- s.active | s.active[t].ended && s.active[t].flush == Under(true) ::
            EndOf(s.begun, s.active[t].index) <= |s.wire|)
  }

  lemma SameEnd(lines: seq<string>, longer: seq<string>, index: nat)
    requires lines <= longer && index < |lines|
    ensures EndOf(longer, index) == EndOf(lines, index)
  {
    assert longer[..index + 1] == lines[..index + 1];
  }

  lemma NewlineDelivers(s: State, t: nat)
    requires Can(s, Newline(t)) && LockOk(s) && InOrderOk(s) && DeliveredOk(s)
    ensures DeliveredOk(DoNewline(s, t))
  {
    if !s.torn {
      var p := s.active[t];
      assert SenderOk(p) && MidLine(s, t);
      assert Rest(p) == [Byte(p.index, p.pos)];
      assert s.begun[..p.index + 1] == s.begun;
    }
  }

  lemma TakeDelivers(s: State, t: nat, n: nat)
    requires Can(s, Take(t, n)) && LockOk(s) && PlacesOk(s) && DeliveredOk(s)
    ensures DeliveredOk(DoTake(s, t, n))
  {
    var s' := DoTake(s, t, n);
    forall u <- s.active | s.active[u].ended
      ensures EndOf(s'.begun, s.active[u].index) == EndOf(s.begun, s.active[u].index)
    {
      assert SenderOk(s.active[u]);
      SameEnd(s.begun, s'.begun, s.active[u].index);
    }
  }

  lemma OutDelivers(s: State, t: nat, upTo: nat, ok: bool)
    requires Can(s, Out(t, upTo, ok)) && DeliveredOk(s) && WireOk(DoOut(s, t, upTo, ok))
    ensures DeliveredOk(DoOut(s, t, upTo, ok))
  {
    var s' := DoOut(s, t, upTo, ok);
    if ok && !s'.overlap {
      assert Unsent(s') == [];
      assert s'.wire + [] == s'.wire;
    }
  }

  lemma StepDelivers(s: State, e: Event)
    requires Can(s, e) && LockOk(s) && PlacesOk(s) && InOrderOk(s) && DeliveredOk(s) && WireOk(Do(s, e))
    ensures DeliveredOk(Do(s, e))
  {
    if e.Take? {
      TakeDelivers(s, e.t, e.n);
    } else if e.Newline? {
      NewlineDelivers(s, e.t);
    } else if e.Out? {
      OutDelivers(s, e.t, e.upTo, e.ok);
    } else {
      QuietDelivers(s, e);
    }
  }

  lemma QuietDelivers(s: State, e: Event)
    requires Can(s, e) && DeliveredOk(s) && !e.Take? && !e.Newline? && !e.Out?
    ensures DeliveredOk(Do(s, e))
  {
    var s' := Do(s, e);
    forall t <- s'.active | s'.active[t].ended
      ensures t in s.active && s.active[t].ended && s'.active[t] == s.active[t]
    {
    }
    SameDelivered(s, s');
  }

  /** Nobody new has ended a line or has its flush out. */
  lemma SameDelivered(s: State, s': State)
    requires DeliveredOk(s) && s'.begun == s.begun && s'.taken == s.taken && s'.wire == s.wire
    requires (s.torn ==> s'.torn) && (s.overlap ==> s'.overlap)
    requires forall t <- s'.active | s'.active[t].ended ::
               t in s.active && s.active[t].ended && s'.active[t].index == s.active[t].index &&
               (s'.active[t].flush == Under(true) ==> s.active[t].flush == Under(true))
    ensures DeliveredOk(s')
  {
  }

  // ----- Whole runs -----

  ghost predicate Inv(s: State) {
    LockOk(s) && PlacesOk(s) && TakenOk(s) && InOrderOk(s) && TornOk(s) && WireOk(s) && FlushOk(s) && DeliveredOk(s)
  }

  lemma StepKeepsInv(s: State, e: Event)
    requires Can(s, e) && Inv(s)
    ensures Inv(Do(s, e))
  {
    StepKeepsLock(s, e);
    StepKeepsPlaces(s, e);
    StepKeepsTaken(s, e);
    StepKeepsOrder(s, e);
    StepKeepsTorn(s, e);
    StepKeepsWire(s, e);
    StepKeepsFlush(s, e);
    StepDelivers(s, e);
  }

  lemma InitIsOk()
    ensures Inv(Init())
  {
  }

  lemma {:induction false} RunsKeepInv(evs: seq<Event>)
    requires Feasible(evs)
    ensures Inv(Run(evs))
    decreases |evs|
  {
    if evs == [] {
      InitIsOk();
    } else {
      RunsKeepInv(evs[..|evs| - 1]);
      StepKeepsInv(Run(evs[..|evs| - 1]), evs[|evs| - 1]);
    }
  }

  // ----- Main results -----

  lemma DoubledPart(a: seq<Byte>, b: seq<Byte>)
    requires !Distinct(a)
    ensures !Distinct(a + b)
  {
    var i, j :| 0 <= i < j < |a| && a[i] == a[j];
    assert (a + b)[i] == (a + b)[j];
  }

  lemma HarmIsVisible(s: State)
    requires WireOk(s) && TakenOk(s) && s.overlap
    ensures s.wire + Unsent(s) != s.taken
  {
    if Doubled(s) {
      DoubledPart(s.wire, Unsent(s));
    } else {
      var i: nat :| LostAt(s, i);
      assert s.taken[i] in s.taken;
      assert s.taken[i] !in s.wire + Unsent(s);
    }
  }

  lemma TearIsVisible(s: State)
    requires TornOk(s) && s.torn
    ensures !(s.taken <= BytesFrom(s.begun, 0))
  {
    var i: nat :| DiffersAt(s, i);
  }

  /** Exactly when framing holds, in every run. The bytes taken are whole lines in the order begun, the last perhaps
      unfinished, if and only if no byte of a line was taken while another line lacked its newline. And what went out
      followed by what still waits is exactly what was taken, if and only if no flush sent bytes that had gone out
      already or dropped bytes that had not. */
  lemma FramedIffNoTrouble(evs: seq<Event>)
    requires Feasible(evs)
    ensures var s := Run(evs);
            && (s.taken <= BytesFrom(s.begun, 0) <==> !s.torn)
            && (s.wire + Unsent(s) == s.taken <==> !s.overlap)
  {
    RunsKeepInv(evs);
    var s := Run(evs);
    if s.torn {
      TearIsVisible(s);
    } else {
      InOrder(s);
    }
    if s.overlap {
      HarmIsVisible(s);
    }
  }

  lemma PrefixText(lines: seq<string>, part: seq<Byte>, whole: seq<Byte>)
    requires part <= whole
    ensures Text(lines, part) <= Text(lines, whole)
  {
    TextAppend(lines, part, whole[|part|..]);
    assert part + whole[|part|..] == whole;
  }

  lemma WireIsPrefix(s: State)
    requires Inv(s) && !s.torn && !s.overlap
    ensures s.wire <= BytesFrom(s.begun, 0) && Text(s.begun, s.wire) <= Stream(s.begun)
  {
    InOrder(s);
    assert s.wire <= s.wire + Unsent(s);
    PrefixText(s.begun, s.wire, BytesFrom(s.begun, 0));
    TextOfLines(s.begun, 0);
    assert s.begun[0..] == s.begun;
  }

  lemma WholeLines(s: State)
    requires Inv(s) && !s.torn && !s.overlap
    ensures Read(Text(s.begun, s.wire)).1 <= s.begun
  {
    WireIsPrefix(s);
    PartialReadIsPrefix(s.begun, Text(s.begun, s.wire));
  }

  /** At any moment of a run without trouble, what a peer can read are whole payloads in the order begun, each once,
      whatever failed. */
  lemma WireCarriesWholeLines(evs: seq<Event>)
    requires Feasible(evs) && !Run(evs).torn && !Run(evs).overlap
    ensures Read(Text(Run(evs).begun, Run(evs).wire)).1 <= Run(evs).begun
  {
    RunsKeepInv(evs);
    WholeLines(Run(evs));
  }

  /** The event by which a send reports success to its caller. */
  predicate Succeeds(s: State, e: Event) {
    Can(s, e) && (e.Skip? || (e.Done? && s.active[e.t].ended && s.active[e.t].flush == Under(true)))
  }

  lemma {:induction false} EarlierLines(lines: seq<string>, m: nat)
    requires m <= |lines|
    ensures BytesFrom(lines[..m], 0) <= BytesFrom(lines, 0)
    decreases |lines|
  {
    if m < |lines| {
      var n := |lines| - 1;
      EarlierLines(lines[..n], m);
      assert lines[..n][..m] == lines[..m];
    } else {
      assert lines[..m] == lines;
    }
  }

  lemma LinesArrive(s: State, m: nat)
    requires Inv(s) && !s.torn && !s.overlap && m <= |s.begun| && |BytesFrom(s.begun[..m], 0)| <= |s.wire|
    ensures s.begun[..m] <= Read(Text(s.begun, s.wire)).1
  {
    var lines, text := s.begun[..m], Text(s.begun, s.wire);
    WireIsPrefix(s);
    EarlierLines(s.begun, m);
    BytesFromBelow(lines, 0);
    TextOfEarlier(s.begun, m, BytesFrom(lines, 0));
    TextOfLines(lines, 0);
    assert lines[0..] == lines;
    PrefixText(s.begun, BytesFrom(lines, 0), s.wire);
    ReadStream(lines);
    ReadGrows(text, |Stream(lines)|);
    assert text[..|Stream(lines)|] == Stream(lines);
  }

  /** In a run without trouble so far, a send that reports success has its own line, the one at the place it alone
      holds in the order begun, whole on the wire. */
  lemma SuccessMeansDelivered(evs: seq<Event>, e: Event)
    requires Feasible(evs) && Succeeds(Run(evs), e) && !Run(evs).torn && !Run(evs).overlap
    ensures var s := Run(evs);
            var p, lines := s.active[e.t], Read(Text(s.begun, s.wire)).1;
            && p.index < |s.begun| && s.begun[p.index] == p.payload
            && p.index < |lines| && lines[p.index] == p.payload
            && (forall u <- s.active | u != e.t && Placed(s.active[u]) :: s.active[u].index != p.index)
            && Do(s, e).wire == s.wire
  {
    RunsKeepInv(evs);
    SuccessReaches(Run(evs), e);
    LineArrives(Run(evs), Run(evs).active[e.t].index);
  }

  lemma SuccessReaches(s: State, e: Event)
    requires Inv(s) && Succeeds(s, e) && !s.torn && !s.overlap
    ensures var p := s.active[e.t];
            && Placed(p) && p.index < |s.begun| && s.begun[p.index] == p.payload
            && EndOf(s.begun, p.index) <= |s.wire|
            && Do(s, e).wire == s.wire
  {
    assert SenderOk(s.active[e.t]);
    if e.Skip? {
      assert Unsent(s) == [];
      assert s.wire + [] == s.wire;
    }
  }

  lemma LineArrives(s: State, index: nat)
    requires Inv(s) && !s.torn && !s.overlap && index < |s.begun| && EndOf(s.begun, index) <= |s.wire|
    ensures var lines := Read(Text(s.begun, s.wire)).1;
            index < |lines| && lines[index] == s.begun[index]
  {
    LinesArrive(s, index + 1);
    assert s.begun[..index + 1][index] == s.begun[index];
  }

  /** Trouble takes two senders with lines in progress, one of them without the mutex: the step that tears a line,
      sends bytes twice or drops them is never a matter of locked senders alone. */
  lemma TroubleNeedsUnlocked(evs: seq<Event>, e: Event)
    requires Feasible(evs) && Can(Run(evs), e)
    requires var s := Run(evs); (Do(s, e).torn && !s.torn) || (Do(s, e).overlap && !s.overlap)
    ensures var s := Run(evs);
            exists u <- s.active :: u != e.t && (!s.active[e.t].locked || !s.active[u].locked)
  {
    RunsKeepInv(evs);
    SomebodyElse(Run(evs), e);
    var s := Run(evs);
    var u :| u in s.active && u != e.t;
    assert !s.active[e.t].locked || !s.active[u].locked;
  }

  lemma SomebodyElse(s: State, e: Event)
    requires Can(s, e) && LockOk(s) && FlushOk(s)
    requires (Do(s, e).torn && !s.torn) || (Do(s, e).overlap && !s.overlap)
    ensures e.t in s.active && exists u :: u in s.active && u != e.t
  {
    if e.Take? {
      var u :| u != e.t && MidLine(s, u);
      assert u in s.active;
    } else if e.Out? {
      var u :| Flushing(s, u);
      assert u in s.active;
    } else {
      assert Flushing(s, e.t);
    }
  }
}
