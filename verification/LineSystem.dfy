/** Several goroutines writing lines through one session's buffered writer. `client.send` holds the session mutex from
    the first byte to the end of the flush; the welcome line is written without it (internal/tcp/server.go:128-132,
    223-244). A flush is two steps: the buffered bytes go out, and later the buffer is emptied; what happens to the
    writer in between is where an unlocked line does its harm. */
module LineSystem {
  import opened Channels
  import opened Lines

  /** Byte number `at` of line number `line`, its newline included. */
  datatype Byte = Byte(line: nat, at: nat)

  /** Whether a flush is under way: the bytes are out, the buffer is not emptied yet. */
  datatype Flush = Idle | Under(ok: bool)

  /** A goroutine inside one send. `pos` counts the payload bytes taken so far, `index` is the line's number once the
      first byte is taken, `ended` tells that the newline is taken too. */
  datatype Sender = Sender(payload: string, locked: bool, pos: nat, index: nat, ended: bool, flush: Flush)

  datatype State = State(
    taken: seq<Byte>,            // every byte the writer took
    buffer: seq<Byte>,           // those it still keeps
    out: nat,                    // how many bytes at the front of the buffer have gone out
    wire: seq<Byte>,             // every byte that went out
    failed: bool,                // the writer's sticky error
    holder: Option<nat>,         // owner of the session mutex
    active: map<nat, Sender>,
    begun: seq<string>,          // payloads of which some byte was taken, in order
    torn: bool,                  // a byte of a line was taken while another line was unfinished
    overlap: bool)               // a flush sent bytes that had gone out, or dropped bytes that had not

  datatype Event =
    | Acquire(t: nat, payload: string)
    | Barge(t: nat, payload: string)       // the welcome write: no lock
    | Take(t: nat, n: nat)                 // the next bytes of the payload go into the buffer
    | Newline(t: nat)
    | Out(t: nat, upTo: nat, ok: bool)     // a flush writes the buffer, or a part of it and fails
    | Done(t: nat)                         // and empties the buffer, or keeps the rest and the error
    | Skip(t: nat)                         // the last flush finds nothing to do
    | Abort(t: nat)                        // the writer has failed before

  function Init(): State {
    State([], [], 0, [], false, None, map[], [], false, false)
  }

  /** A JSON object on one line. */
  predicate Sendable(payload: string) {
    payload != "" && OneLine(payload)
  }

  predicate Can(s: State, e: Event) {
    if e.Acquire? then e.t !in s.active && s.holder == None && Sendable(e.payload)
    else if e.Barge? then e.t !in s.active && Sendable(e.payload)
    else
      e.t in s.active &&
      var p := s.active[e.t];
      if e.Done? then p.flush.Under?
      else
        p.flush == Idle &&
        if e.Take? then !s.failed && !p.ended && 0 < e.n && p.pos + e.n <= |p.payload|
        else if e.Newline? then !s.failed && !p.ended && p.pos == |p.payload|
        else if e.Out? then !s.failed && 0 < |s.buffer| && e.upTo <= |s.buffer| && (e.ok ==> e.upTo == |s.buffer|)
        else if e.Skip? then !s.failed && p.ended && s.buffer == []
        else s.failed
  }

  function Bytes(line: nat, from: nat, to: nat): seq<Byte>
    requires from <= to
  {
    seq(to - from, k requires 0 <= k < to - from => Byte(line, from + k))
  }

  /** The buffered bytes that have not gone out. */
  function Unsent(s: State): seq<Byte> {
    if s.out <= |s.buffer| then s.buffer[s.out..] else []
  }

  function Max(a: nat, b: nat): nat {
    if a < b then b else a
  }

  /** The send returns, giving the mutex back if it was taken. */
  function Return(s: State, t: nat): State
    requires t in s.active
  {
    s.(active := s.active - {t}, holder := if s.active[t].locked then None else s.holder)
  }

  predicate MidLine(s: State, t: nat) {
    t in s.active && s.active[t].pos > 0 && !s.active[t].ended
  }

  ghost predicate OthersMidLine(s: State, t: nat) {
    exists u :: u != t && MidLine(s, u)
  }

  function AfterTake(s: State, p: Sender, n: nat): Sender {
    p.(pos := p.pos + n, index := if p.pos == 0 then |s.begun| else p.index)
  }

  ghost function DoTake(s: State, t: nat, n: nat): State
    requires Can(s, Take(t, n))
  {
    var p := AfterTake(s, s.active[t], n);
    var more := Bytes(p.index, p.pos - n, p.pos);
    s.(taken := s.taken + more, buffer := s.buffer + more, active := s.active[t := p],
       begun := if s.active[t].pos == 0 then s.begun + [p.payload] else s.begun,
       torn := s.torn || OthersMidLine(s, t))
  }

  function DoNewline(s: State, t: nat): State
    requires Can(s, Newline(t))
  {
    var p := s.active[t];
    var b := Byte(p.index, p.pos);
    s.(taken := s.taken + [b], buffer := s.buffer + [b], active := s.active[t := p.(ended := true)])
  }

  function DoOut(s: State, t: nat, upTo: nat, ok: bool): State
    requires Can(s, Out(t, upTo, ok))
  {
    s.(wire := s.wire + s.buffer[..upTo], out := Max(s.out, upTo),
       active := s.active[t := s.active[t].(flush := Under(ok))],
       overlap := s.overlap || (s.out > 0 && upTo > 0))
  }

  /** A failed writer's buffer is never written again, so it is left as it is. */
  function DoDone(s: State, t: nat): State
    requires Can(s, Done(t))
  {
    var p := s.active[t];
    if p.flush.ok then
      var s1 := if s.failed then s else s.(buffer := [], out := 0, overlap := s.overlap || s.out < |s.buffer|);
      if p.ended then Return(s1, t) else s1.(active := s.active[t := p.(flush := Idle)])
    else Return(s.(failed := true, buffer := Unsent(s), out := 0), t)
  }

  ghost function Do(s: State, e: Event): State
    requires Can(s, e)
  {
    match e
    case Acquire(t, p) =>
      s.(active := s.active[t := Sender(p, true, 0, 0, false, Idle)], holder := Some(t))
    case Barge(t, p) => s.(active := s.active[t := Sender(p, false, 0, 0, false, Idle)])
    case Take(t, n) => DoTake(s, t, n)
    case Newline(t) => DoNewline(s, t)
    case Out(t, upTo, ok) => DoOut(s, t, upTo, ok)
    case Done(t) => DoDone(s, t)
    case Skip(t) => Return(s, t)
    case Abort(t) => Return(s, t)
  }

  ghost predicate Feasible(evs: seq<Event>)
    decreases |evs|, 0
  {
    evs == [] || (Feasible(evs[..|evs| - 1]) && Can(Run(evs[..|evs| - 1]), evs[|evs| - 1]))
  }

  ghost function Run(evs: seq<Event>): State
    requires Feasible(evs)
    decreases |evs|, 1
  {
    if evs == [] then Init() else Do(Run(evs[..|evs| - 1]), evs[|evs| - 1])
  }

  // ----- Bytes and text -----

  /** All bytes of the lines from number `k` on, in order. */
  function BytesFrom(lines: seq<string>, k: nat): seq<Byte> {
    if |lines| <= k then []
    else
      var n := |lines| - 1;
      BytesFrom(lines[..n], k) + Bytes(n, 0, |lines[n]| + 1)
  }

  function CharOf(lines: seq<string>, b: Byte): char {
    if b.line < |lines| && b.at < |lines[b.line]| then lines[b.line][b.at] else NEWLINE
  }

  function Text(lines: seq<string>, bytes: seq<Byte>): string {
    seq(|bytes|, i requires 0 <= i < |bytes| => CharOf(lines, bytes[i]))
  }

  lemma TextAppend(lines: seq<string>, a: seq<Byte>, b: seq<Byte>)
    ensures Text(lines, a + b) == Text(lines, a) + Text(lines, b)
  {
  }

  predicate Below(bytes: seq<Byte>, n: nat) {
    forall i | 0 <= i < |bytes| :: bytes[i].line < n
  }

  lemma TextOfEarlier(lines: seq<string>, n: nat, bytes: seq<Byte>)
    requires n <= |lines| && Below(bytes, n)
    ensures Text(lines, bytes) == Text(lines[..n], bytes)
  {
  }

  lemma TextOfLine(lines: seq<string>, n: nat)
    requires n < |lines|
    ensures Text(lines, Bytes(n, 0, |lines[n]| + 1)) == Line(lines[n])
  {
  }

  lemma {:induction false} BytesFromBelow(lines: seq<string>, k: nat)
    ensures Below(BytesFrom(lines, k), |lines|)
  {
    if |lines| > k {
      BytesFromBelow(lines[..|lines| - 1], k);
    }
  }

  /** The bytes of whole lines read as those lines. */
  lemma {:induction false} TextOfLines(lines: seq<string>, k: nat)
    requires k <= |lines|
    ensures Text(lines, BytesFrom(lines, k)) == Stream(lines[k..])
  {
    if |lines| > k {
      var n := |lines| - 1;
      TextOfLines(lines[..n], k);
      BytesFromBelow(lines[..n], k);
      TextOfEarlier(lines, n, BytesFrom(lines[..n], k));
      TextOfLine(lines, n);
      TextAppend(lines, BytesFrom(lines[..n], k), Bytes(n, 0, |lines[n]| + 1));
      LastLine(lines, k);
    }
  }

  lemma LastLine(lines: seq<string>, k: nat)
    requires k < |lines|
    ensures Stream(lines[k..]) == Stream(lines[..|lines| - 1][k..]) + Line(lines[|lines| - 1])
  {
    assert lines[k..][..|lines| - k - 1] == lines[..|lines| - 1][k..];
  }

  lemma BytesFromAppend(lines: seq<string>, p: string, k: nat)
    requires k <= |lines|
    ensures BytesFrom(lines + [p], k) == BytesFrom(lines, k) + Bytes(|lines|, 0, |p| + 1)
  {
    assert (lines + [p])[..|lines|] == lines;
  }

  lemma BytesSplit(line: nat, from: nat, mid: nat, to: nat)
    requires from <= mid <= to
    ensures Bytes(line, from, mid) + Bytes(line, mid, to) == Bytes(line, from, to)
  {
  }

  lemma {:induction false} BytesFromIsDistinct(lines: seq<string>, k: nat)
    ensures Distinct(BytesFrom(lines, k))
  {
    if |lines| > k {
      BytesFromIsDistinct(lines[..|lines| - 1], k);
      BytesFromBelow(lines[..|lines| - 1], k);
    }
  }

  predicate Distinct<T(==)>(xs: seq<T>) {
    forall i, j | 0 <= i < j < |xs| :: xs[i] != xs[j]
  }
}
