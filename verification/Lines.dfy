/** Newline-framed output through one buffered writer per TCP session (internal/tcp/server.go:223-244). */
module Lines {
  const NEWLINE: char := '\n'

  function Line(payload: string): string {
    payload + [NEWLINE]
  }

  function Stream(payloads: seq<string>): string {
    if payloads == [] then [] else Stream(payloads[..|payloads| - 1]) + Line(payloads[|payloads| - 1])
  }

  /** What a reader that splits at newlines has: the complete lines and the unfinished rest. */
  function Read(bytes: string): (string, seq<string>) {
    if bytes == [] then ([], [])
    else
      var (rest, lines) := Read(bytes[..|bytes| - 1]);
      var b := bytes[|bytes| - 1];
      if b == NEWLINE then ([], lines + [rest]) else (rest + [b], lines)
  }

  predicate OneLine(payload: string) {
    NEWLINE !in payload
  }

  predicate OneLiners(payloads: seq<string>) {
    forall i | 0 <= i < |payloads| :: OneLine(payloads[i])
  }

  lemma {:induction false} ReadExtends(bytes: string, payload: string)
    requires OneLine(payload)
    ensures Read(bytes + payload) == (Read(bytes).0 + payload, Read(bytes).1)
  {
    if payload == [] {
      assert bytes + payload == bytes;
      assert Read(bytes).0 + payload == Read(bytes).0;
    } else {
      var k := |payload| - 1;
      ReadExtends(bytes, payload[..k]);
      assert payload == payload[..k] + [payload[k]] && payload[k] in payload;
      assert (bytes + payload)[..|bytes + payload| - 1] == bytes + payload[..k];
      assert Read(bytes).0 + payload == Read(bytes).0 + payload[..k] + [payload[k]];
    }
  }

  /** Reading back what was framed gives the payloads. */
  lemma {:induction false} ReadStream(payloads: seq<string>)
    requires OneLiners(payloads)
    ensures Read(Stream(payloads)) == ([], payloads)
  {
    if payloads != [] {
      var n := |payloads| - 1;
      var before := Stream(payloads[..n]);
      ReadStream(payloads[..n]);
      ReadLine(before, payloads[n], payloads[..n]);
      assert payloads[..n] + [payloads[n]] == payloads;
    }
  }

  /** Whatever the bytes: the complete lines and the rest put together are the bytes again, and neither holds a newline;
      so there is only one way to read. */
  lemma {:induction false} ReadLosesNothing(bytes: string)
    ensures Stream(Read(bytes).1) + Read(bytes).0 == bytes
    ensures OneLiners(Read(bytes).1) && '\n' !in Read(bytes).0
  {
    if bytes != [] {
      var n := |bytes| - 1;
      var (rest, lines) := Read(bytes[..n]);
      ReadLosesNothing(bytes[..n]);
      assert bytes == bytes[..n] + [bytes[n]];
      if bytes[n] == NEWLINE {
        assert (lines + [rest])[..|lines|] == lines;
      }
    }
  }

  /** One whole line after whole lines. */
  lemma ReadLine(before: string, payload: string, lines: seq<string>)
    requires OneLine(payload) && Read(before) == ([], lines)
    ensures Read(before + Line(payload)) == ([], lines + [payload])
  {
    ReadExtends(before, payload);
    var all := before + Line(payload);
    assert all[..|all| - 1] == before + payload && all[|all| - 1] == NEWLINE;
    assert [] + payload == payload;
  }

  /** More bytes only add lines at the end. */
  lemma {:induction false} ReadGrows(bytes: string, k: nat)
    requires k <= |bytes|
    ensures Read(bytes[..k]).1 <= Read(bytes).1
    decreases |bytes|
  {
    if k < |bytes| {
      var n := |bytes| - 1;
      ReadGrows(bytes[..n], k);
      assert bytes[..n][..k] == bytes[..k];
    } else {
      assert bytes[..k] == bytes;
    }
  }

  /** A reader of any part of a framed stream sees whole payloads, in order, none twice. */
  lemma PartialReadIsPrefix(payloads: seq<string>, part: string)
    requires OneLiners(payloads) && part <= Stream(payloads)
    ensures Read(part).1 <= payloads
  {
    ReadStream(payloads);
    ReadGrows(Stream(payloads), |part|);
    assert Stream(payloads)[..|part|] == part;
  }

  /** The writer object: what has gone out, what is buffered, and the sticky error. */
  class LineWriter {
    var wire: string
    var buffered: string
    var failed: bool

    function Written(): string
      reads this
    {
      wire + buffered
    }

    constructor ()
      ensures Written() == [] && !failed
    {
      wire, buffered, failed := [], [], false;
    }

    /** Takes the bytes, spilling some of them when the buffer is full; an error keeps a prefix and sticks. */
    method Put(bytes: string) returns (ok: bool)
      modifies this
      ensures old(failed) ==> !ok && Written() == old(Written())
      ensures ok ==> Written() == old(Written()) + bytes
      ensures exists k | 0 <= k <= |bytes| :: Written() == old(Written()) + bytes[..k]
      ensures failed == !ok && old(wire) <= wire
    {
      if failed {
        assert bytes[..0] == [];
        return false;
      }
      var accepted :| 0 <= accepted <= |bytes|;
      var all := buffered + bytes[..accepted];
      var spilled :| 0 <= spilled <= |all|;
      wire, buffered := wire + all[..spilled], all[spilled..];
      assert Written() == old(Written()) + bytes[..accepted];
      assert accepted == |bytes| ==> bytes[..accepted] == bytes;
      failed := accepted < |bytes|;
      ok := !failed;
    }

    method Flush() returns (ok: bool)
      modifies this
      ensures Written() == old(Written()) && failed == !ok && old(wire) <= wire
      ensures old(failed) ==> !ok
      ensures ok ==> buffered == []
    {
      if failed {
        return false;
      }
      var sent :| 0 <= sent <= |buffered|;
      wire, buffered := wire + buffered[..sent], buffered[sent..];
      ok := buffered == [];
      failed := !ok;
    }

    /** Success means the whole line is out; failure leaves at most a prefix of it and refuses all later lines. */
    method WriteLine(payload: string) returns (ok: bool)
      modifies this
      ensures old(failed) ==> !ok && Written() == old(Written())
      ensures ok ==> Written() == old(Written()) + payload + "\n" && buffered == []
      ensures exists k | 0 <= k <= |payload| + 1 :: Written() == old(Written()) + Line(payload)[..k]
      ensures failed == !ok
    {
      ok := Put(payload);
      ghost var k :| 0 <= k <= |payload| && Written() == old(Written()) + payload[..k];
      assert payload[..k] == Line(payload)[..k];
      if ok {
        assert payload == Line(payload)[..|payload|];
        ok := Put([NEWLINE]);
        ghost var j :| 0 <= j <= 1 && Written() == old(Written()) + payload + [NEWLINE][..j];
        assert payload + [NEWLINE][..j] == Line(payload)[..|payload| + j];
        if ok {
          ok := Flush();
        }
      }
    }
  }
}
