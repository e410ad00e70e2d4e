/** Buffered channels: the value a step system keeps for one, and the object the servers share. */
module Channels {

  datatype Option<+T> = None | Some(value: T)

  /** One non-blocking send attempt: the item, and how many items were waiting at that moment. */
  datatype Offer<T> = Offer(item: T, pending: nat)

  /** A channel together with everything that was ever tried on it. */
  datatype Chan<T> = Chan(cap: nat, queue: seq<T>, closed: bool, offers: seq<Offer<T>>, received: seq<T>)

  function Make<T>(cap: nat): Chan<T> {
    Chan(cap, [], false, [], [])
  }

  /** What a buffer of capacity `cap` holds after a send that does not wait. */
  function Pushed<T>(queue: seq<T>, cap: nat, x: T): seq<T> {
    if |queue| < cap then queue + [x] else queue
  }

  function TrySend<T>(ch: Chan<T>, x: T): Chan<T> {
    ch.(queue := Pushed(ch.queue, ch.cap, x), offers := ch.offers + [Offer(x, |ch.queue|)])
  }

  function Receive<T>(ch: Chan<T>): Chan<T>
    requires ch.queue != []
  {
    ch.(queue := ch.queue[1..], received := ch.received + [ch.queue[0]])
  }

  /** One order in which a loop may range over a set: each element once. */
  ghost predicate RangesOver(order: seq<nat>, targets: set<nat>) {
    (forall i, j | 0 <= i < j < |order| :: order[i] != order[j]) && forall c :: c in order <==> c in targets
  }

  lemma RangesOverRest(order: seq<nat>, targets: set<nat>)
    requires RangesOver(order, targets) && order != []
    ensures order[0] in targets && order[0] !in order[1..] && RangesOver(order[1..], targets - {order[0]})
    ensures forall c :: c in order <==> c == order[0] || c in order[1..]
  {
    assert order == [order[0]] + order[1..];
    assert order[0] in order;
  }

  function Items<T>(offers: seq<Offer<T>>): seq<T> {
    seq(|offers|, i requires 0 <= i < |offers| => offers[i].item)
  }

  /** The items of those offers that found room. */
  function Accepted<T>(offers: seq<Offer<T>>, cap: nat): seq<T> {
    if offers == [] then []
    else
      var n := |offers| - 1;
      Accepted(offers[..n], cap) + if offers[n].pending < cap then [offers[n].item] else []
  }

  /** The items of those offers that found the buffer full. */
  function Dropped<T>(offers: seq<Offer<T>>, cap: nat): seq<T> {
    if offers == [] then []
    else
      var n := |offers| - 1;
      Dropped(offers[..n], cap) + if offers[n].pending < cap then [] else [offers[n].item]
  }

  /** Nothing is lost, duplicated or reordered between acceptance and receipt. */
  ghost predicate Conserved<T>(ch: Chan<T>) {
    && |ch.queue| <= ch.cap
    && (forall o <- ch.offers :: o.pending <= ch.cap)
    && Accepted(ch.offers, ch.cap) == ch.received + ch.queue
  }

  lemma TrySendConserves<T>(ch: Chan<T>, x: T)
    requires Conserved(ch)
    ensures Conserved(TrySend(ch, x))
  {
    assert (ch.offers + [Offer(x, |ch.queue|)])[..|ch.offers|] == ch.offers;
  }

  lemma ReceiveConserves<T>(ch: Chan<T>)
    requires Conserved(ch) && ch.queue != []
    ensures Conserved(Receive(ch))
  {
    assert ch.queue == [ch.queue[0]] + ch.queue[1..];
    assert ch.received + ch.queue == (ch.received + [ch.queue[0]]) + ch.queue[1..];
  }

  /** Each offer is either accepted or dropped. */
  lemma {:induction false} OfferedIsAcceptedPlusDropped<T>(offers: seq<Offer<T>>, cap: nat)
    ensures multiset(Items(offers)) == multiset(Accepted(offers, cap)) + multiset(Dropped(offers, cap))
    ensures |offers| == |Accepted(offers, cap)| + |Dropped(offers, cap)|
  {
    if offers != [] {
      var n := |offers| - 1;
      OfferedIsAcceptedPlusDropped(offers[..n], cap);
      assert Items(offers) == Items(offers[..n]) + [offers[n].item];
    }
  }

  /** Drops happen exactly at offers that found the buffer full. */
  lemma {:induction false} DropsOnlyWhenFull<T>(offers: seq<Offer<T>>, cap: nat)
    ensures Dropped(offers, cap) == [] <==> forall i | 0 <= i < |offers| :: offers[i].pending < cap
  {
    if offers != [] {
      var n := |offers| - 1;
      DropsOnlyWhenFull(offers[..n], cap);
      assert forall i | 0 <= i < n :: offers[i] == offers[..n][i];
      if Dropped(offers[..n], cap) != [] {
        var i :| 0 <= i < n && offers[..n][i].pending >= cap;
        assert offers[i].pending >= cap;
      }
    }
  }

  /** A consumer that never lags by a whole buffer loses nothing: what arrives is what was offered. */
  lemma {:induction false} NoLagNoLoss<T>(offers: seq<Offer<T>>, cap: nat)
    requires Dropped(offers, cap) == []
    ensures Accepted(offers, cap) == Items(offers)
  {
    if offers != [] {
      var n := |offers| - 1;
      NoLagNoLoss(offers[..n], cap);
      assert Items(offers) == Items(offers[..n]) + [offers[n].item];
    }
  }

  /** The channel object a goroutine sends to and receives from. */
  class Channel<T> {
    const cap: nat
    var buf: seq<T>
    var closed: bool

    constructor (cap: nat)
      ensures this.cap == cap && buf == [] && !closed
    {
      this.cap := cap;
      buf, closed := [], false;
    }

    /** The select with a default branch; on a closed channel Go panics, so callers must rule that out. */
    method TrySend(x: T) returns (sent: bool)
      requires !closed
      modifies this`buf
      ensures sent == (|old(buf)| < cap)
      ensures buf == if sent then old(buf) + [x] else old(buf)
      ensures buf == Pushed(old(buf), cap, x)
    {
      sent := |buf| < cap;
      if sent {
        buf := buf + [x];
      }
    }

    /** Closing twice panics in Go. */
    method Close()
      requires !closed
      modifies this`closed
      ensures closed
    {
      closed := true;
    }
  }
}
