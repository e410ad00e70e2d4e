/** The chat hub of internal/websocket/hub.go as objects: rooms, clients, and the message table. */
module Hub {
  import opened Channels

  const SEND_CAPACITY: nat := 32
  const HISTORY_LIMIT: nat := 20
  const MAX_TEXT: nat := 1000

  /** A row of chat_messages; its id is its position in the table. */
  datatype Msg = Msg(room: string, author: nat, text: string)

  /** A frame put on a client's queue. Stored messages are named by their row. */
  datatype Frame =
    | History(id: nat)
    | JoinNote(who: nat)
    | LeaveNote(who: nat)
    | Chat(id: nat)
    | UnsavedChat(author: nat, text: string)

  // ----- Rooms -----

  function Members<T>(rooms: map<string, set<T>>, room: string): set<T> {
    if room in rooms then rooms[room] else {}
  }

  function Enter<T>(rooms: map<string, set<T>>, room: string, c: T): map<string, set<T>> {
    rooms[room := Members(rooms, room) + {c}]
  }

  function Exit<T>(rooms: map<string, set<T>>, room: string, c: T): map<string, set<T>> {
    if room !in rooms then rooms
    else if rooms[room] - {c} == {} then rooms - {room}
    else rooms[room := rooms[room] - {c}]
  }

  function RoomName(requested: string): string {
    if requested == "" then "general" else requested
  }

  // ----- The message table -----

  /** The rows of one room, oldest first. */
  function RoomIds(log: seq<Msg>, room: string): (ids: seq<nat>)
    ensures forall k | 0 <= k < |ids| :: ids[k] < |log| && log[ids[k]].room == room
    ensures forall j, k | 0 <= j < k < |ids| :: ids[j] < ids[k]
  {
    if log == [] then []
    else
      var n := |log| - 1;
      RoomIds(log[..n], room) + if log[n].room == room then [n] else []
  }

  /** No row of the room is left out. */
  lemma {:induction false} RoomIdsAreAll(log: seq<Msg>, room: string, i: nat)
    requires i < |log| && log[i].room == room
    ensures i in RoomIds(log, room)
  {
    if i < |log| - 1 {
      RoomIdsAreAll(log[..|log| - 1], room, i);
    }
  }

  function LastN<T>(xs: seq<T>, n: nat): seq<T> {
    if |xs| <= n then xs else xs[|xs| - n..]
  }

  function Recent(log: seq<Msg>, room: string, limit: nat): seq<nat> {
    LastN(RoomIds(log, room), limit)
  }

  /** What the query returns: rows of the room, newest id first, cut off after `limit`. */
  function NewestFirst(log: seq<Msg>, room: string, limit: nat): (ids: seq<nat>)
    ensures |ids| <= limit && forall k | 0 <= k < |ids| :: ids[k] < |log|
  {
    if log == [] || limit == 0 then []
    else
      var n := |log| - 1;
      if log[n].room == room then [n] + NewestFirst(log[..n], room, limit - 1)
      else NewestFirst(log[..n], room, limit)
  }

  function Reverse<T>(xs: seq<T>): seq<T> {
    seq(|xs|, i requires 0 <= i < |xs| => xs[|xs| - 1 - i])
  }

  /** A new row is the newest of its room, whatever the limit, and of no other. */
  lemma OneMoreRow(log: seq<Msg>, m: Msg)
    ensures forall room: string ::
              RoomIds(log + [m], room) == RoomIds(log, room) + if room == m.room then [|log|] else []
    ensures forall limit: nat | limit > 0 ::
              Recent(log + [m], m.room, limit) == Recent(log, m.room, limit - 1) + [|log|]
  {
    assert (log + [m])[..|log|] == log;
  }

  /** One more row: in front of the rows that come newest first, at the end of the last ones. */
  lemma TurnOne(older: seq<nat>, ids: seq<nat>, n: nat, limit: nat)
    requires limit > 0 && Reverse(older) == LastN(ids, limit - 1)
    ensures Reverse([n] + older) == LastN(ids + [n], limit)
  {
    assert Reverse([n] + older) == Reverse(older) + [n];
  }

  /** History refinement: turning the query's rows round gives the room's last rows in insertion order. */
  lemma {:induction false} QueryTurnedRound(log: seq<Msg>, room: string, limit: nat)
    ensures Reverse(NewestFirst(log, room, limit)) == Recent(log, room, limit)
  {
    if log != [] && limit > 0 {
      var n := |log| - 1;
      var ids := RoomIds(log[..n], room);
      if log[n].room == room {
        QueryTurnedRound(log[..n], room, limit - 1);
        TurnOne(NewestFirst(log[..n], room, limit - 1), ids, n, limit);
      } else {
        QueryTurnedRound(log[..n], room, limit);
        assert ids + [] == ids;
      }
    }
  }

  function Texts(log: seq<Msg>, ids: seq<nat>): seq<Msg>
    requires forall k | 0 <= k < |ids| :: ids[k] < |log|
  {
    seq(|ids|, k requires 0 <= k < |ids| => log[ids[k]])
  }

  // ----- Objects -----

  class Client {
    const id: nat
    const room: string
    const send: Channel<Frame>

    constructor (id: nat, requested: string)
      ensures this.id == id && room == (if requested == "" then "general" else requested)
      ensures fresh(send) && send.cap == 32 && send.buf == [] && !send.closed
    {
      this.id := id;
      room := RoomName(requested);
      send := new Channel(SEND_CAPACITY);
    }
  }

  class ChatHub {
    var rooms: map<string, set<Client>>
    var log: seq<Msg>

    /** The channels of everybody in some room. */
    ghost function Queues(): set<Channel<Frame>>
      reads this
    {
      set r, c | r in rooms && c in rooms[r] :: c.send
    }

    ghost predicate Valid()
      reads this, Queues()`closed
    {
      && (forall r <- rooms :: rooms[r] != {})
      && (forall r <- rooms, c <- rooms[r] :: c.room == r && !c.send.closed && c.send.cap == SEND_CAPACITY)
      && (forall r, q, c, d | r in rooms && q in rooms && c in rooms[r] && d in rooms[q] && c != d :: c.send != d.send)
    }

    constructor ()
      ensures Valid() && rooms == map[] && log == []
    {
      rooms, log := map[], [];
    }

    /** A failing insert is logged and otherwise ignored. A stored message becomes the newest of its room, whatever
        the limit, and no other room's history changes. */
    method SaveMessage(m: Msg, fails: bool)
      modifies this`log
      ensures log == if fails then old(log) else old(log) + [m]
      ensures !fails ==> RoomIds(log, m.room) == RoomIds(old(log), m.room) + [|old(log)|]
      ensures forall room: string | fails || room != m.room :: RoomIds(log, room) == RoomIds(old(log), room)
      ensures forall limit: nat | !fails && limit > 0 ::
                Recent(log, m.room, limit) == Recent(old(log), m.room, limit - 1) + [|old(log)|]
    {
      if !fails {
        OneMoreRow(log, m);
        log := log + [m];
      }
    }

    /** The rows come newest first; each is put in front of what was collected. */
    method RecentMessages(room: string, limit: nat) returns (ids: seq<nat>, out: seq<Msg>)
      ensures ids == Recent(log, room, limit)
      ensures |out| == |ids| && forall k | 0 <= k < |ids| :: ids[k] < |log| && out[k] == log[ids[k]]
    {
      var rows := NewestFirst(log, room, limit);
      ids, out := [], [];
      var i := 0;
      while i < |rows|
        invariant 0 <= i <= |rows| == |NewestFirst(log, room, limit)|
        invariant ids == Reverse(rows[..i])
        invariant forall k | 0 <= k < |ids| :: ids[k] < |log|
        invariant out == Texts(log, ids)
      {
        ids := [rows[i]] + ids;
        out := [log[rows[i]]] + out;
        i := i + 1;
      }
      assert rows[..i] == rows;
      QueryTurnedRound(log, room, limit);
    }

    /** The send loop over a snapshot of a room. */
    method SendAll(targets: set<Client>, b: Frame)
      requires forall c <- targets :: !c.send.closed && c.send.cap == SEND_CAPACITY
      requires forall c, d | c in targets && d in targets && c != d :: c.send != d.send
      modifies set c | c in targets :: c.send`buf
      ensures forall c <- targets :: c.send.buf == Pushed(old(c.send.buf), SEND_CAPACITY, b)
    {
      var remaining := targets;
      while remaining != {}
        invariant remaining <= targets
        invariant forall c <- targets - remaining :: c.send.buf == Pushed(old(c.send.buf), SEND_CAPACITY, b)
        invariant forall c <- remaining :: c.send.buf == old(c.send.buf)
      {
        var c :| c in remaining;
        var _ := c.send.TrySend(b);
        remaining := remaining - {c};
      }
    }

    /** One payload to everybody in the room, skipping full queues; nobody else is touched. */
    method BroadcastToRoom(room: string, b: Frame)
      requires Valid()
      modifies set c | c in Members(rooms, room) :: c.send`buf
      ensures Valid()
      ensures room in rooms ==> forall c <- rooms[room] ::
                c.send.buf == if |old(c.send.buf)| < 32 then old(c.send.buf) + [b] else old(c.send.buf)
      ensures forall c <- Members(rooms, room) :: c.send.buf == Pushed(old(c.send.buf), SEND_CAPACITY, b)
    {
      SendAll(Members(rooms, room), b);
    }

    /** The locked section of join. */
    method Register(c: Client)
      requires Valid() && c.send !in Queues() && !c.send.closed && c.send.cap == SEND_CAPACITY
      modifies this`rooms
      ensures Valid() && rooms == Enter(old(rooms), c.room, c)
      ensures Members(rooms, c.room) == Members(old(rooms), c.room) + {c}
    {
      assert forall r <- rooms, d <- rooms[r] :: d.send in Queues();
      rooms := Enter(rooms, c.room, c);
    }

    /** The locked section of leave: afterwards no room knows the client's queue. */
    method Unregister(c: Client)
      requires Valid() && c in Members(rooms, c.room)
      modifies this`rooms
      ensures Valid() && rooms == Exit(old(rooms), c.room, c)
      ensures Members(rooms, c.room) == Members(old(rooms), c.room) - {c}
      ensures c.send !in Queues()
    {
      rooms := Exit(rooms, c.room, c);
      assert forall r <- rooms :: r in old(rooms) && rooms[r] <= old(rooms)[r] && c !in rooms[r];
    }

    method Replay(c: Client)
      requires !c.send.closed && c.send.cap == SEND_CAPACITY && c.send.buf == []
      modifies c.send`buf
      ensures |c.send.buf| == |Recent(log, c.room, 20)|
      ensures forall k | 0 <= k < |c.send.buf| :: c.send.buf[k] == History(Recent(log, c.room, 20)[k])
    {
      var ids, _ := RecentMessages(c.room, HISTORY_LIMIT);
      var i := 0;
      while i < |ids|
        invariant 0 <= i <= |ids| <= HISTORY_LIMIT
        invariant |c.send.buf| == i && forall k | 0 <= k < i :: c.send.buf[k] == History(ids[k])
      {
        var _ := c.send.TrySend(History(ids[i]));
        i := i + 1;
      }
    }

    /** Register, then replay the room's last messages to the newcomer alone. */
    method Admit(c: Client)
      requires Valid() && c.send !in Queues() && !c.send.closed && c.send.cap == SEND_CAPACITY && c.send.buf == []
      modifies this`rooms, c.send`buf
      ensures Valid() && rooms == Enter(old(rooms), c.room, c)
      ensures Members(rooms, c.room) == Members(old(rooms), c.room) + {c}
      ensures |c.send.buf| == |Recent(log, c.room, 20)|
      ensures forall k | 0 <= k < |c.send.buf| :: c.send.buf[k] == History(Recent(log, c.room, 20)[k])
      ensures forall d <- Members(old(rooms), c.room) :: d.send != c.send
    {
      assert forall d <- Members(rooms, c.room) :: d.send in Queues();
      Register(c);
      Replay(c);
    }

    /** Admit a client, then announce it to the room, itself included. */
    method Join(c: Client)
      requires Valid() && c.send !in Queues() && !c.send.closed && c.send.cap == SEND_CAPACITY && c.send.buf == []
      modifies this`rooms, c.send`buf, set d | d in Members(rooms, c.room) :: d.send`buf
      ensures Valid() && rooms == Enter(old(rooms), c.room, c)
      ensures |c.send.buf| == |Recent(log, c.room, 20)| + 1
      ensures forall k | 0 <= k < |c.send.buf| - 1 :: c.send.buf[k] == History(Recent(log, c.room, 20)[k])
      ensures c.send.buf[|c.send.buf| - 1] == JoinNote(c.id)
      ensures forall d <- Members(old(rooms), c.room) :: d.send.buf == Pushed(old(d.send.buf), 32, JoinNote(c.id))
    {
      Admit(c);
      BroadcastToRoom(c.room, JoinNote(c.id));
    }

    /** Out of the room, queue closed. */
    method Withdraw(c: Client)
      requires Valid() && c in Members(rooms, c.room)
      modifies this`rooms, c.send`closed
      ensures Valid() && rooms == Exit(old(rooms), c.room, c) && c.send.closed
      ensures Members(rooms, c.room) == Members(old(rooms), c.room) - {c}
      ensures forall d <- Members(rooms, c.room) :: d.send != c.send
    {
      Unregister(c);
      assert forall d <- Members(rooms, c.room) :: d.send in Queues();
      c.send.Close();
    }

    /** Leave the room, close the queue, tell those who stayed. */
    method Leave(c: Client)
      requires Valid() && c in Members(rooms, c.room)
      modifies this`rooms, c.send`closed, set d | d in Members(rooms, c.room) :: d.send`buf
      ensures Valid() && rooms == Exit(old(rooms), c.room, c)
      ensures c.send.closed && c.send.buf == old(c.send.buf)
      ensures forall d <- Members(old(rooms), c.room) - {c} ::
                d.send.buf == Pushed(old(d.send.buf), 32, LeaveNote(c.id))
    {
      Withdraw(c);
      BroadcastToRoom(c.room, LeaveNote(c.id));
    }

    /** One chat line read from a client: stored first, then sent round the room it was typed in, even when the
        insert failed. */
    method Say(c: Client, text: string, fails: bool)
      requires Valid() && c in Members(rooms, c.room)
      modifies this`log, set d | d in Members(rooms, c.room) :: d.send`buf
      ensures Valid()
      ensures text == "" || fails ==> log == old(log)
      ensures text != "" && !fails ==>
                log == old(log) + [Msg(c.room, c.id, if |text| > 1000 then text[..1000] else text)]
      ensures forall d <- Members(rooms, c.room) ::
                d.send.buf == if text == "" then old(d.send.buf)
                              else if !fails then Pushed(old(d.send.buf), 32, Chat(|old(log)|))
                              else Pushed(old(d.send.buf), 32,
                                          UnsavedChat(c.id, if |text| > 1000 then text[..1000] else text))
    {
      if text != "" {
        var m := Msg(c.room, c.id, Truncated(text));
        var frame := if fails then UnsavedChat(m.author, m.text) else Chat(|log|);
        SaveMessage(m, fails);
        BroadcastToRoom(m.room, frame);
      }
    }
  }

  /** The beginning of a text, all of it up to a thousand characters. */
  function Truncated(text: string): (kept: string)
    ensures kept <= text && |kept| == if |text| > 1000 then 1000 else |text|
  {
    if |text| > MAX_TEXT then text[..MAX_TEXT] else text
  }
}
