/** The TCP server's session table, its message handling and its broadcast, as objects
    (internal/tcp/server.go:19-36, 73-84, 122-182, 200-227). */
module TcpServer {
  import opened Channels
  import opened Broker
  import opened Lines
  import opened TcpSystem

  class TcpSession {
    const id: nat
    const user: string
    const writer: LineWriter

    constructor (id: nat, user: string)
      ensures this.id == id && this.user == user && fresh(writer) && writer.Written() == [] && !writer.failed
    {
      this.id, this.user := id, user;
      writer := new LineWriter();
    }

    /** Runs under the session mutex. */
    method Send(payload: string) returns (ok: bool)
      modifies writer
      ensures Delivered(payload, old(writer.Written()), old(writer.failed), writer.Written(), writer.failed)
      ensures ok == !writer.failed
    {
      ok := writer.WriteLine(payload);
    }
  }

  /** What one send may do to a session's output: the whole line, or a prefix of it and a failure that sticks. */
  ghost predicate Delivered(payload: string, before: string, wasFailed: bool, after: string, failed: bool) {
    && (wasFailed ==> failed && after == before)
    && (!failed ==> after == before + Line(payload))
    && (failed ==> exists k | 0 <= k <= |payload| + 1 :: after == before + Line(payload)[..k])
  }

  /** One line read from a client, decoded. A chapter that is no number is read as 0. */
  datatype Incoming = Blank | Garbled | Ping | Report(manga: string, chapter: real) | Other

  datatype Reply = Refused(reason: string) | Pong(stamp: int) | Ack(manga: string, chapter: int)

  /** Conversion of a float64 to int: towards zero. */
  function Truncate(r: real): (n: int)
    ensures r >= 0.0 ==> n as real <= r < n as real + 1.0
    ensures r < 0.0 ==> n as real - 1.0 < r <= n as real
  {
    if r >= 0.0 then r.Floor else -(-r).Floor
  }

  class Server {
    const progress: Topic<Update>
    const encode: Reply -> string
    var clients: map<nat, TcpSession>

    ghost predicate Valid()
      reads this
    {
      && (forall id <- clients :: clients[id].id == id)
      && (forall a <- clients, b <- clients | a != b :: clients[a].writer != clients[b].writer)
    }

    constructor (progress: Topic<Update>, encode: Reply -> string)
      ensures Valid() && clients == map[] && this.progress == progress && this.encode == encode
    {
      this.progress, this.encode := progress, encode;
      clients := map[];
    }

    method Register(c: TcpSession)
      requires Valid() && c.id !in clients && forall id <- clients :: clients[id].writer != c.writer
      modifies this
      ensures Valid() && clients == old(clients)[c.id := c]
    {
      clients := clients[c.id := c];
    }

    method Unregister(c: TcpSession)
      requires Valid()
      modifies this
      ensures Valid() && clients == old(clients) - {c.id}
    {
      clients := clients - {c.id};
    }

    method Stop()
      modifies this
      ensures Valid() && clients == map[]
    {
      clients := map[];
    }

    /** A progress report is published and acknowledged; nothing is stored. */
    method HandleProgress(c: TcpSession, manga: string, chapter: real, stamp: int)
      requires progress.Valid()
      modifies c.writer, progress.subs`buf
      ensures progress.Valid()
      ensures forall ch <- progress.subs ::
                ch.buf == if manga == "" then old(ch.buf)
                          else Pushed(old(ch.buf), 64, Update(c.user, manga, Truncate(chapter), stamp))
      ensures Delivered(encode(if manga == "" then Refused("manga_id required") else Ack(manga, Truncate(chapter))),
                        old(c.writer.Written()), old(c.writer.failed), c.writer.Written(), c.writer.failed)
    {
      if manga == "" {
        var _ := c.Send(encode(Refused("manga_id required")));
        return;
      }
      var upd := Update(c.user, manga, Truncate(chapter), stamp);
      progress.Publish(upd);
      var _ := c.Send(encode(Ack(manga, upd.chapter)));
    }

    /** One turn of a connection's read loop. Each line but a blank one is answered with one line, on this session
        only; published is exactly a report that names a manga, under the session's own user. */
    method HandleLine(c: TcpSession, msg: Incoming, stamp: int)
      requires progress.Valid()
      modifies c.writer, progress.subs`buf
      ensures progress.Valid()
      ensures msg == Blank ==> c.writer.Written() == old(c.writer.Written()) && c.writer.failed == old(c.writer.failed)
      ensures msg != Blank ==>
                Delivered(encode(if msg == Garbled then Refused("invalid json")
                                 else if msg == Ping then Pong(stamp)
                                 else if msg == Other then Refused("unknown message type")
                                 else if msg.manga == "" then Refused("manga_id required")
                                 else Ack(msg.manga, Truncate(msg.chapter))),
                          old(c.writer.Written()), old(c.writer.failed), c.writer.Written(), c.writer.failed)
      ensures forall ch <- progress.subs ::
                ch.buf == if msg.Report? && msg.manga != ""
                          then Pushed(old(ch.buf), 64, Update(c.user, msg.manga, Truncate(msg.chapter), stamp))
                          else old(ch.buf)
    {
      match msg
      case Blank =>
      case Garbled =>
        var _ := c.Send(encode(Refused("invalid json")));
      case Ping =>
        var _ := c.Send(encode(Pong(stamp)));
      case Report(manga, chapter) =>
        HandleProgress(c, manga, chapter, stamp);
      case Other =>
        var _ := c.Send(encode(Refused("unknown message type")));
    }

    /** The snapshot: the sessions of one user. */
    method SessionsOf(user: string) returns (targets: set<TcpSession>)
      requires Valid()
      ensures forall c :: c in targets <==> c.id in clients && clients[c.id] == c && c.user == user
    {
      targets := {};
      var ids := clients.Keys;
      while ids != {}
        invariant ids <= clients.Keys
        invariant forall c :: c in targets <==>
                    c.id in clients.Keys - ids && clients[c.id] == c && c.user == user
      {
        var id :| id in ids;
        if clients[id].user == user {
          targets := targets + {clients[id]};
        }
        ids := ids - {id};
      }
    }

    method SendAll(targets: set<TcpSession>, payload: string)
      requires forall a, b | a in targets && b in targets && a != b :: a.writer != b.writer
      modifies set c | c in targets :: c.writer
      ensures forall c <- targets ::
                Delivered(payload, old(c.writer.Written()), old(c.writer.failed), c.writer.Written(), c.writer.failed)
    {
      var remaining := targets;
      while remaining != {}
        invariant remaining <= targets
        invariant forall c <- remaining ::
                    c.writer.Written() == old(c.writer.Written()) && c.writer.failed == old(c.writer.failed)
        invariant forall c <- targets - remaining ::
                    Delivered(payload, old(c.writer.Written()), old(c.writer.failed),
                              c.writer.Written(), c.writer.failed)
      {
        var c :| c in remaining;
        var _ := c.Send(payload);
        remaining := remaining - {c};
      }
    }

    /** Every session of the update's user is sent the payload once; no other session's output changes, and one
        failing session does not stop the rest. */
    method BroadcastProgress(upd: Update, payload: string)
      requires Valid()
      modifies set id | id in clients && clients[id].user == upd.user :: clients[id].writer
      ensures forall id <- clients :: var w := clients[id].writer;
                if clients[id].user == upd.user
                then Delivered(payload, old(w.Written()), old(w.failed), w.Written(), w.failed)
                else w.Written() == old(w.Written()) && w.failed == old(w.failed)
    {
      var targets := SessionsOf(upd.user);
      SendAll(targets, payload);
    }
  }
}
