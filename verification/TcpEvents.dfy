/** The fan-out's runs told by their events alone: which updates reach a session between its connect event and now. */
module TcpEvents {
  import opened TcpSystem

  lemma OneMoreEvent(evs: seq<Event>, e: Event, x: Event)
    ensures x in evs + [e] <==> x in evs || x == e
  {
  }

  /** The updates taken from the channel, in order. */
  function Taken(evs: seq<Event>): seq<Update> {
    if evs == [] then []
    else
      var e := evs[|evs| - 1];
      Taken(evs[..|evs| - 1]) + if e.Take? then [e.upd] else []
  }

  /** How many of them have been sent round, or are being. */
  function Snapshots(evs: seq<Event>): nat {
    if evs == [] then 0 else Snapshots(evs[..|evs| - 1]) + if evs[|evs| - 1].Snapshot? then 1 else 0
  }

  lemma StepTakes(s: State, e: Event)
    requires Can(s, e)
    ensures Do(s, e).consumed == s.consumed + (if e.Take? then [e.upd] else [])
    ensures |Do(s, e).settled| == |s.settled| + if e.Snapshot? then 1 else 0
  {
  }

  lemma {:induction false} LoopByEvents(evs: seq<Event>)
    requires Feasible(evs)
    ensures Run(evs).consumed == Taken(evs) && |Run(evs).settled| == Snapshots(evs)
    decreases |evs|
  {
    if evs != [] {
      LoopByEvents(evs[..|evs| - 1]);
      StepTakes(Run(evs[..|evs| - 1]), evs[|evs| - 1]);
    }
  }

  lemma SettledByEvents(evs: seq<Event>)
    requires Feasible(evs)
    ensures Snapshots(evs) <= |Taken(evs)| && Run(evs).settled == Taken(evs)[..Snapshots(evs)]
  {
    RunsKeepInv(evs);
    LoopByEvents(evs);
  }

  lemma {:induction false} MorePassed(evs: seq<Event>, k: nat)
    requires k <= |evs|
    ensures Taken(evs[..k]) <= Taken(evs) && Snapshots(evs[..k]) <= Snapshots(evs)
    decreases |evs|
  {
    if k < |evs| {
      MorePassed(evs[..|evs| - 1], k);
      assert evs[..|evs| - 1][..k] == evs[..k];
    } else {
      assert evs[..k] == evs;
    }
  }

  lemma {:induction false} FeasiblePrefix(evs: seq<Event>, k: nat)
    requires Feasible(evs) && k <= |evs|
    ensures Feasible(evs[..k])
    decreases |evs|
  {
    if k < |evs| {
      FeasiblePrefix(evs[..|evs| - 1], k);
      assert evs[..|evs| - 1][..k] == evs[..k];
    } else {
      assert evs[..k] == evs;
    }
  }

  // ----- One session -----

  /** What the events since a session's connect event say of it. */
  ghost predicate Follows(s: State, since: seq<Event>, id: nat, user: string, base: nat) {
    && id in s.sessions && s.sessions[id].user == user && s.sessions[id].base == base
    && (s.sessions[id].live <==> Disconnect(id) !in since && Stop !in since)
    && (s.sessions[id].broken <==> OtherWrite(id, false) in since || SendTo(id, false) in since)
  }

  lemma StepFollows(s: State, since: seq<Event>, e: Event, id: nat, user: string, base: nat)
    requires Can(s, e) && Follows(s, since, id, user, base)
    ensures Follows(Do(s, e), since + [e], id, user, base)
  {
    OneMoreEvent(since, e, Disconnect(id));
    OneMoreEvent(since, e, Stop);
    OneMoreEvent(since, e, OtherWrite(id, false));
    OneMoreEvent(since, e, SendTo(id, false));
  }

  lemma ShorterRun(evs: seq<Event>, k: nat)
    requires k < |evs| - 1
    ensures evs[..|evs| - 1][..k] == evs[..k] && evs[..|evs| - 1][k] == evs[k]
    ensures evs[k + 1..] == evs[..|evs| - 1][k + 1..] + [evs[|evs| - 1]]
  {
  }

  lemma ConnectFollows(s: State, id: nat, user: string)
    requires Can(s, Connect(id, user))
    ensures Follows(Do(s, Connect(id, user)), [], id, user, |Mine(s.settled, user)|)
  {
  }

  /** A session belongs to the user of its connect event, counts from the updates settled then, is connected until its
      disconnect event or a stop, and works until one of its writes fails. */
  lemma {:induction false} SessionFollows(evs: seq<Event>, k: nat, id: nat, user: string)
    requires Feasible(evs) && k < |evs| && evs[k] == Connect(id, user)
    ensures Feasible(evs[..k]) && Follows(Run(evs), evs[k + 1..], id, user, |Mine(Run(evs[..k]).settled, user)|)
    decreases |evs|
  {
    FeasiblePrefix(evs, k);
    if k < |evs| - 1 {
      ShorterRun(evs, k);
      var before := evs[..|evs| - 1];
      SessionFollows(before, k, id, user);
      StepFollows(Run(before), before[k + 1..], evs[|evs| - 1], id, user, |Mine(Run(evs[..k]).settled, user)|);
    } else {
      ConnectFollows(Run(evs[..k]), id, user);
    }
  }

  // ----- Main result -----

  /** The updates of one user, part by part: these two facts say what they are. */
  lemma {:induction false} MineOfParts(a: seq<Update>, b: seq<Update>, u: Update, user: string)
    ensures Mine([u], user) == if u.user == user then [u] else []
    ensures Mine(a + b, user) == Mine(a, user) + Mine(b, user)
    decreases |b|
  {
    assert [u][..0] == [];
    if b == [] {
      assert a + b == a;
    } else {
      var n := |b| - 1;
      assert (a + b)[..|a| + n] == a + b[..n] && (a + b)[|a| + n] == b[n];
      MineOfParts(a, b[..n], u, user);
    }
  }

  lemma MineFrom(upds: seq<Update>, from: nat, user: string)
    requires from <= |upds|
    ensures |Mine(upds[..from], user)| <= |Mine(upds, user)|
    ensures Mine(upds, user)[|Mine(upds[..from], user)|..] == Mine(upds[from..], user)
  {
    assert upds == upds[..from] + upds[from..];
    MineOfParts(upds[..from], upds[from..], Update("", "", 0, 0), user);
  }

  lemma RunFromBase(c: Session, all: seq<Update>, due: seq<Update>)
    requires c.base + |c.frames| <= |all| && c.frames == all[c.base..c.base + |c.frames|] && all[c.base..] == due
    ensures c.frames <= due
    ensures c.base + |c.frames| == |all| ==> c.frames == due
  {
    assert forall i | 0 <= i < |c.frames| :: due[i] == all[c.base + i] && c.frames[i] == all[c.base + i];
  }

  /** The user's updates among those sent round between the connect event `k` and now. */
  function DueSince(evs: seq<Event>, k: nat, user: string): seq<Update>
    requires k <= |evs| && Snapshots(evs[..k]) <= Snapshots(evs) <= |Taken(evs)|
  {
    Mine(Taken(evs)[Snapshots(evs[..k])..Snapshots(evs)], user)
  }

  lemma TwoCuts<X>(all: seq<X>, part: seq<X>, m: nat, n: nat)
    requires m <= n <= |all| && m <= |part| && part <= all
    ensures all[..n][..m] == part[..m] && all[..n][m..] == all[m..n]
  {
  }

  lemma DueIsRest(evs: seq<Event>, k: nat, user: string)
    requires Feasible(evs) && k <= |evs| && Feasible(evs[..k])
    ensures Snapshots(evs[..k]) <= Snapshots(evs) <= |Taken(evs)|
    ensures |Mine(Run(evs[..k]).settled, user)| <= |Mine(Run(evs).settled, user)|
    ensures Mine(Run(evs).settled, user)[|Mine(Run(evs[..k]).settled, user)|..] == DueSince(evs, k, user)
  {
    SettledByEvents(evs);
    SettledByEvents(evs[..k]);
    MorePassed(evs, k);
    TwoCuts(Taken(evs), Taken(evs[..k]), Snapshots(evs[..k]), Snapshots(evs));
    MineFrom(Run(evs).settled, Snapshots(evs[..k]), user);
  }

  /** Delivery by events: what a session has been written is a beginning of its user's updates sent round since its
      connect event, in that order, and nothing else; all of them, but for one whose turn is still to come, if since
      then it neither disconnected nor was stopped and none of its writes failed. */
  lemma SessionByEvents(evs: seq<Event>, k: nat, id: nat, user: string)
    requires Feasible(evs) && k < |evs| && evs[k] == Connect(id, user)
    ensures id in Run(evs).sessions && Snapshots(evs[..k]) <= Snapshots(evs) <= |Taken(evs)|
    ensures Run(evs).sessions[id].user == user && Run(evs).sessions[id].frames <= DueSince(evs, k, user)
    ensures Disconnect(id) !in evs[k + 1..] && Stop !in evs[k + 1..] &&
            OtherWrite(id, false) !in evs[k + 1..] && SendTo(id, false) !in evs[k + 1..] && !Due(Run(evs), id) ==>
              Run(evs).sessions[id].frames == DueSince(evs, k, user)
  {
    SessionFollows(evs, k, id, user);
    RunsKeepInv(evs);
    assert RunOk(Run(evs), id);
    DueIsRest(evs, k, user);
    RunFromBase(Run(evs).sessions[id], Mine(Run(evs).settled, user), DueSince(evs, k, user));
  }
}
