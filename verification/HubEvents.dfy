/** The hub's runs told by their events alone: where every stored row comes from, and where every frame does. */
module HubEvents {
  import opened Channels
  import opened Hub
  import opened HubSystem
  import opened HubProofs

  lemma OneMoreEvent(evs: seq<Event>, e: Event, x: Event)
    ensures x in evs + [e] <==> x in evs || x == e
  {
  }

  // ----- Who is in which room -----

  /** `c` is known exactly if it has connected, and its room is the one it asked for. */
  ghost predicate ConnectOk(s: State, evs: seq<Event>, c: nat) {
    && (c in s.people ==> exists requested :: Connect(c, requested) in evs)
    && (forall requested | Connect(c, requested) in evs ::
          c in s.people && s.people[c].room == if requested == "" then "general" else requested)
  }

  lemma RoomIsKept(s: State, e: Event, c: nat)
    requires Can(s, e) && c in s.people
    ensures !e.Connect? || e.c != c
    ensures c in Do(s, e).people && Do(s, e).people[c].room == s.people[c].room
  {
    if c != e.c {
      StepFrame(s, e, c);
    }
  }

  lemma StepKeepsConnect(s: State, evs: seq<Event>, e: Event, c: nat)
    requires Can(s, e) && ConnectOk(s, evs, c)
    ensures ConnectOk(Do(s, e), evs + [e], c)
  {
    StepPeople(s, e);
    forall requested | Connect(c, requested) in evs + [e]
      ensures c in Do(s, e).people && Do(s, e).people[c].room == if requested == "" then "general" else requested
    {
      OneMoreEvent(evs, e, Connect(c, requested));
      if c in s.people {
        RoomIsKept(s, e, c);
      }
    }
    if c in s.people {
      var requested :| Connect(c, requested) in evs;
      OneMoreEvent(evs, e, Connect(c, requested));
    } else if e.Connect? && e.c == c {
      OneMoreEvent(evs, e, Connect(c, e.requested));
    }
  }

  /** A client is in the room its connect event asked for, and in general if it asked for none. */
  lemma {:induction false} RoomByEvents(evs: seq<Event>, c: nat)
    requires Feasible(evs)
    ensures ConnectOk(Run(evs), evs, c)
    decreases |evs|
  {
    if evs != [] {
      var before := evs[..|evs| - 1];
      RoomByEvents(before, c);
      StepKeepsConnect(Run(before), before, evs[|evs| - 1], c);
      assert evs == before + [evs[|evs| - 1]];
    }
  }

  // ----- Stored rows -----

  /** The chat lines whose insert worked, in order. */
  function Stored(evs: seq<Event>): seq<Event> {
    if evs == [] then []
    else
      var e := evs[|evs| - 1];
      Stored(evs[..|evs| - 1]) + if e.Post? && e.ok then [e] else []
  }

  /** The row is what its author typed, cut after a thousand characters. */
  predicate TypedAs(m: Msg, post: Event) {
    post.Post? && post.ok && post.text != "" && m.author == post.c &&
    m.text <= post.text && |m.text| == if |post.text| > 1000 then 1000 else |post.text|
  }

  lemma {:induction false} LogByEvents(evs: seq<Event>)
    requires Feasible(evs)
    ensures |Run(evs).log| == |Stored(evs)|
    ensures forall i | 0 <= i < |Stored(evs)| :: TypedAs(Run(evs).log[i], Stored(evs)[i])
    decreases |evs|
  {
    if evs != [] {
      LogByEvents(evs[..|evs| - 1]);
      StepTable(Run(evs[..|evs| - 1]), evs[|evs| - 1]);
    }
  }

  /** Row `i` is the `i`-th chat line whose insert worked: its author's, in the room the author connected to, with the
      first thousand characters of the text. */
  lemma StoredRowsByEvents(evs: seq<Event>, i: nat)
    requires Feasible(evs) && i < |Run(evs).log|
    ensures |Run(evs).log| == |Stored(evs)| && TypedAs(Run(evs).log[i], Stored(evs)[i])
    ensures exists requested :: Connect(Run(evs).log[i].author, requested) in evs
    ensures forall requested | Connect(Run(evs).log[i].author, requested) in evs ::
              Run(evs).log[i].room == if requested == "" then "general" else requested
  {
    LogByEvents(evs);
    RunsKeepInv(evs);
    assert CastOk(Run(evs), i);
    RoomByEvents(evs, Run(evs).log[i].author);
  }

  // ----- Frames -----

  /** The event behind a frame for somebody in `room`, and that it was about this room. */
  ghost predicate Caused(s: State, evs: seq<Event>, room: string, f: Frame) {
    match f
    case JoinNote(who) => StartJoinNote(who) in evs && who in s.people && s.people[who].room == room
    case LeaveNote(who) => Close(who) in evs && who in s.people && s.people[who].room == room
    case Chat(id) => id < |s.log| && s.log[id].room == room
    case History(id) => id < |s.log| && s.log[id].room == room
    case UnsavedChat(author, text) =>
      author in s.people && s.people[author].room == room && FailedPost(evs, author, text)
  }

  ghost predicate FailedPost(evs: seq<Event>, author: nat, text: string) {
    exists typed: string :: typed != "" && Post(author, typed, false) in evs &&
      text <= typed && |text| == if |typed| > 1000 then 1000 else |typed|
  }

  /** Everything offered to `c`, everything it is broadcasting and everything still to be replayed to it. */
  ghost predicate FramesOk(s: State, evs: seq<Event>, c: nat)
    requires c in s.people
  {
    var p := s.people[c];
    && (forall o <- p.chan.offers :: Caused(s, evs, p.room, o.item))
    && (p.phase.Announcing? || p.phase.Sending? ==> Caused(s, evs, p.room, p.phase.frame))
    && (p.phase.Replaying? ==> forall i <- p.phase.rest :: Caused(s, evs, p.room, History(i)))
  }

  lemma CausedStays(s: State, evs: seq<Event>, e: Event, room: string, f: Frame)
    requires Can(s, e) && Caused(s, evs, room, f)
    ensures Caused(Do(s, e), evs + [e], room, f)
  {
    StepTable(s, e);
    match f
    case JoinNote(who) => RoomIsKept(s, e, who);
    case LeaveNote(who) => RoomIsKept(s, e, who);
    case Chat(_) =>
    case History(_) =>
    case UnsavedChat(author, text) =>
      RoomIsKept(s, e, author);
      var typed: string :| typed != "" && Post(author, typed, false) in evs &&
        text <= typed && |text| == if |typed| > 1000 then 1000 else |typed|;
      OneMoreEvent(evs, e, Post(author, typed, false));
  }

  lemma OffersStayCaused(s: State, evs: seq<Event>, e: Event, room: string, offers: seq<Offer<Frame>>)
    requires Can(s, e) && forall o <- offers :: Caused(s, evs, room, o.item)
    ensures forall o <- offers :: Caused(Do(s, e), evs + [e], room, o.item)
  {
    forall o <- offers
      ensures Caused(Do(s, e), evs + [e], room, o.item)
    {
      CausedStays(s, evs, e, room, o.item);
    }
  }

  /** What a step newly offers is what the sender carries or the replay holds. */
  lemma NewOfferIsCaused(s: State, evs: seq<Event>, e: Event, d: nat, o: Offer<Frame>)
    requires Can(s, e) && TargetsOk(s) && d in s.people && FramesOk(s, evs, d)
    requires e.c in s.people ==> FramesOk(s, evs, e.c)
    requires o in NewOffers(s, e, d)
    ensures Caused(s, evs, s.people[d].room, o.item)
  {
    if e.Send? {
      assert InAt(s.people[e.t], s.people[e.c].room, s.people[e.c].phase.at);
    }
  }

  lemma OffersAreCaused(s: State, evs: seq<Event>, e: Event, d: nat)
    requires Can(s, e) && TargetsOk(s) && d in s.people && FramesOk(s, evs, d)
    requires e.c in s.people ==> FramesOk(s, evs, e.c)
    ensures d in Do(s, e).people && Do(s, e).people[d].room == s.people[d].room
    ensures forall o <- Do(s, e).people[d].chan.offers :: Caused(Do(s, e), evs + [e], s.people[d].room, o.item)
  {
    RoomIsKept(s, e, d);
    StepOffers(s, e, d);
    forall o <- NewOffers(s, e, d)
      ensures Caused(s, evs, s.people[d].room, o.item)
    {
      NewOfferIsCaused(s, evs, e, d, o);
    }
    OffersStayCaused(s, evs, e, s.people[d].room, s.people[d].chan.offers + NewOffers(s, e, d));
  }

  /** A frame somebody begins to broadcast. */
  lemma BegunIsCaused(s: State, evs: seq<Event>, e: Event)
    requires Can(s, e) && (e.StartJoinNote? || e.Close? || e.Post?)
    ensures Do(s, e).people[e.c].phase.Announcing?
    ensures Caused(Do(s, e), evs + [e], s.people[e.c].room, Do(s, e).people[e.c].phase.frame)
  {
    OneMoreEvent(evs, e, e);
    StepTable(s, e);
    if e.Post? && !e.ok {
      assert e == Post(e.c, e.text, false);
    }
  }

  lemma CarriedIsCaused(s: State, evs: seq<Event>, e: Event)
    requires Can(s, e) && e.c in s.people && FramesOk(s, evs, e.c)
    ensures var p' := Do(s, e).people[e.c];
            p'.phase.Announcing? || p'.phase.Sending? ==>
              Caused(Do(s, e), evs + [e], s.people[e.c].room, p'.phase.frame)
  {
    if e.StartJoinNote? || e.Close? || e.Post? {
      BegunIsCaused(s, evs, e);
    } else if s.people[e.c].phase.Announcing? || s.people[e.c].phase.Sending? {
      CausedStays(s, evs, e, s.people[e.c].room, s.people[e.c].phase.frame);
    }
  }

  lemma QueriedIsCaused(s: State, evs: seq<Event>, c: nat, ok: bool)
    requires Can(s, Query(c, ok))
    ensures var p' := Do(s, Query(c, ok)).people[c];
            p'.phase.Replaying? && forall i <- p'.phase.rest :: Caused(s, evs, s.people[c].room, History(i))
  {
  }

  lemma RestIsCaused(s: State, evs: seq<Event>, e: Event)
    requires Can(s, e) && e.c in s.people && Timely(e.c, s.people[e.c], s.now) && FramesOk(s, evs, e.c)
    ensures var p' := Do(s, e).people[e.c];
            p'.phase.Replaying? ==>
              forall i <- p'.phase.rest :: Caused(Do(s, e), evs + [e], s.people[e.c].room, History(i))
  {
    var p, p' := s.people[e.c], Do(s, e).people[e.c];
    if p'.phase.Replaying? {
      OwnCut(s, e);
      if e.Query? {
        QueriedIsCaused(s, evs, e.c, e.ok);
      }
      forall i <- p'.phase.rest
        ensures Caused(Do(s, e), evs + [e], p.room, History(i))
      {
        CausedStays(s, evs, e, p.room, History(i));
      }
    }
  }

  lemma OwnFramesStayOk(s: State, evs: seq<Event>, e: Event)
    requires Can(s, e) && TimesOk(s) && TargetsOk(s) && (e.c in s.people ==> FramesOk(s, evs, e.c))
    ensures FramesOk(Do(s, e), evs + [e], e.c)
  {
    if e.c in s.people {
      assert Timely(e.c, s.people[e.c], s.now);
      OffersAreCaused(s, evs, e, e.c);
      CarriedIsCaused(s, evs, e);
      RestIsCaused(s, evs, e);
    }
  }

  lemma OtherFramesStayOk(s: State, evs: seq<Event>, e: Event, d: nat)
    requires Can(s, e) && TargetsOk(s) && d in s.people && d != e.c && FramesOk(s, evs, d)
    requires e.c in s.people ==> FramesOk(s, evs, e.c)
    ensures d in Do(s, e).people && FramesOk(Do(s, e), evs + [e], d)
  {
    var p := s.people[d];
    StepFrame(s, e, d);
    OffersAreCaused(s, evs, e, d);
    if p.phase.Announcing? || p.phase.Sending? {
      CausedStays(s, evs, e, p.room, p.phase.frame);
    } else if p.phase.Replaying? {
      forall i <- p.phase.rest
        ensures Caused(Do(s, e), evs + [e], p.room, History(i))
      {
        CausedStays(s, evs, e, p.room, History(i));
      }
    }
  }

  ghost predicate AllFramesOk(s: State, evs: seq<Event>) {
    forall c <- s.people :: FramesOk(s, evs, c)
  }

  lemma StepKeepsFrames(s: State, evs: seq<Event>, e: Event)
    requires Can(s, e) && TimesOk(s) && TargetsOk(s) && AllFramesOk(s, evs)
    ensures AllFramesOk(Do(s, e), evs + [e])
  {
    StepPeople(s, e);
    forall c <- Do(s, e).people
      ensures FramesOk(Do(s, e), evs + [e], c)
    {
      if c == e.c {
        OwnFramesStayOk(s, evs, e);
      } else {
        OtherFramesStayOk(s, evs, e, c);
      }
    }
  }

  lemma LastKeepsFrames(s: State, evs: seq<Event>)
    requires evs != [] && Can(s, evs[|evs| - 1]) && AllFramesOk(s, evs[..|evs| - 1]) && TimesOk(s) && TargetsOk(s)
    ensures AllFramesOk(Do(s, evs[|evs| - 1]), evs)
  {
    StepKeepsFrames(s, evs[..|evs| - 1], evs[|evs| - 1]);
    assert evs == evs[..|evs| - 1] + [evs[|evs| - 1]];
  }

  lemma {:induction false} RunsKeepFrames(evs: seq<Event>)
    requires Feasible(evs)
    ensures AllFramesOk(Run(evs), evs)
    decreases |evs|
  {
    if evs != [] {
      RunsKeepFrames(evs[..|evs| - 1]);
      RunsKeepInv(evs[..|evs| - 1]);
      LastKeepsFrames(Run(evs[..|evs| - 1]), evs);
    }
  }

  lemma {:induction false} AcceptedIsOffered<T>(offers: seq<Offer<T>>, cap: nat)
    ensures forall x <- Accepted(offers, cap) :: exists o <- offers :: o.item == x
  {
    if offers != [] {
      var n := |offers| - 1;
      AcceptedIsOffered(offers[..n], cap);
      forall x <- Accepted(offers, cap)
        ensures exists o <- offers :: o.item == x
      {
        if x in Accepted(offers[..n], cap) {
          var o :| o in offers[..n] && o.item == x;
        } else {
          assert offers[n] in offers;
        }
      }
    }
  }

  /** Nothing is made up and nothing crosses rooms: whatever a client was sent or still waits for has its event, and
      is about the client's own room. */
  lemma FramesHaveCauses(evs: seq<Event>, c: nat, f: Frame)
    requires Feasible(evs) && c in Run(evs).people
    requires f in Run(evs).people[c].chan.received + Run(evs).people[c].chan.queue
    ensures var s := Run(evs);
            var room := s.people[c].room;
            && (f.JoinNote? ==> StartJoinNote(f.who) in evs && f.who in s.people && s.people[f.who].room == room)
            && (f.LeaveNote? ==> Close(f.who) in evs && f.who in s.people && s.people[f.who].room == room)
            && (f.Chat? || f.History? ==> f.id < |s.log| && s.log[f.id].room == room)
            && (f.UnsavedChat? ==>
                  f.author in s.people && s.people[f.author].room == room && FailedPost(evs, f.author, f.text))
  {
    RunsKeepInv(evs);
    RunsKeepFrames(evs);
    var s := Run(evs);
    var ch := s.people[c].chan;
    assert QueueOk(c, s.people[c]) && FramesOk(s, evs, c);
    AcceptedIsOffered(ch.offers, ch.cap);
    assert Caused(s, evs, s.people[c].room, f);
  }
}
