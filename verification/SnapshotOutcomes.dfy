/**
 What the steps of the snapshot protocol bring about: who becomes ready, when a broadcast has targets and
 a new revision, and that a client that says hello, and one that is ready, are served.
 */
module SnapshotOutcomes {
  import opened Wrappers
  import opened Snapshots

  /** A step of a run. */
  ghost predicate Steps(events: seq<Event>, w: World, e: Event, w': World) {
    Run(events) == Some(w) && Enabled(w, e) && Run(events + [e]) == Some(w')
  }

  lemma StepIs(events: seq<Event>, w: World, e: Event, w': World)
    requires Steps(events, w, e, w')
    ensures Inv(w) && w' == Apply(w, e)
  {
    hide Inv, Enabled, Apply;
    RunKeeps(events);
    assert (events + [e])[..|events|] == events;
  }

  /**
   A broadcast begins with the next revision exactly if somebody is ready and the server is not closing, and
   then for exactly those that are ready; otherwise nobody is sent anything and the revision stays.
   */
  lemma BroadcastOutcome(events: seq<Event>, w: World, w': World)
    requires Steps(events, w, BroadcastBegins, w')
    ensures w'.queued + 1 == w.queued
    ensures var some := exists c :: c in w.connections && w.connections[c].IsReady();
            if some && !w.closing
            then w'.revision == w.revision + 1 && w'.broadcast.Some? && w'.broadcast.value.BroadcastLists?
                 && w'.connections == w.connections
                 && forall c :: c in w'.broadcast.value.targets <==> c in w.connections && w.connections[c].IsReady()
            else w'.revision == w.revision && w'.broadcast == None
  {
    StepIs(events, w, BroadcastBegins, w');
    hide Inv, Steps, MarkMissed;
    if c :| c in w.connections && w.connections[c].IsReady() { assert c in ReadySet(w); }
    if c :| c in ReadySet(w) { assert c in w.connections && w.connections[c].IsReady(); }
  }

  /** A target of a broadcast that can be reached is sent the current revision; the others are left alone. */
  lemma SendOutcome(events: seq<Event>, w: World, c: ConnectionId, w': World)
    requires Steps(events, w, BroadcastSend(c), w')
    ensures c in w.connections && w'.connections.Keys == w.connections.Keys
    ensures exists s: Snapshot ::
              && s.revision == w.revision
              && w'.connections[c].sent == w.connections[c].sent + (if w.connections[c].Open() then [s] else [])
    ensures forall d :: d in w.connections && d != c ==> w'.connections[d] == w.connections[d]
  {
    StepIs(events, w, BroadcastSend(c), w');
    var s := w.broadcast.value.snapshot;
    assert s.revision == w.revision;
    assert w'.connections[c].sent == w.connections[c].sent + (if w.connections[c].Open() then [s] else []);
    hide Inv, Steps, Apply, Enabled;
  }

  /**
   A hello is answered exactly if the connection can still be reached and is still shaking hands, and
   first of all.
   */
  lemma HelloOutcome(events: seq<Event>, w: World, c: ConnectionId, w': World)
    requires Steps(events, w, HandshakeSends(c), w')
    ensures c in w.connections && c in w'.connections && w.connections[c].handshake.Listed?
    ensures var k, k' := w.connections[c], w'.connections[c];
            if !w.closing && k.stage == Handshaking && k.Open()
            then k'.sent == [k.handshake.snapshot] && k'.handshake == SendingHello(k.handshake.snapshot)
            else k'.sent == [] && k'.handshake == Finished
  {
    StepIs(events, w, HandshakeSends(c), w');
    assert Good(c, w.connections[c], w);
    hide Inv, Steps, Good;
    assert Shaped(w.connections[c], w.revision, w.version);
  }

  /**
   Once its hello has gone out a connection is ready exactly if it is still there and shaking hands; it then
   fetches again exactly if a broadcast has raised the revision since.
   */
  lemma ReadyOutcome(events: seq<Event>, w: World, c: ConnectionId, ok: bool, w': World)
    requires Steps(events, w, HelloReturns(c, ok), w')
    ensures c in w.connections && c in w'.connections && w.connections[c].handshake.SendingHello?
    ensures var k, k' := w.connections[c], w'.connections[c];
            && k'.sent == k.sent
            && (k'.IsReady() && k.stage != Ready <==> ok && k.stage == Handshaking && !k.disconnected)
            && (k'.handshake == Refetching(w.revision) <==>
                  ok && k.stage == Handshaking && !k.disconnected && k.handshake.snapshot.revision < w.revision)
            && (!ok ==> k'.closed && k'.disconnected)
  {
    StepIs(events, w, HelloReturns(c, ok), w');
    assert Good(c, w.connections[c], w);
    assert Shaped(w.connections[c], w.revision, w.version);
    hide Inv, Steps, Good;
  }

  /** What a connection fetched again is sent to it if it can still be reached. */
  lemma RefetchOutcome(events: seq<Event>, w: World, c: ConnectionId, w': World)
    requires Steps(events, w, RefetchSends(c), w')
    ensures c in w.connections && c in w'.connections && w.connections[c].handshake.Refetched?
    ensures var k, k' := w.connections[c], w'.connections[c];
            && k'.sent == k.sent + (if k.Open() then [k.handshake.snapshot] else [])
            && k'.stage == k.stage && k'.handshake == Finished
  {
    StepIs(events, w, RefetchSends(c), w');
    hide Inv, Steps;
  }

  // ---------------------------------------------------------------------------
  // A client is served
  // ---------------------------------------------------------------------------

  /** A client that says hello becomes ready, and has what the publisher shows at that time. */
  lemma HelloServes(events: seq<Event>, w: World, c: ConnectionId)
    requires Run(events) == Some(w) && !w.closing && c !in w.connections
    ensures var script := [Accepts(c), HelloArrives(c), HandshakeLists(c), HandshakeSends(c), HelloReturns(c, true)];
            && Run(events + script).Some?
            && var w' := Run(events + script).value;
               && c in w'.connections && w'.connections[c].IsReady() && w'.connections[c].handshake == Finished
               && Stored(w'.connections[c].sent) == Some(Snapshot(w.revision, w.version))
               && w'.revision == w.revision && w'.version == w.version
  {
    hide Run, Apply, Enabled, Stored;
    StoredOne(Snapshot(w.revision, w.version));
    Lists(events, w, c);
    Answers(events + [Accepts(c)] + [HelloArrives(c)] + [HandshakeLists(c)], w, c);
    InOneGo(events, Accepts(c), HelloArrives(c), HandshakeLists(c), HandshakeSends(c), HelloReturns(c, true));
  }

  /** A connection in its handshake whose first snapshot is complete. */
  function Asking(w: World): Connection {
    Connection(Handshaking, false, false, Listed(Snapshot(w.revision, w.version)), [], false, false)
  }

  lemma Lists(events: seq<Event>, w: World, c: ConnectionId)
    requires Run(events) == Some(w) && !w.closing && c !in w.connections
    ensures Run(events + [Accepts(c)] + [HelloArrives(c)] + [HandshakeLists(c)]) == Some(With(w, c, Asking(w)))
  {
    hide Run;
    var k1 := Connection(AwaitingHello, false, false, NotStarted, [], false, false);
    var k2 := k1.(stage := Handshaking, handshake := Listing(w.revision));
    Goes(events, w, Accepts(c), With(w, c, k1));
    Takes(events + [Accepts(c)], w, c, k1, HelloArrives(c), k2);
    Takes(events + [Accepts(c)] + [HelloArrives(c)], w, c, k2, HandshakeLists(c), Asking(w));
  }

  lemma Answers(events: seq<Event>, w: World, c: ConnectionId)
    requires Run(events) == Some(With(w, c, Asking(w))) && !w.closing
    ensures Run(events + [HandshakeSends(c)] + [HelloReturns(c, true)]) ==
            Some(With(w, c, Connection(Ready, false, false, Finished, [Snapshot(w.revision, w.version)], false, false)))
  {
    hide Run;
    var s := Snapshot(w.revision, w.version);
    var k4 := Asking(w).(sent := [s], handshake := SendingHello(s));
    assert Asking(w).sent + [s] == [s];
    Takes(events, w, c, Asking(w), HandshakeSends(c), k4);
    Takes(events + [HandshakeSends(c)], w, c, k4, HelloReturns(c, true), k4.(stage := Ready, handshake := Finished));
  }

  function With(w: World, c: ConnectionId, k: Connection): World { w.(connections := w.connections[c := k]) }

  /** One step of a run that changes one connection. */
  lemma Takes(events: seq<Event>, w: World, c: ConnectionId, k: Connection, e: Event, k': Connection)
    requires Run(events) == Some(With(w, c, k)) && Enabled(With(w, c, k), e)
    requires Apply(With(w, c, k), e) == With(With(w, c, k), c, k')
    ensures Run(events + [e]) == Some(With(w, c, k'))
  {
    assert w.connections[c := k][c := k'] == w.connections[c := k'];
    Goes(events, With(w, c, k), e, With(w, c, k'));
    hide Enabled, Apply, Run;
  }

  lemma InOneGo(events: seq<Event>, e1: Event, e2: Event, e3: Event, e4: Event, e5: Event)
    ensures events + [e1] + [e2] + [e3] + [e4] + [e5] == events + [e1, e2, e3, e4, e5]
  {
  }

  /** A ready client that can be reached is sent the current content by the next broadcast, under a new revision. */
  lemma BroadcastServes(events: seq<Event>, w: World, c: ConnectionId)
    requires Run(events) == Some(w) && !w.closing && w.broadcast == None
    requires c in w.connections && w.connections[c].IsReady() && w.connections[c].Open()
    ensures var script := [Requests, BroadcastBegins, BroadcastListed, BroadcastSend(c)];
            && Run(events + script).Some?
            && var w' := Run(events + script).value;
               && c in w'.connections && w'.revision == w.revision + 1 && w'.announced == w.version
               && w'.connections[c].sent == w.connections[c].sent + [Snapshot(w.revision + 1, w.version)]
               && Stored(w'.connections[c].sent) == Some(Snapshot(w.revision + 1, w.version))
  {
    var k, s := w.connections[c], Snapshot(w.revision + 1, w.version);
    assert c in ReadySet(w);
    var w1 := w.(announced := w.version, queued := w.queued + 1);
    var w2 := w1.(queued := w.queued, revision := w.revision + 1,
                  broadcast := Some(BroadcastLists(w.revision + 1, ReadySet(w))));
    var w3 := w2.(broadcast := Some(BroadcastSends(s, ReadySet(w))));
    assert ReadySet(w1) == ReadySet(w) && w1.queued - 1 == w.queued;
    RunKeeps(events);
    assert Good(c, k, w);
    SendStores(k, s, w.revision + 1, w.version);
    hide Run, Stored, Good, Inv, ReadySet;
    Goes(events, w, Requests, w1);
    Goes(events + [Requests], w1, BroadcastBegins, w2);
    Goes(events + [Requests] + [BroadcastBegins], w2, BroadcastListed, w3);
    Goes(events + [Requests] + [BroadcastBegins] + [BroadcastListed], w3, BroadcastSend(c),
        Apply(w3, BroadcastSend(c)));
    assert events + [Requests] + [BroadcastBegins] + [BroadcastListed] + [BroadcastSend(c)] ==
           events + [Requests, BroadcastBegins, BroadcastListed, BroadcastSend(c)];
  }
}
