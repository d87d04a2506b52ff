/**
 Server snapshots from the publisher to the clients: revision allocation and the serialized
 broadcast queue of the server, the handshake that may overlap them, and the client's filter on
 stale revisions. The content of a snapshot is the version of the listed data it shows.
 */
module Snapshots {
  import opened Wrappers

  type ConnectionId = nat

  datatype Snapshot = Snapshot(revision: nat, content: nat)

  // ---------------------------------------------------------------------------
  // The client's store
  // ---------------------------------------------------------------------------

  /** ClientState.applyServerSnapshot. */
  function Store(stored: Option<Snapshot>, s: Snapshot): Option<Snapshot> {
    if stored.Some? && s.revision < stored.value.revision then stored else Some(s)
  }

  /** The client's snapshot after a list of snapshots has arrived. */
  function Stored(arrived: seq<Snapshot>): Option<Snapshot> {
    if arrived == [] then None else Store(Stored(arrived[..|arrived| - 1]), arrived[|arrived| - 1])
  }

  /** However stale and fresh snapshots interleave, the client ends with the last one of the highest revision. */
  lemma {:induction false} StoredIsLatest(arrived: seq<Snapshot>) returns (at: nat)
    requires arrived != []
    ensures at < |arrived| && Stored(arrived) == Some(arrived[at])
    ensures forall i :: 0 <= i < |arrived| ==> arrived[i].revision <= arrived[at].revision
    ensures forall i :: at < i < |arrived| ==> arrived[i].revision < arrived[at].revision
  {
    var last := |arrived| - 1;
    if last == 0 || arrived[last].revision >= Stored(arrived[..last]).value.revision {
      if last > 0 {
        var _ := StoredIsLatest(arrived[..last]);
      }
      at := last;
    } else {
      at := StoredIsLatest(arrived[..last]);
    }
  }

  lemma StoredAppend(arrived: seq<Snapshot>, s: Snapshot)
    ensures Stored(arrived + [s]) == Store(Stored(arrived), s)
  {
    assert (arrived + [s])[..|arrived|] == arrived;
  }

  // ---------------------------------------------------------------------------
  // The protocol
  // ---------------------------------------------------------------------------

  datatype Stage = AwaitingHello | Handshaking | Ready | ClosingStage | ClosedStage

  /** Where finishHandshake waits. */
  datatype Handshake =
    | NotStarted
    | Listing(revision: nat)            // get() has read the revision and waits for the sessions
    | Listed(snapshot: Snapshot)        // get() waits for the models
    | SendingHello(snapshot: Snapshot)
    | Refetching(revision: nat)         // the second get(), waiting for the sessions
    | Refetched(snapshot: Snapshot)     // the second get(), waiting for the models
    | Finished

  /**
   One connection. `sent` is what was handed to its transport, hello first. `missed` records that a
   broadcast was skipped while the handshake held older content, and nothing was sent since the hello;
   `abandoned` that a service call threw during a broadcast to it, and no broadcast was sent to it since.
   */
  datatype Connection = Connection(
    stage: Stage, disconnected: bool, closed: bool, handshake: Handshake, sent: seq<Snapshot>, missed: bool,
    abandoned: bool)
  {
    predicate IsReady() { stage == Ready && !disconnected }
    predicate Open() { !disconnected && !closed }
  }

  datatype Broadcast =
    | BroadcastLists(revision: nat, targets: set<ConnectionId>)
    | BroadcastSends(snapshot: Snapshot, targets: set<ConnectionId>)

  /** `announced` is the latest version for which a broadcast was requested; `queued` counts waiting broadcasts. */
  datatype World = World(
    revision: nat, version: nat, announced: nat, queued: nat, broadcast: Option<Broadcast>,
    connections: map<ConnectionId, Connection>, closing: bool)

  const Init := World(0, 0, 0, 0, None, map[], false)

  datatype Event =
    | Changes
    | Requests
    | BroadcastBegins
    | BroadcastListed
    | BroadcastFails
    | BroadcastSend(c: ConnectionId)
    | BroadcastEnds
    | Accepts(c: ConnectionId)
    | HelloArrives(c: ConnectionId)
    | HandshakeLists(c: ConnectionId)
    | HandshakeSends(c: ConnectionId)
    | HelloReturns(c: ConnectionId, ok: bool)
    | RefetchLists(c: ConnectionId)
    | RefetchSends(c: ConnectionId)
    | Fails(c: ConnectionId)
    | TransportCloses(c: ConnectionId)
    | Disconnects(c: ConnectionId)
    | CloseBegins

  function ReadySet(w: World): set<ConnectionId> {
    set c | c in w.connections && w.connections[c].IsReady()
  }

  /** The snapshot a handshake is about to send as its hello. */
  function Hello(k: Connection): Option<Snapshot> {
    match k.handshake
    case Listed(s) => Some(s)
    case SendingHello(s) => Some(s)
    case _ => None
  }

  function MarkMissed(k: Connection, version: nat): Connection {
    if Hello(k).Some? && Hello(k).value.content < version then k.(missed := true) else k
  }

  /** sendMessage, for a snapshot that comes after the hello. */
  function Send(k: Connection, s: Snapshot): Connection {
    if k.Open() then k.(sent := k.sent + [s], missed := false) else k
  }

  predicate Enabled(w: World, e: Event) {
    match e
    case Changes => true
    case Requests => true
    case BroadcastBegins => w.broadcast == None && w.queued > 0
    case BroadcastListed => w.broadcast.Some? && w.broadcast.value.BroadcastLists?
    case BroadcastFails => w.broadcast.Some? && w.broadcast.value.BroadcastLists?
    case BroadcastSend(c) =>
      w.broadcast.Some? && w.broadcast.value.BroadcastSends? && c in w.broadcast.value.targets && c in w.connections
    case BroadcastEnds => w.broadcast.Some? && w.broadcast.value.BroadcastSends? && w.broadcast.value.targets == {}
    case Accepts(c) => c !in w.connections && !w.closing
    case HelloArrives(c) => c in w.connections && w.connections[c].stage == AwaitingHello
    case HandshakeLists(c) => c in w.connections && w.connections[c].handshake.Listing?
    case HandshakeSends(c) => c in w.connections && w.connections[c].handshake.Listed?
    case HelloReturns(c, _) => c in w.connections && w.connections[c].handshake.SendingHello?
    case RefetchLists(c) => c in w.connections && w.connections[c].handshake.Refetching?
    case RefetchSends(c) => c in w.connections && w.connections[c].handshake.Refetched?
    case Fails(c) => c in w.connections && !w.connections[c].disconnected
    case TransportCloses(c) => c in w.connections
    case Disconnects(c) => c in w.connections
    case CloseBegins => !w.closing
  }

  /** performBroadcast, up to its first await. */
  function Begin(w: World): World
    requires w.queued > 0
  {
    if ReadySet(w) == {} || w.closing then
      w.(queued := w.queued - 1, connections := map c | c in w.connections :: MarkMissed(w.connections[c], w.version))
    else
      w.(queued := w.queued - 1, revision := w.revision + 1,
          broadcast := Some(BroadcastLists(w.revision + 1, ReadySet(w))))
  }

  /** finishHandshake, after the hello has been sent. */
  function FinishHello(w: World, k: Connection, ok: bool): Connection
    requires k.handshake.SendingHello?
  {
    if !ok then k.(handshake := Finished, closed := true, disconnected := true, stage := ClosedStage)
    else if k.disconnected || k.stage != Handshaking then k.(handshake := Finished)
    else k.(stage := Ready,
        handshake := if k.handshake.snapshot.revision != w.revision then Refetching(w.revision) else Finished)
  }

  /** finishHandshake, after its first get() has returned. */
  function SendHello(w: World, k: Connection): Connection
    requires k.handshake.Listed?
  {
    if w.closing || k.stage != Handshaking || !k.Open() then k.(handshake := Finished)
    else k.(sent := k.sent + [k.handshake.snapshot], handshake := SendingHello(k.handshake.snapshot))
  }

  /** performBroadcast, when a service call throws: the revision stays raised and nothing is sent. */
  function Abandon(w: World): World
    requires w.broadcast.Some?
  {
    w.(broadcast := None,
       connections := map c | c in w.connections ::
         if c in w.broadcast.value.targets then w.connections[c].(abandoned := true) else w.connections[c])
  }

  /** One send of a broadcast. */
  function SendOne(k: Connection, s: Snapshot): Connection {
    Send(k, s).(abandoned := k.abandoned && !k.Open())
  }

  /** The steps that concern one connection. */
  function Move(w: World, e: Event): Connection
    requires Enabled(w, e) && (e.HelloArrives? || e.HandshakeLists? || e.HandshakeSends? || e.HelloReturns?
             || e.RefetchLists?
                               || e.RefetchSends? || e.Fails? || e.TransportCloses? || e.Disconnects?
                                  || e.BroadcastSend?)
  {
    var k := w.connections[e.c];
    match e
    case BroadcastSend(_) => SendOne(k, w.broadcast.value.snapshot)
    case HelloArrives(_) => k.(stage := Handshaking, handshake := Listing(w.revision))
    case HandshakeLists(_) => k.(handshake := Listed(Snapshot(k.handshake.revision, w.version)))
    case HandshakeSends(_) => SendHello(w, k)
    case HelloReturns(_, ok) => FinishHello(w, k, ok)
    case RefetchLists(_) => k.(handshake := Refetched(Snapshot(k.handshake.revision, w.version)))
    case RefetchSends(_) => Send(k, k.handshake.snapshot).(handshake := Finished)
    case Fails(_) => k.(stage := if k.stage == ClosedStage then ClosedStage else ClosingStage)
    case TransportCloses(_) => k.(closed := true)
    case Disconnects(_) => k.(disconnected := true, stage := ClosedStage)
  }

  function Apply(w: World, e: Event): World
    requires Enabled(w, e)
  {
    match e
    case Changes => w.(version := w.version + 1)
    case Requests => w.(announced := w.version, queued := w.queued + 1)
    case BroadcastBegins => Begin(w)
    case BroadcastListed =>
      w.(broadcast := Some(BroadcastSends(Snapshot(w.broadcast.value.revision, w.version), w.broadcast.value.targets)))
    case BroadcastFails => Abandon(w)
    case BroadcastSend(c) =>
      w.(connections := w.connections[c := Move(w, e)],
         broadcast := Some(w.broadcast.value.(targets := w.broadcast.value.targets - {c})))
    case BroadcastEnds => w.(broadcast := None)
    case Accepts(c) =>
      w.(connections := w.connections[c := Connection(AwaitingHello, false, false, NotStarted, [], false, false)])
    case CloseBegins => w.(closing := true)
    case _ => w.(connections := w.connections[e.c := Move(w, e)])
  }

  /** The state after a list of steps, if each of them was possible. */
  function Run(events: seq<Event>): Option<World> {
    if events == [] then Some(Init)
    else
      var before := Run(events[..|events| - 1]);
      var e := events[|events| - 1];
      if before.Some? && Enabled(before.value, e) then Some(Apply(before.value, e)) else None
  }

  // ---------------------------------------------------------------------------
  // Invariant
  // ---------------------------------------------------------------------------

  /** Revisions never run ahead of the publisher's, and the handshake fits the stage. */
  ghost predicate Shaped(k: Connection, revision: nat, version: nat) {
    && (forall i :: 0 <= i < |k.sent| ==> k.sent[i].revision <= revision && k.sent[i].content <= version)
    && (k.stage == AwaitingHello ==> k.handshake == NotStarted)
    && (k.stage == Ready ==> PastHello(k))
    && match k.handshake
       case NotStarted => k.sent == [] && !k.missed
       case Listing(r) => r <= revision && k.sent == [] && !k.missed
       case Listed(s) => s.revision <= revision && s.content <= version && k.sent == []
       case SendingHello(s) => s.revision <= revision && s.content <= version && k.sent == [s]
       case Refetching(r) => r <= revision && OnlyHelloUpTo(k.sent, r)
       case Refetched(s) =>
         s.revision <= revision && s.content <= version && OnlyHelloUpTo(k.sent, s.revision)
             && k.sent[0].content <= s.content
       case Finished => true
  }

  /** All that was sent after the hello is newer than the revision the second get() has read. */
  ghost predicate OnlyHelloUpTo(sent: seq<Snapshot>, revision: nat) {
    sent != [] && sent[0].revision < revision && forall i :: 0 < i < |sent| ==> revision < sent[i].revision
  }

  /** All that a connection was sent, and what a second get() may still bring, is older than the revision. */
  ghost predicate Lagging(k: Connection, revision: nat) {
    Targeted(k, revision) && forall i :: 0 <= i < |k.sent| ==> k.sent[i].revision < revision
  }

  /** A ready connection has the current revision or will be sent it, or the broadcast of it was abandoned. */
  ghost predicate CaughtUp(c: ConnectionId, k: Connection, revision: nat, broadcast: Option<Broadcast>) {
    || k.abandoned
    || (Stored(k.sent).Some? && Stored(k.sent).value.revision == revision)
    || (broadcast.Some? && c in broadcast.value.targets)
    || k.handshake == Refetching(revision)
    || (k.handshake.Refetched? && k.handshake.snapshot.revision == revision)
  }

  /**
   A ready connection has the current content, or will be sent it, or missed a broadcast or one of it was
   abandoned.
   */
  ghost predicate Informed(c: ConnectionId, k: Connection, w: World) {
    || k.abandoned || w.announced < w.version || w.queued > 0 || (k.missed && k.handshake.Finished?)
    || (Stored(k.sent).Some? && Stored(k.sent).value.content == w.version)
    || (w.broadcast.Some? && w.broadcast.value.BroadcastLists? && c in w.broadcast.value.targets)
    || (w.broadcast.Some? && w.broadcast.value.BroadcastSends? && c in w.broadcast.value.targets
        && w.broadcast.value.snapshot.content == w.version)
    || k.handshake == Refetching(w.revision)
    || k.handshake == Refetched(Snapshot(w.revision, w.version))
  }

  /** A handshake about to send a hello of the current revision has the current content, or missed a broadcast. */
  ghost predicate HelloInformed(k: Connection, w: World) {
    Hello(k).Some? && Hello(k).value.revision == w.revision ==>
      w.announced < w.version || w.queued > 0 || k.missed || Hello(k).value.content == w.version
  }

  /** A connection that missed a broadcast still has what its hello showed. */
  ghost predicate MissedIsStale(k: Connection, version: nat) {
    k.missed ==>
      && (k.sent == [] || (|k.sent| == 1 && k.sent[0].content < version))
      && (Hello(k).Some? ==> Hello(k).value.content < version)
      && (k.stage == Ready ==> k.sent != [])
  }

  ghost predicate Good(c: ConnectionId, k: Connection, w: World) {
    && Shaped(k, w.revision, w.version)
    && MissedIsStale(k, w.version)
    && (k.abandoned ==> Lagging(k, w.revision))
    && (!w.closing ==> HelloInformed(k, w))
    && (!w.closing && k.stage == Ready && k.Open() ==>
          CaughtUp(c, k, w.revision, w.broadcast) && Informed(c, k, w))
  }

  predicate PastHello(k: Connection) {
    k.handshake.Refetching? || k.handshake.Refetched? || k.handshake.Finished?
  }

  /** A broadcast of `revision` reaches a connection past its hello, and overtakes a second get() that is under way. */
  predicate Targeted(k: Connection, revision: nat) {
    match k.handshake
    case Refetching(r) => r < revision
    case Refetched(s) => s.revision < revision
    case _ => k.handshake.Finished?
  }

  ghost predicate Inv(w: World) {
    && w.announced <= w.version
    && (w.broadcast.Some? ==> forall c :: c in w.broadcast.value.targets ==>
       c in w.connections && Targeted(w.connections[c], w.revision))
    && (w.broadcast.Some? && w.broadcast.value.BroadcastLists? ==>
          && w.broadcast.value.revision == w.revision
          && forall c :: c in w.broadcast.value.targets && c in w.connections ==> Lagging(w.connections[c], w.revision))
    && (w.broadcast.Some? && w.broadcast.value.BroadcastSends? ==>
          && w.broadcast.value.snapshot.revision == w.revision && w.broadcast.value.snapshot.content <= w.version
          && (w.announced < w.version || w.queued > 0 || w.broadcast.value.snapshot.content == w.version))
    && (forall c :: c in w.connections ==> Good(c, w.connections[c], w))
  }

  // ---------------------------------------------------------------------------
  // Every step keeps it
  // ---------------------------------------------------------------------------

  /** Sending the current revision leaves the client with what was sent. */
  lemma SendStores(k: Connection, s: Snapshot, revision: nat, version: nat)
    requires Shaped(k, revision, version) && s.revision == revision && k.Open()
    ensures Stored(Send(k, s).sent) == Some(s)
  {
    StoredAppend(k.sent, s);
    if k.sent != [] { var _ := StoredIsLatest(k.sent); }
  }

  lemma StoredOne(s: Snapshot)
    ensures Stored([s]) == Some(s)
  {
    StoredAppend([], s);
  }

  lemma GlobalStep(w: World, e: Event)
    requires Inv(w) && Enabled(w, e)
             && (e.Changes? || e.Requests? || e.BroadcastListed? || e.BroadcastEnds? || e.CloseBegins?)
    ensures Inv(Apply(w, e))
  {
    hide Stored;
    forall c | c in w.connections ensures Good(c, w.connections[c], Apply(w, e)) {
      assert Good(c, w.connections[c], w);
    }
  }

  lemma BeginStep(w: World)
    requires Inv(w) && Enabled(w, BroadcastBegins)
    ensures Inv(Begin(w))
  {
    var w' := Begin(w);
    forall c | c in w.connections ensures Good(c, w'.connections[c], w') {
      assert Good(c, w.connections[c], w);
      if ReadySet(w) == {} || w.closing { SkipIsGood(w, c); } else { BumpIsGood(w, c); }
    }
    hide Good, Stored;
  }

  lemma SkipIsGood(w: World, c: ConnectionId)
    requires Inv(w) && Enabled(w, BroadcastBegins) && (ReadySet(w) == {} || w.closing) && c in w.connections
    ensures Good(c, MarkMissed(w.connections[c], w.version), Begin(w))
  {
    hide Stored;
    var k := w.connections[c];
    assert Good(c, k, w);
    assert k.IsReady() ==> c in ReadySet(w);
  }

  lemma BumpIsGood(w: World, c: ConnectionId)
    requires Inv(w) && Enabled(w, BroadcastBegins) && ReadySet(w) != {} && !w.closing && c in w.connections
    ensures Good(c, w.connections[c], Begin(w))
  {
    hide Stored;
    var k, w' := w.connections[c], Begin(w);
    assert Good(c, k, w);
    assert k.IsReady() ==> c in w'.broadcast.value.targets;
    assert Shaped(k, w.revision, w.version);
    assert Hello(k).Some? ==> Hello(k).value.revision <= w.revision;
    assert HelloInformed(k, w');
    assert Shaped(k, w'.revision, w'.version) && MissedIsStale(k, w'.version);
    hide Shaped, MissedIsStale, HelloInformed, ReadySet;
  }

  lemma AbandonStep(w: World)
    requires Inv(w) && Enabled(w, BroadcastFails)
    ensures Inv(Abandon(w))
  {
    var w' := Abandon(w);
    forall c | c in w.connections ensures Good(c, w'.connections[c], w') {
      assert Good(c, w.connections[c], w);
    }
    hide Good;
  }

  lemma BroadcastSendStep(w: World, c: ConnectionId)
    requires Inv(w) && Enabled(w, BroadcastSend(c))
    ensures Inv(Apply(w, BroadcastSend(c)))
  {
    var w' := Apply(w, BroadcastSend(c));
    forall d | d in w.connections ensures Good(d, w'.connections[d], w') {
      assert Good(d, w.connections[d], w);
      if d == c { SentIsGood(w, c); } else { UnsentIsGood(w, c, d); }
    }
    hide Good;
  }

  lemma SentIsGood(w: World, c: ConnectionId)
    requires Inv(w) && Enabled(w, BroadcastSend(c))
    ensures Good(c, SendOne(w.connections[c], w.broadcast.value.snapshot), Apply(w, BroadcastSend(c)))
  {
    hide Stored;
    var k := w.connections[c];
    assert Good(c, k, w) && Targeted(k, w.revision);
    if k.Open() {
      SendStores(k, w.broadcast.value.snapshot, w.revision, w.version);
      assert SendOne(k, w.broadcast.value.snapshot).sent == Send(k, w.broadcast.value.snapshot).sent;
    }
  }

  lemma UnsentIsGood(w: World, c: ConnectionId, d: ConnectionId)
    requires d in w.connections && Good(d, w.connections[d], w) && c != d && Enabled(w, BroadcastSend(c))
    ensures Good(d, w.connections[d], Apply(w, BroadcastSend(c)))
  {
    hide Stored, Shaped;
  }

  /** A step of one connection leaves what the others rely on alone. */
  lemma MoveStep(w: World, e: Event)
    requires Inv(w) && Enabled(w, e)
    requires e.HelloArrives? || e.HandshakeLists? || e.HandshakeSends? || e.HelloReturns? || e.RefetchLists?
             || e.RefetchSends?
             || e.Fails? || e.TransportCloses? || e.Disconnects?
    ensures Inv(Apply(w, e))
  {
    hide Good;
    var k := w.connections[e.c];
    MoveIsGood(w, e);
    forall d | d in w.connections && d != e.c ensures Good(d, w.connections[d], Apply(w, e)) {
      GoodElsewhere(d, w.connections[d], w, Apply(w, e));
    }
  }

  lemma GoodElsewhere(c: ConnectionId, k: Connection, w: World, w': World)
    requires Good(c, k, w) && w' == w.(connections := w'.connections)
    ensures Good(c, k, w')
  {
    hide Stored;
  }

  lemma MoveIsGood(w: World, e: Event)
    requires Inv(w) && Enabled(w, e)
    requires e.HelloArrives? || e.HandshakeLists? || e.HandshakeSends? || e.HelloReturns? || e.RefetchLists?
             || e.RefetchSends?
             || e.Fails? || e.TransportCloses? || e.Disconnects?
    ensures Good(e.c, Move(w, e), Apply(w, e))
    ensures Targeted(w.connections[e.c], w.revision) ==> Targeted(Move(w, e), w.revision)
  {
    assert Good(e.c, w.connections[e.c], w);
    var w' := Apply(w, e);
    match e {
      case HelloReturns(c, ok) => { FinishHelloIsGood(w, w', c, w.connections[c], ok); hide Good; }
      case RefetchSends(c) => { RefetchIsGood(w, w', c, w.connections[c]); hide Good; }
      case HandshakeSends(c) => { SendHelloIsGood(w, w', c, w.connections[c]); hide Good; }
      case HelloArrives(c) => { ListingIsGood(w, w', c, w.connections[c]); hide Good; }
      case HandshakeLists(c) => { ListingIsGood(w, w', c, w.connections[c]); hide Good; }
      case RefetchLists(c) => { RefetchListIsGood(w, w', c, w.connections[c]); hide Good; }
      case Fails(c) => { ClosingIsGood(w, w', c, w.connections[c], Move(w, e)); hide Good; }
      case TransportCloses(c) => { ClosingIsGood(w, w', c, w.connections[c], Move(w, e)); hide Good; }
      case Disconnects(c) => { ClosingIsGood(w, w', c, w.connections[c], Move(w, e)); hide Good; }
    }
  }

  lemma SendHelloIsGood(w: World, w': World, c: ConnectionId, k: Connection)
    requires Good(c, k, w) && k.handshake.Listed? && w' == w.(connections := w'.connections)
    ensures Good(c, SendHello(w, k), w')
  {
    hide Stored, CaughtUp, Informed;
  }

  lemma ListingIsGood(w: World, w': World, c: ConnectionId, k: Connection)
    requires Good(c, k, w) && w' == w.(connections := w'.connections)
    ensures k.stage == AwaitingHello ==> Good(c, k.(stage := Handshaking, handshake := Listing(w.revision)), w')
    ensures k.handshake.Listing? ==> Good(c, k.(handshake := Listed(Snapshot(k.handshake.revision, w.version))), w')
  {
    hide Stored, CaughtUp, Informed;
  }

  lemma RefetchListIsGood(w: World, w': World, c: ConnectionId, k: Connection)
    requires Good(c, k, w) && k.handshake.Refetching? && w' == w.(connections := w'.connections)
    ensures Good(c, k.(handshake := Refetched(Snapshot(k.handshake.revision, w.version))), w')
  {
    hide Stored;
  }

  /** A connection on its way out has nothing to catch up with. */
  lemma ClosingIsGood(w: World, w': World, c: ConnectionId, k: Connection, k': Connection)
    requires Good(c, k, w) && w' == w.(connections := w'.connections)
    requires k' == k.(stage := k'.stage, closed := k'.closed, disconnected := k'.disconnected)
    requires k'.stage == k.stage || k'.stage.ClosingStage? || k'.stage.ClosedStage?
    requires k'.Open() ==> k.Open()
    ensures Good(c, k', w')
  {
    hide Stored, OnlyHelloUpTo;
  }

  lemma FinishHelloIsGood(w: World, w': World, c: ConnectionId, k: Connection, ok: bool)
    requires Good(c, k, w) && k.handshake.SendingHello? && w' == w.(connections := w'.connections)
    ensures Good(c, FinishHello(w, k, ok), w')
  {
    hide Stored;
    StoredOne(k.handshake.snapshot);
  }

  lemma RefetchIsGood(w: World, w': World, c: ConnectionId, k: Connection)
    requires Good(c, k, w) && k.handshake.Refetched? && w' == w.(connections := w'.connections)
    ensures Good(c, Send(k, k.handshake.snapshot).(handshake := Finished), w')
  {
    hide Stored;
    var s := k.handshake.snapshot;
    if k.Open() {
      RefetchStored(k.sent, s);
      assert |k.sent| > 1 ==> s.revision < k.sent[1].revision <= w.revision;
    } else {
      hide CaughtUp, Informed;
    }
  }

  /** A late answer of the second get() is kept by the client unless a broadcast has overtaken it. */
  lemma RefetchStored(sent: seq<Snapshot>, s: Snapshot)
    requires OnlyHelloUpTo(sent, s.revision)
    ensures Stored(sent).Some?
    ensures |sent| == 1 ==> Stored(sent) == Some(sent[0]) && Stored(sent + [s]) == Some(s)
    ensures |sent| > 1 ==> Stored(sent + [s]) == Stored(sent) && s.revision < Stored(sent).value.revision
  {
    StoredAppend(sent, s);
    var at := StoredIsLatest(sent);
    if |sent| > 1 { assert sent[1].revision <= sent[at].revision; }
  }

  lemma StepKeeps(w: World, e: Event)
    requires Inv(w) && Enabled(w, e)
    ensures Inv(Apply(w, e))
  {
    match e
    case Changes => GlobalStep(w, e);
    case Requests => GlobalStep(w, e);
    case BroadcastBegins => BeginStep(w);
    case BroadcastListed => GlobalStep(w, e);
    case BroadcastFails => AbandonStep(w);
    case BroadcastSend(c) => BroadcastSendStep(w, c);
    case BroadcastEnds => GlobalStep(w, e);
    case Accepts(c) => AcceptStep(w, c);
    case CloseBegins => GlobalStep(w, e);
    case _ => MoveStep(w, e);
  }

  lemma AcceptStep(w: World, c: ConnectionId)
    requires Inv(w) && Enabled(w, Accepts(c))
    ensures Inv(Apply(w, Accepts(c)))
  {
    var w' := Apply(w, Accepts(c));
    forall d | d in w.connections ensures Good(d, w.connections[d], w') { GoodElsewhere(d, w.connections[d], w, w'); }
    assert Good(c, w'.connections[c], w');
    hide Good;
  }

  lemma {:induction false} RunKeeps(events: seq<Event>)
    requires Run(events).Some?
    ensures Inv(Run(events).value)
    decreases |events|
  {
    if events == [] {
      assert Inv(Init);
    } else {
      RunKeeps(events[..|events| - 1]);
      StepKeeps(Run(events[..|events| - 1]).value, events[|events| - 1]);
    }
  }

  // ---------------------------------------------------------------------------
  // Main results
  // ---------------------------------------------------------------------------

  /** Nothing more is on its way to the connection. */
  predicate Settled(w: World, c: ConnectionId) {
    && !w.closing && w.broadcast == None
    && c in w.connections && w.connections[c].IsReady() && !w.connections[c].closed
       && w.connections[c].handshake.Finished?
  }

  /**
   Snapshot catch-up. In every run, once its handshake and the broadcast under way have settled: a
   client that applies what its ready connection was sent, in order, ends with the publisher's current
   revision exactly if a service call did not throw during the last broadcast to the connection; no
   other revision is newer.
   */
  lemma CatchUp(events: seq<Event>, c: ConnectionId)
    requires Run(events).Some? && Settled(Run(events).value, c)
    ensures var w := Run(events).value; var sent := w.connections[c].sent;
            && (forall i :: 0 <= i < |sent| ==> sent[i].revision <= w.revision)
            && ((exists i :: 0 <= i < |sent| && sent[i].revision == w.revision) <==> !w.connections[c].abandoned)
            && (Stored(sent).Some? && Stored(sent).value.revision == w.revision <==> !w.connections[c].abandoned)
  {
    RunKeeps(events);
    var w := Run(events).value;
    assert Good(c, w.connections[c], w);
    if w.connections[c].sent != [] { var at := StoredIsLatest(w.connections[c].sent); }
  }

  /**
   The mark that CatchUp speaks of: it is set exactly when a broadcast to the connection is abandoned, and
   cleared exactly when one is sent to it.
   */
  lemma AbandonedExactlyByFailure(w: World, e: Event, c: ConnectionId)
    requires Enabled(w, e) && c in w.connections
    ensures c in Apply(w, e).connections
    ensures var k := w.connections[c];
            Apply(w, e).connections[c].abandoned <==>
              || (e.BroadcastFails? && c in w.broadcast.value.targets)
              || (k.abandoned && !(e == BroadcastSend(c) && k.Open()))
  {
  }

  /**
   Content. When moreover every change was announced and every queued broadcast performed, the client
   shows the current content exactly if its connection did not miss a broadcast, unless the last one
   to it was abandoned.
   */
  lemma ContentIsCurrent(events: seq<Event>, c: ConnectionId)
    requires Run(events).Some? && Settled(Run(events).value, c)
    requires Run(events).value.queued == 0 && Run(events).value.announced == Run(events).value.version
    ensures var w := Run(events).value;
            !w.connections[c].abandoned ==>
              && Stored(w.connections[c].sent).Some?
              && (Stored(w.connections[c].sent).value.content == w.version <==> !w.connections[c].missed)
  {
    RunKeeps(events);
    var w := Run(events).value;
    var k := w.connections[c];
    assert Good(c, k, w);
    if k.missed { StoredOne(k.sent[0]); assert k.sent == [k.sent[0]]; }
    hide Stored;
  }

  /**
   The mark that ContentIsCurrent speaks of: it is set exactly when a broadcast is skipped for want of a
   ready connection while a handshake holds older content, and cleared exactly when something is sent
   after the hello.
   */
  lemma MissedExactlyBySkip(w: World, e: Event, c: ConnectionId)
    requires Enabled(w, e) && c in w.connections
    ensures c in Apply(w, e).connections
    ensures var k := w.connections[c];
            Apply(w, e).connections[c].missed <==>
              || (e.BroadcastBegins? && (ReadySet(w) == {} || w.closing) && Hello(k).Some?
                 && Hello(k).value.content < w.version)
              || (k.missed && !((e.BroadcastSend? || e.RefetchSends?) && e.c == c && k.Open()))
  {
  }

  /** One more step of a run, which takes `w` to `w'`. */
  lemma Goes(events: seq<Event>, w: World, e: Event, w': World)
    requires Run(events) == Some(w) && Enabled(w, e) && Apply(w, e) == w'
    ensures Run(events + [e]) == Some(w')
  {
    assert (events + [e])[..|events|] == events;
    hide Apply, Enabled;
  }

  /** A broadcast that is skipped while the only client is in its handshake. */
  lemma SkipForOne(w: World, k: Connection)
    requires w.queued > 0 && w.connections.Keys == {0} && w.connections[0] == k && !k.IsReady()
    ensures Begin(w) == w.(queued := w.queued - 1, connections := map[0 := MarkMissed(k, w.version)])
  {
    hide MarkMissed;
    assert forall c :: c in w.connections ==> !w.connections[c].IsReady() by {
      assert forall c :: c in w.connections ==> c in w.connections.Keys;
    }
    assert ReadySet(w) == {};
    var marked := map c | c in w.connections :: MarkMissed(w.connections[c], w.version);
    assert marked.Keys == {0} && marked[0] == MarkMissed(k, w.version);
    assert marked == map[0 := MarkMissed(k, w.version)];
  }

  /** A client in its handshake, whose snapshot is complete but not yet sent, while a change is announced. */
  lemma ChangedDuringHandshake(k: Connection) returns (events: seq<Event>)
    requires k == Connection(Handshaking, false, false, Listed(Snapshot(0, 0)), [], false, false)
    ensures Run(events) == Some(World(0, 1, 1, 1, None, map[0 := k], false))
  {
    events := [];
    assert Run(events) == Some(Init);
    hide Run;
    var w1 := Init.(connections := map[0 := Connection(AwaitingHello, false, false, NotStarted, [], false, false)]);
    assert Run(events + [Accepts(0)]) == Some(w1) by { Goes(events, Init, Accepts(0), w1); }
    events := events + [Accepts(0)];
    var w2 := Init.(connections := map[0 := k.(handshake := Listing(0))]);
    assert Run(events + [HelloArrives(0)]) == Some(w2) by { Goes(events, w1, HelloArrives(0), w2); }
    events := events + [HelloArrives(0)];
    var w3 := Init.(connections := map[0 := k]);
    assert Run(events + [HandshakeLists(0)]) == Some(w3) by { Goes(events, w2, HandshakeLists(0), w3); }
    events := events + [HandshakeLists(0)];
    assert Run(events + [Changes]) == Some(w3.(version := 1)) by { Goes(events, w3, Changes, w3.(version := 1)); }
    events := events + [Changes];
    var w5 := World(0, 1, 1, 1, None, map[0 := k], false);
    assert Run(events + [Requests]) == Some(w5) by { Goes(events, w3.(version := 1), Requests, w5); }
    events := events + [Requests];
  }

  /** A ready client that has what the publisher showed it when it said hello. */
  lemma Greeted(k: Connection) returns (events: seq<Event>)
    requires k == Connection(Ready, false, false, Finished, [Snapshot(0, 0)], false, false)
    ensures Run(events) == Some(Init.(connections := map[0 := k]))
  {
    events := [];
    assert Run(events) == Some(Init);
    hide Run;
    var w1 := Init.(connections := map[0 := Connection(AwaitingHello, false, false, NotStarted, [], false, false)]);
    assert Run(events + [Accepts(0)]) == Some(w1) by { Goes(events, Init, Accepts(0), w1); }
    events := events + [Accepts(0)];
    var hello := Connection(Handshaking, false, false, Listing(0), [], false, false);
    var w2 := Init.(connections := map[0 := hello]);
    assert Run(events + [HelloArrives(0)]) == Some(w2) by { Goes(events, w1, HelloArrives(0), w2); }
    events := events + [HelloArrives(0)];
    var w3 := Init.(connections := map[0 := hello.(handshake := Listed(Snapshot(0, 0)))]);
    assert Run(events + [HandshakeLists(0)]) == Some(w3) by { Goes(events, w2, HandshakeLists(0), w3); }
    events := events + [HandshakeLists(0)];
    var w4 := Init.(connections :=
      map[0 := hello.(handshake := SendingHello(Snapshot(0, 0)), sent := [Snapshot(0, 0)])]);
    assert hello.sent + [Snapshot(0, 0)] == [Snapshot(0, 0)];
    assert Run(events + [HandshakeSends(0)]) == Some(w4) by { Goes(events, w3, HandshakeSends(0), w4); }
    events := events + [HandshakeSends(0)];
    var w5 := Init.(connections := map[0 := k]);
    assert Run(events + [HelloReturns(0, true)]) == Some(w5) by { Goes(events, w4, HelloReturns(0, true), w5); }
    events := events + [HelloReturns(0, true)];
  }

  /** It happens: a service call that throws during a broadcast leaves the only client behind the revision. */
  lemma BroadcastIsAbandoned() returns (events: seq<Event>)
    ensures Run(events).Some? && Settled(Run(events).value, 0)
    ensures var w := Run(events).value;
            w.queued == 0 && w.revision == 1 && Stored(w.connections[0].sent) == Some(Snapshot(0, 0))
  {
    var k := Connection(Ready, false, false, Finished, [Snapshot(0, 0)], false, false);
    events := Greeted(k);
    hide Run;
    var w0 := Init.(connections := map[0 := k]);
    var w1 := w0.(queued := 1);
    assert Run(events + [Requests]) == Some(w1) by { Goes(events, w0, Requests, w1); }
    events := events + [Requests];
    var w2 := World(1, 0, 0, 0, Some(BroadcastLists(1, {0})), map[0 := k], false);
    assert 0 in ReadySet(w1) && ReadySet(w1) == {0};
    assert Run(events + [BroadcastBegins]) == Some(w2) by { Goes(events, w1, BroadcastBegins, w2); }
    events := events + [BroadcastBegins];
    var w3 := World(1, 0, 0, 0, None, map[0 := k.(abandoned := true)], false);
    assert Abandon(w2).connections == w3.connections;
    assert Run(events + [BroadcastFails]) == Some(w3) by { Goes(events, w2, BroadcastFails, w3); }
    events := events + [BroadcastFails];
    StoredOne(Snapshot(0, 0));
  }

  /** Broadcasts can be missed: a change announced during the only handshake is lost on that client. */
  lemma UpdateIsLost() returns (events: seq<Event>)
    ensures Run(events).Some? && Settled(Run(events).value, 0)
    ensures var w := Run(events).value;
            && w.queued == 0 && w.announced == w.version
            && Stored(w.connections[0].sent) == Some(Snapshot(0, 0)) && w.version == 1
  {
    var k := Connection(Handshaking, false, false, Listed(Snapshot(0, 0)), [], false, false);
    events := ChangedDuringHandshake(k);
    hide Run;
    var w := World(0, 1, 1, 1, None, map[0 := k], false);
    var missed := k.(missed := true);
    var w1 := World(0, 1, 1, 0, None, map[0 := missed], false);
    assert Run(events + [BroadcastBegins]) == Some(w1) by {
      SkipForOne(w, k);
      assert MarkMissed(k, 1) == missed;
      hide Begin, MarkMissed;
      assert Apply(w, BroadcastBegins) == w1;
      Goes(events, w, BroadcastBegins, w1);
    }
    events := events + [BroadcastBegins];
    var w2 := w1.(connections :=
      map[0 := missed.(sent := [Snapshot(0, 0)], handshake := SendingHello(Snapshot(0, 0)))]);
    assert Run(events + [HandshakeSends(0)]) == Some(w2) by {
      assert missed.sent + [Snapshot(0, 0)] == [Snapshot(0, 0)];
      Goes(events, w1, HandshakeSends(0), w2);
    }
    events := events + [HandshakeSends(0)];
    var w3 := w1.(connections := map[0 := missed.(sent := [Snapshot(0, 0)], handshake := Finished, stage := Ready)]);
    assert Run(events + [HelloReturns(0, true)]) == Some(w3) by { Goes(events, w2, HelloReturns(0, true), w3); }
    events := events + [HelloReturns(0, true)];
    StoredOne(Snapshot(0, 0));
  }
}
