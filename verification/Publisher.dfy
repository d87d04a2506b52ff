/** The snapshot publisher and the handshake as an object whose methods take the steps of Snapshots. */
module Publisher {
  import opened Wrappers
  import opened Snapshots

  class ServerSnapshotPublisher {
    var revision: nat
    var queued: nat
    var broadcast: Option<Broadcast>
    // The server around it.
    var connections: map<ConnectionId, Connection>
    var closing: bool
    var version: nat
    ghost var announced: nat

    ghost function State(): World
      reads this
    {
      World(revision, version, announced, queued, broadcast, connections, closing)
    }

    constructor ()
      ensures State() == Init
    {
      revision, queued, broadcast, connections, closing, version, announced := 0, 0, None, map[], false, 0, 0;
    }

    method RequestBroadcast()
      modifies this`queued, this`announced
      ensures State() == old(Apply(State(), Requests))
    {
      queued := queued + 1;
      announced := version;
    }

    /** The ready connections, in no particular order. */
    method ReadyConnections() returns (ready: set<ConnectionId>)
      ensures ready == ReadySet(State())
    {
      ready := {};
      var rest := connections.Keys;
      while rest != {}
        invariant rest <= connections.Keys
        invariant ready == ReadySet(State()) - rest
      {
        var c :| c in rest;
        if connections[c].stage == Stage.Ready && !connections[c].disconnected {
          ready := ready + {c};
        }
        rest := rest - {c};
      }
    }

    method PerformBroadcast()
      requires broadcast == None && queued > 0
      modifies this
      ensures State() == old(Apply(State(), BroadcastBegins))
    {
      var ready := ReadyConnections();
      queued := queued - 1;
      if ready == {} || closing {
        connections := map c | c in connections :: MarkMissed(connections[c], version);
        return;
      }
      revision := revision + 1;
      broadcast := Some(BroadcastLists(revision, ready));
    }

    method BroadcastIsListed()
      requires broadcast.Some? && broadcast.value.BroadcastLists?
      modifies this`broadcast
      ensures State() == old(Apply(State(), BroadcastListed))
    {
      broadcast := Some(BroadcastSends(Snapshot(broadcast.value.revision, version), broadcast.value.targets));
    }

    /** A service call throws: the broadcast ends with the revision raised. */
    method AbandonBroadcast()
      requires broadcast.Some? && broadcast.value.BroadcastLists?
      modifies this`broadcast, this`connections
      ensures State() == old(Apply(State(), BroadcastFails))
    {
      var targets := broadcast.value.targets;
      broadcast := None;
      connections := map c | c in connections :: if c in targets then connections[c].(abandoned := true)
        else connections[c];
    }

    method SendBroadcast(c: ConnectionId)
      requires Enabled(State(), BroadcastSend(c))
      modifies this`broadcast, this`connections
      ensures State() == old(Apply(State(), BroadcastSend(c)))
    {
      var snapshot, targets := broadcast.value.snapshot, broadcast.value.targets;
      var open := connections[c].Open();
      SendMessage(c, snapshot);
      if open { connections := connections[c := connections[c].(abandoned := false)]; }
      broadcast := Some(BroadcastSends(snapshot, targets - {c}));
    }

    method SendMessage(c: ConnectionId, snapshot: Snapshot)
      requires c in connections
      modifies this`connections
      ensures connections == old(connections[c := Send(connections[c], snapshot)])
    {
      var k := connections[c];
      if k.disconnected || k.closed { return; }
      connections := connections[c := k.(sent := k.sent + [snapshot], missed := false)];
    }

    /** finishHandshake, once its first snapshot is complete. */
    method SendServerHello(c: ConnectionId)
      requires Enabled(State(), HandshakeSends(c))
      modifies this`connections
      ensures State() == old(Apply(State(), HandshakeSends(c)))
    {
      var k := connections[c];
      if closing || k.disconnected || k.stage != Handshaking || k.closed {
        connections := connections[c := k.(handshake := Finished)];
        return;
      }
      var snapshot := k.handshake.snapshot;
      connections := connections[c := k.(sent := k.sent + [snapshot], handshake := SendingHello(snapshot))];
    }

    /** finishHandshake, after the hello: the connection is ready, and behind if the revision has moved. */
    method FinishHandshake(c: ConnectionId, sent: bool)
      requires Enabled(State(), HelloReturns(c, sent))
      modifies this`connections
      ensures State() == old(Apply(State(), HelloReturns(c, sent)))
    {
      var k := connections[c];
      var snapshot := k.handshake.snapshot;
      if !sent {
        k := k.(closed := true, disconnected := true, stage := ClosedStage);
      }
      k := k.(handshake := Finished);
      if sent && !k.disconnected && k.stage == Handshaking {
        k := k.(stage := Stage.Ready);
        if snapshot.revision != revision {
          k := k.(handshake := Refetching(revision));
        }
      }
      connections := connections[c := k];
    }

    method SendCurrent(c: ConnectionId)
      requires Enabled(State(), RefetchSends(c))
      modifies this`connections
      ensures State() == old(Apply(State(), RefetchSends(c)))
    {
      SendMessage(c, connections[c].handshake.snapshot);
      connections := connections[c := connections[c].(handshake := Finished)];
    }
  }
}
