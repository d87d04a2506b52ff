/**
 The live-session manager as an object. One method per stretch of code between awaits; each is
 proved to take the state it represents exactly where SessionModel's step takes it. SessionTheorems
 speaks about runs of those steps; that calls in sequence make a run is not stated here, and the steps
 of the service, of runtimes and of waiting invocations have no method.
 */
module Sessions {
  import opened Wrappers
  import opened SessionModel

  /** A session record, shared by the session map and by the invocations that hold it. */
  class LiveRecord {
    const handle: Handle
    const id: SessionId
    var connections: set<ConnectionId>
    var operationCount: nat
    var terminal: bool
    var disposing: Disposal

    constructor (handle: Handle, id: SessionId)
      ensures this.handle == handle && Value() == LiveSession(id, {}, 0, false, NotDisposing)
    {
      this.handle, this.id := handle, id;
      connections, operationCount, terminal, disposing := {}, 0, false, NotDisposing;
    }

    function Value(): LiveSession
      reads this
    {
      LiveSession(id, connections, operationCount, terminal, disposing)
    }
  }

  class LiveSessionManager {
    var liveSessions: map<SessionId, LiveRecord>
    var openingSessions: map<SessionId, TaskId>
    // What the manager works on: records, runtimes, connections and suspended invocations.
    var records: map<Handle, LiveRecord>
    var runtimes: map<Handle, Runtime>
    var connections: map<ConnectionId, Connection>
    var tasks: map<TaskId, Task>
    var promises: map<TaskId, CreatePromise>
    var idleEvents: set<Handle>
    var closing: ClosePhase

    ghost predicate Valid()
      reads `records, `liveSessions, `runtimes
    {
      && (forall h :: h in records ==> records[h].handle == h && h in runtimes)
      && (forall id :: id in liveSessions ==>
         liveSessions[id].handle in records && records[liveSessions[id].handle] == liveSessions[id])
    }

    ghost function LiveMap(): map<SessionId, Handle>
      reads `liveSessions
    {
      map id | id in liveSessions :: liveSessions[id].handle
    }

    ghost function Sessions(): map<Handle, LiveSession>
      reads `records, records.Values
    {
      map h | h in records :: records[h].Value()
    }

    /** The state this object represents. */
    ghost function State(): World
      reads this, records.Values
    {
      World(LiveMap(), openingSessions, Sessions(), runtimes, connections, tasks, promises, idleEvents, closing)
    }

    constructor ()
      ensures Valid() && State() == Init
    {
      liveSessions, openingSessions, records, runtimes := map[], map[], map[], map[];
      connections, tasks, promises, idleEvents, closing := map[], map[], map[], {}, NotClosing;
    }

    /** Changing one record changes one session. */
    twostate lemma RecordChanged(live: LiveRecord)
      requires Valid() && live.handle in records && records[live.handle] == live
      requires records == old(records)
      requires forall r :: r in records.Values && r != live ==> unchanged(r)
      ensures Sessions() == old(Sessions())[live.handle := live.Value()]
    {
      assert forall h :: h in records && h != live.handle ==> records[h] in records.Values && records[h] != live;
    }

    method MaybeDispose(live: LiveRecord)
      requires Valid() && live.handle in records && records[live.handle] == live
      modifies this`runtimes, live
      ensures Valid() && State() == old(SessionModel.MaybeDispose(State(), live.handle))
    {
      var runtime := runtimes[live.handle];
      if !closing.NotClosing? || live.disposing != NotDisposing || live.connections != {} || live.operationCount > 0
         || (!live.terminal && !runtime.idle)
      {
        return;
      }
      live.disposing := Disposing;
      runtimes := runtimes[live.handle := DisposeCalled(runtime)];
      RecordChanged(live);
    }

    method Acquire(t: TaskId, c: ConnectionId, id: SessionId)
      requires Valid()
      modifies this`tasks, this`promises, this`openingSessions
      ensures Valid() && State() == old(SessionModel.Acquire(State(), t, c, id))
    {
      if id in liveSessions {
        var existing := liveSessions[id];
        if existing.terminal {
          tasks := tasks - {t};
        } else if existing.disposing != NotDisposing {
          tasks := tasks[t := WaitDisposing(c, id, existing.handle)];
        } else {
          tasks := tasks[t := Acquired(c, id, existing.handle)];
        }
      } else if id in openingSessions {
        tasks := tasks[t := WaitOpening(c, id, openingSessions[id])];
      } else {
        promises := promises[t := Pending(id)];
        openingSessions := openingSessions[id := t];
        tasks := tasks[t := AwaitRuntime(c, id)];
      }
    }

    method Attach(c: ConnectionId, live: LiveRecord)
      requires Valid() && live.handle in records && records[live.handle] == live && c in connections
      modifies this, live
      ensures Valid() && State() == old(SessionModel.Attach(State(), c, live.handle))
    {
      var connection := connections[c];
      if connection.disconnected || !connection.ready || connection.closed {
        MaybeDispose(live);
        return;
      }
      connections := connections[c := connection.(sessionIds := connection.sessionIds + {live.id})];
      live.connections := live.connections + {c};
      RecordChanged(live);
    }

    method Detach(t: TaskId, c: ConnectionId, id: SessionId)
      requires Valid() && c in connections
      modifies `connections, `tasks, `runtimes, if id in liveSessions then {liveSessions[id]} else {}
      ensures Valid() && State() == old(SessionModel.Detach(State(), t, c, id))
    {
      var connection := connections[c];
      if id !in connection.sessionIds { return; }
      connections := connections[c := connection.(sessionIds := connection.sessionIds - {id})];
      if id in liveSessions {
        hide SessionModel.TellOrDispose, Less;
        DetachFrom(t, c, liveSessions[id]);
      }
    }

    method DetachFrom(t: TaskId, c: ConnectionId, live: LiveRecord)
      requires Valid() && live.handle in records && records[live.handle] == live
      modifies this`tasks, this`runtimes, live
      ensures Valid()
      ensures State() == old(SessionModel.TellOrDispose(
                State().SetSession(live.handle, Less(State().sessions[live.handle], c)), t, live.handle))
    {
      hide SessionModel.TellOrDispose, Less;
      RemoveConnection(live, c);
      hide State;
      TellOrDispose(t, live);
    }

    method TellOrDispose(t: TaskId, live: LiveRecord)
      requires Valid() && live.handle in records && records[live.handle] == live
      modifies this`tasks, this`runtimes, live
      ensures Valid() && State() == old(SessionModel.TellOrDispose(State(), t, live.handle))
    {
      if live.connections != {} && !live.terminal && live.disposing == NotDisposing {
        tasks := tasks[t := DetachBroadcast(live.handle)];
      } else {
        MaybeDispose(live);
        hide SessionModel.MaybeDispose;
      }
    }

    method RemoveConnection(live: LiveRecord, c: ConnectionId)
      requires Valid() && live.handle in records && records[live.handle] == live
      modifies live`connections
      ensures Valid() && live.connections == old(live.connections) - {c}
      ensures State() == old(State()).SetSession(live.handle, Less(old(State()).sessions[live.handle], c))
    {
      live.connections := live.connections - {c};
      RecordChanged(live);
    }

    /** runOperation, up to its first await. */
    method Operate(t: TaskId, live: LiveRecord)
      requires Valid() && live.handle in records && records[live.handle] == live
      modifies this`tasks, live
      ensures Valid() && State() == old(SessionModel.Operate(State(), t, live.handle))
    {
      live.operationCount := live.operationCount + 1;
      tasks := tasks[t := Operating(live.handle)];
      RecordChanged(live);
    }

    /** The finally block of runOperation. */
    method EndOperation(t: TaskId, live: LiveRecord)
      requires Valid() && live.handle in records && records[live.handle] == live
      requires t in tasks && tasks[t] == Operating(live.handle) && live.operationCount > 0
      modifies this`tasks, this`runtimes, live
      ensures Valid() && State() == old(SessionModel.EndOperation(State(), t))
    {
      live.operationCount := live.operationCount - 1;
      tasks := tasks - {t};
      RecordChanged(live);
      MaybeDispose(live);
    }

    /** create, after the service has returned a runtime. */
    method OpenRuntime(t: TaskId, h: Handle, idle: bool)
      requires Valid() && t in tasks && tasks[t].AwaitRuntime? && h !in runtimes
      modifies this`tasks, this`runtimes
      ensures Valid() && State() == old(SessionModel.OpenRuntime(State(), t, h, idle))
    {
      var task := tasks[t];
      if !closing.NotClosing? {
        runtimes := runtimes[h := Runtime(task.id, BeingDisposed, 1, idle)];
        tasks := tasks[t := AwaitDiscard(task.connection, task.id, h)];
      } else {
        runtimes := runtimes[h := Runtime(task.id, Running, 0, idle)];
        tasks := tasks[t := AwaitSnapshot(task.connection, task.id, h)];
      }
    }

    /** create, after the runtime has returned its first snapshot. */
    method ReturnSnapshot(t: TaskId, accepted: bool)
      requires Valid() && t in tasks && tasks[t].AwaitSnapshot? && tasks[t].live in runtimes
               && tasks[t].live !in records
      modifies this
      ensures Valid() && State() == old(SessionModel.ReturnSnapshot(State(), t, accepted))
    {
      if accepted {
        AcceptSnapshot(t);
      } else {
        var task := tasks[t];
        runtimes := runtimes[task.live := DisposeCalled(runtimes[task.live])];
        tasks := tasks[t := AwaitDiscard(task.connection, task.id, task.live)];
      }
    }

    method AcceptSnapshot(t: TaskId)
      requires Valid() && t in tasks && tasks[t].AwaitSnapshot? && tasks[t].live in runtimes
               && tasks[t].live !in records
      modifies this
      ensures Valid() && State() == old(SessionModel.ReturnSnapshot(State(), t, true))
    {
      var task := tasks[t];
      MapRecord(task.id, task.live);
      promises := promises[t := Resolved(task.live)];
      tasks := tasks[t := CreateSettled(task.connection, task.id)];
      hide LiveMap, Sessions;
    }

    /** A new session record, which becomes the mapped one. */
    method MapRecord(id: SessionId, h: Handle)
      requires Valid() && h !in records && h in runtimes
      modifies this`records, this`liveSessions
      ensures Valid() && LiveMap() == old(LiveMap())[id := h]
      ensures Sessions() == old(Sessions())[h := LiveSession(id, {}, 0, false, NotDisposing)]
    {
      var live := new LiveRecord(h, id);
      records := records[h := live];
      liveSessions := liveSessions[id := live];
    }

    /** acquire, after its own create has settled. */
    method ResumeCreate(t: TaskId)
      requires Valid() && t in tasks && tasks[t].CreateSettled? && t in promises
      modifies this`tasks, this`openingSessions
      ensures Valid() && State() == old(SessionModel.ResumeCreate(State(), t))
    {
      var task := tasks[t];
      if task.id in openingSessions && openingSessions[task.id] == t {
        openingSessions := openingSessions - {task.id};
      }
      if promises[t].Resolved? {
        tasks := tasks[t := Acquired(task.connection, task.id, promises[t].live)];
      } else {
        tasks := tasks - {t};
      }
    }

    /** The disposal started by maybeDispose has settled. */
    method ReturnDisposal(live: LiveRecord, ok: bool)
      requires Valid() && live.handle in records && records[live.handle] == live
      modifies this`liveSessions, live
      ensures Valid() && State() == old(SessionModel.ReturnDisposal(State(), live.handle, ok))
    {
      if live.id in liveSessions && liveSessions[live.id] == live {
        liveSessions := liveSessions - {live.id};
      }
      assert LiveMap() == old(SessionModel.ReturnDisposal(State(), live.handle, ok).liveSessions);
      hide LiveMap;
      live.disposing := DisposalSettled(ok);
      RecordChanged(live);
      hide Sessions;
    }

    method Terminate(t: TaskId, live: LiveRecord)
      requires Valid() && live.handle in records && records[live.handle] == live
      modifies this`tasks, live
      ensures Valid() && State() == old(SessionModel.Terminate(State(), t, live.handle))
    {
      if live.terminal { return; }
      live.terminal := true;
      tasks := tasks[t := Terminating(live.handle, live.connections)];
      RecordChanged(live);
    }

    /** close, after every pending create has settled. */
    method ClearSessions()
      requires Valid()
      modifies this`liveSessions, this`runtimes, this`closing
      ensures Valid() && State() == old(SessionModel.ClearSessions(State()))
    {
      ghost var w := State();
      var sessions := liveSessions.Values;
      LiveHandles();
      hide Handles, ClearedRuntime, SessionModel.ClearSessions;
      liveSessions := map[];
      closing := Draining(Handles(sessions));
      assert Sessions() == w.sessions;
      DisposeCleared(sessions, w);
      assert LiveMap() == map[];
      ClearedIs(w, State());
    }

    lemma LiveHandles()
      requires Valid()
      ensures Handles(liveSessions.Values) == LiveMap().Values && liveSessions.Values <= records.Values
    {
      forall h | h in LiveMap().Values ensures h in Handles(liveSessions.Values) {
        var id :| id in liveSessions && liveSessions[id].handle == h;
        assert liveSessions[id] in liveSessions.Values;
      }
      forall live | live in liveSessions.Values ensures live.handle in LiveMap().Values {
        var id :| id in liveSessions && liveSessions[id] == live;
        assert LiveMap()[id] == live.handle;
      }
    }

    method DisposeCleared(sessions: set<LiveRecord>, ghost w: World)
      requires Valid() && sessions <= records.Values && w.sessions == Sessions() && w.runtimes == runtimes
      modifies this`runtimes
      ensures Valid() && runtimes.Keys == w.runtimes.Keys
      ensures forall h :: h in runtimes ==> runtimes[h] == ClearedRuntime(w, Handles(sessions), h)
    {
      var rest := sessions;
      assert Handles(sessions) - Handles(rest) == {};
      while rest != {}
        invariant Valid() && rest <= sessions && runtimes.Keys == w.runtimes.Keys
        invariant forall h :: h in runtimes ==> runtimes[h] == ClearedRuntime(w, Handles(sessions) - Handles(rest), h)
      {
        var live :| live in rest;
        assert w.sessions[live.handle] == live.Value();
        OneLess(rest, live);
        if live.disposing == NotDisposing {
          runtimes := runtimes[live.handle := DisposeCalled(runtimes[live.handle])];
        }
        rest := rest - {live};
      }
    }

    /** The server's disconnect, then the manager's, up to its first await. */
    method Disconnect(c: ConnectionId)
      requires Valid() && c in connections
      modifies this`connections, this`runtimes, records.Values
      ensures Valid() && State() == old(SessionModel.Disconnect(State(), c))
    {
      var connection := connections[c];
      if connection.disconnected { return; }
      ghost var w := State();
      var sessions := set id | id in connection.sessionIds && id in liveSessions :: liveSessions[id];
      connections := connections[c := Connection({}, true, false, connection.closed)];
      hide Removal, RemoveFromAll, Handles, MappedSessions;
      ghost var lost := MappedHandles(w, c, sessions);
      RemoveAndDispose(c, sessions, lost, w);
    }

    /** The connection leaves its sessions, and then each of them may be disposed. */
    method RemoveAndDispose(c: ConnectionId, sessions: set<LiveRecord>, ghost lost: set<Handle>, ghost w: World)
      requires Valid() && sessions <= records.Values && lost == Handles(sessions) && lost <= records.Keys
      requires State() == w.(connections := connections)
      requires forall h :: h in records ==> (h in lost <==> records[h] in sessions)
      modifies this`runtimes, records.Values
      ensures Valid() && lost <= w.sessions.Keys <= w.runtimes.Keys
              && State() == RemoveFromAll(w, c, lost).(connections := connections)
    {
      hide Removal, RemoveFromAll, Handles;
      Remove(c, sessions);
      RemovalBegins(w, State(), c, lost);
      hide Sessions, LiveMap, Less;
      DisposeAll(c, sessions, w);
      RemovalEnds(w, State(), c, lost);
    }

    lemma MappedHandles(w: World, c: ConnectionId, sessions: set<LiveRecord>) returns (lost: set<Handle>)
      requires Valid() && w.liveSessions == LiveMap() && c in w.connections
      requires sessions == set id | id in w.connections[c].sessionIds && id in liveSessions :: liveSessions[id]
      ensures lost == Handles(sessions) == MappedSessions(w, c) && sessions <= records.Values && lost <= records.Keys
      ensures forall h :: h in records ==> (h in lost <==> records[h] in sessions)
    {
      lost := Handles(sessions);
      forall h | h in MappedSessions(w, c) ensures h in lost {
        var id :| id in w.connections[c].sessionIds && id in liveSessions && liveSessions[id].handle == h;
        assert liveSessions[id] in sessions;
      }
    }

    method Remove(c: ConnectionId, sessions: set<LiveRecord>)
      requires sessions <= records.Values
      modifies records.Values
      ensures forall r :: r in records.Values ==>
              r.Value() == if r in sessions then Less(old(r.Value()), c) else old(r.Value())
    {
      var rest := sessions;
      while rest != {}
        invariant rest <= sessions
        invariant forall r :: r in records.Values ==>
                    r.Value() == if r in sessions - rest then Less(old(r.Value()), c) else old(r.Value())
      {
        var live :| live in rest;
        live.connections := live.connections - {c};
        rest := rest - {live};
      }
    }

    method DisposeNext(live: LiveRecord, ghost c: ConnectionId, ghost lost: set<Handle>, ghost rest: set<Handle>,
                       ghost w: World)
      requires Valid() && live in records.Values && live.handle in rest && Removal(w, State(), c, lost, rest)
      modifies this`runtimes, live
      ensures Valid() && Removal(w, State(), c, lost, rest - {live.handle})
    {
      hide Removal, SessionModel.MaybeDispose;
      RemovalStep(w, State(), c, lost, rest, live.handle);
      MaybeDispose(live);
    }

    lemma OneLess(rest: set<LiveRecord>, live: LiveRecord)
      requires Valid() && rest <= records.Values && live in rest
      ensures Handles(rest - {live}) == Handles(rest) - {live.handle}
    {
    }

    /** maybeDispose on every session that has just lost the connection; `w` is the state before it lost it. */
    method DisposeAll(c: ConnectionId, sessions: set<LiveRecord>, ghost w: World)
      requires Valid() && sessions <= records.Values && Removal(w, State(), c, Handles(sessions), Handles(sessions))
      modifies this`runtimes, records.Values
      ensures Valid() && Removal(w, State(), c, Handles(sessions), {})
    {
      hide Removal, State, Sessions, LiveMap;
      assert Handles({}) == {};
      var rest := sessions;
      while rest != {}
        invariant Valid() && rest <= sessions
        invariant Removal(w, State(), c, Handles(sessions), Handles(rest))
      {
        hide Handles;
        var live :| live in rest;
        DisposeNext(live, c, Handles(sessions), Handles(rest), w);
        OneLess(rest, live);
        rest := rest - {live};
      }
    }
  }

  ghost function ClearedRuntime(w: World, called: set<Handle>, h: Handle): Runtime
    requires h in w.runtimes
  {
    if h in called && h in w.sessions && w.sessions[h].disposing == NotDisposing then DisposeCalled(w.runtimes[h])
      else w.runtimes[h]
  }

  lemma ClearedIs(w: World, w1: World)
    requires w.sessions.Keys <= w.runtimes.Keys == w1.runtimes.Keys
    requires w1 == w.(liveSessions := map[], closing := Draining(w.liveSessions.Values), runtimes := w1.runtimes)
    requires forall h :: h in w1.runtimes ==> w1.runtimes[h] == ClearedRuntime(w, w.liveSessions.Values, h)
    ensures w1 == SessionModel.ClearSessions(w)
  {
  }

  function Handles(sessions: set<LiveRecord>): set<Handle> {
    set live | live in sessions :: live.handle
  }

  /** `w1` is `w` after the sessions in `lost` have lost a connection and those not in `rest` have met maybeDispose. */
  ghost predicate Removal(w: World, w1: World, c: ConnectionId, lost: set<Handle>, rest: set<Handle>) {
    && w1 == w.(sessions := w1.sessions, runtimes := w1.runtimes, connections := w1.connections)
    && rest <= lost <= w.sessions.Keys <= w.runtimes.Keys
    && w1.sessions.Keys == w.sessions.Keys && w1.runtimes.Keys == w.runtimes.Keys
    && (forall h :: h in w.sessions ==> w1.sessions[h] == RemovedSession(w, c, lost, rest, h))
    && (forall h :: h in w.runtimes ==> w1.runtimes[h] == RemovedRuntime(w, c, lost, rest, h))
  }

  function RemovedSession(w: World, c: ConnectionId, lost: set<Handle>, rest: set<Handle>, h: Handle): LiveSession
    requires h in w.sessions && w.sessions.Keys <= w.runtimes.Keys
  {
    if h !in lost then w.sessions[h] else if h in rest then Less(w.sessions[h], c) else Without(w, c, h).sessions[h]
  }

  function RemovedRuntime(w: World, c: ConnectionId, lost: set<Handle>, rest: set<Handle>, h: Handle): Runtime
    requires h in w.runtimes && w.sessions.Keys <= w.runtimes.Keys && lost <= w.sessions.Keys
  {
    if h !in lost || h in rest then w.runtimes[h] else Without(w, c, h).runtimes[h]
  }

  lemma RemovalBegins(w: World, w1: World, c: ConnectionId, lost: set<Handle>)
    requires w1 == w.(sessions := w1.sessions, connections := w1.connections)
    requires lost <= w.sessions.Keys <= w.runtimes.Keys && w1.sessions.Keys == w.sessions.Keys
    requires forall h :: h in w.sessions ==>
             w1.sessions[h] == (if h in lost then Less(w.sessions[h], c) else w.sessions[h])
    ensures Removal(w, w1, c, lost, lost)
  {
  }

  lemma RemovalStep(w: World, w1: World, c: ConnectionId, lost: set<Handle>, rest: set<Handle>, h: Handle)
    requires Removal(w, w1, c, lost, rest) && h in rest
    ensures Removal(w, SessionModel.MaybeDispose(w1, h), c, lost, rest - {h})
  {
    hide RemovedSession, RemovedRuntime, SessionModel.MaybeDispose;
    FateOf(w, c, lost, rest, h);
    LosesAndMeets(w, w1, c, h);
    TouchesOne(w1, h);
    var w2 := SessionModel.MaybeDispose(w1, h);
    forall g | g in w.sessions ensures w2.sessions[g] == RemovedSession(w, c, lost, rest - {h}, g) {
      if g != h { FateElsewhere(w, c, lost, rest, h, g); }
    }
    forall g | g in w.runtimes ensures w2.runtimes[g] == RemovedRuntime(w, c, lost, rest - {h}, g) {
      if g != h { FateElsewhere(w, c, lost, rest, h, g); }
    }
  }

  lemma FateOf(w: World, c: ConnectionId, lost: set<Handle>, rest: set<Handle>, h: Handle)
    requires h in rest && rest <= lost <= w.sessions.Keys <= w.runtimes.Keys
    ensures RemovedSession(w, c, lost, rest, h) == Less(w.sessions[h], c)
            && RemovedRuntime(w, c, lost, rest, h) == w.runtimes[h]
    ensures RemovedSession(w, c, lost, rest - {h}, h) == Without(w, c, h).sessions[h]
    ensures RemovedRuntime(w, c, lost, rest - {h}, h) == Without(w, c, h).runtimes[h]
  {
    hide Without, Less;
  }

  lemma FateElsewhere(w: World, c: ConnectionId, lost: set<Handle>, rest: set<Handle>, h: Handle, g: Handle)
    requires h in rest && rest <= lost <= w.sessions.Keys <= w.runtimes.Keys && g != h
    ensures g in w.sessions ==> RemovedSession(w, c, lost, rest - {h}, g) == RemovedSession(w, c, lost, rest, g)
    ensures g in w.runtimes ==> RemovedRuntime(w, c, lost, rest - {h}, g) == RemovedRuntime(w, c, lost, rest, g)
  {
    hide Without, Less;
  }

  lemma LosesAndMeets(w: World, w1: World, c: ConnectionId, h: Handle)
    requires h in w.sessions && h in w1.sessions && h in w.runtimes && h in w1.runtimes && w.closing == w1.closing
    requires w1.sessions[h] == Less(w.sessions[h], c) && w1.runtimes[h] == w.runtimes[h]
    ensures SessionModel.MaybeDispose(w1, h).sessions.Keys == w1.sessions.Keys
    ensures SessionModel.MaybeDispose(w1, h).runtimes.Keys == w1.runtimes.Keys
    ensures SessionModel.MaybeDispose(w1, h).sessions[h] == Without(w, c, h).sessions[h]
    ensures SessionModel.MaybeDispose(w1, h).runtimes[h] == Without(w, c, h).runtimes[h]
  {
    var w0 := w.SetSession(h, Less(w.sessions[h], c));
    assert w0.sessions[h] == w1.sessions[h];
    hide Disposes, DisposeCalled, Less;
  }

  lemma TouchesOne(w: World, h: Handle)
    requires h in w.sessions && h in w.runtimes
    ensures var w' := SessionModel.MaybeDispose(w, h);
            && (forall g :: g in w.sessions && g != h ==> g in w'.sessions && w'.sessions[g] == w.sessions[g])
            && (forall g :: g in w.runtimes && g != h ==> g in w'.runtimes && w'.runtimes[g] == w.runtimes[g])
  {
  }

  lemma RemovalEnds(w: World, w1: World, c: ConnectionId, lost: set<Handle>)
    requires Removal(w, w1, c, lost, {})
    ensures w1 == RemoveFromAll(w, c, lost).(connections := w1.connections)
  {
    hide Without;
  }
}
