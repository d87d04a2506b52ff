/**
 The live-session protocol of the server as a state machine. Each step is one stretch of code
 between two awaits; the environment chooses which step comes next. A task is an invocation that
 waits at an await; a handle names one acquired runtime and, once created, its live session.
 */
module SessionModel {
  import opened Wrappers

  type SessionId = string
  type ConnectionId = nat
  type TaskId = nat
  type Handle = nat

  datatype Disposal = NotDisposing | Disposing | DisposalSettled(ok: bool)

  /** The session manager's record of a ready session. */
  datatype LiveSession = LiveSession(
    id: SessionId, connections: set<ConnectionId>, operationCount: nat, terminal: bool, disposing: Disposal)

  datatype RuntimeStatus = Running | BeingDisposed | Disposed

  /** A runtime handed out by the service: the id it was opened for, and how often dispose was called. */
  datatype Runtime = Runtime(id: SessionId, status: RuntimeStatus, disposeCalls: nat, idle: bool)

  datatype Connection = Connection(sessionIds: set<SessionId>, disconnected: bool, ready: bool, closed: bool)

  /** The promise of an invocation of create. */
  datatype CreatePromise = Pending(id: SessionId) | Resolved(live: Handle) | Rejected

  datatype Task =
    | WaitDisposing(connection: ConnectionId, id: SessionId, live: Handle)   // acquire: await existing.disposing
    | WaitOpening(connection: ConnectionId, id: SessionId, creator: TaskId)  // acquire: another task's create
    | AwaitRuntime(connection: ConnectionId, id: SessionId)                  // create: await acquireRuntime()
    | AwaitSnapshot(connection: ConnectionId, id: SessionId, live: Handle)   // create: await runtime.snapshot()
    // create: await runtime.dispose(), then throw
    | AwaitDiscard(connection: ConnectionId, id: SessionId, live: Handle)
    | CreateSettled(connection: ConnectionId, id: SessionId)                 // acquire: await pending has settled
    | Acquired(connection: ConnectionId, id: SessionId, live: Handle)        // command: acquire has returned
    | Operating(live: Handle)                                                // runOperation: await operation()
    | DetachBroadcast(live: Handle)                                          // detach: await broadcastSnapshot(live)
    | Terminating(live: Handle, connections: set<ConnectionId>)              // terminate: connections to disconnect

  predicate Creating(task: Task) {
    task.AwaitRuntime? || task.AwaitSnapshot? || task.AwaitDiscard? || task.CreateSettled?
  }

  datatype ClosePhase =
    | NotClosing
    | Closing
    | WaitingForCreates(creators: set<TaskId>)
    | Draining(lives: set<Handle>)
    | Closed

  datatype World = World(
    liveSessions: map<SessionId, Handle>,
    openingSessions: map<SessionId, TaskId>,
    sessions: map<Handle, LiveSession>,
    runtimes: map<Handle, Runtime>,
    connections: map<ConnectionId, Connection>,
    tasks: map<TaskId, Task>,
    promises: map<TaskId, CreatePromise>,
    idleEvents: set<Handle>,   // runtimes that reached idle, with a listener, and have not yet emitted their event
    closing: ClosePhase)
  {
    predicate IsClosing() { !closing.NotClosing? }
    predicate Cleared() { closing.Draining? || closing.Closed? }

    function SetSession(h: Handle, s: LiveSession): World { this.(sessions := sessions[h := s]) }
    function SetTask(t: TaskId, task: Task): World { this.(tasks := tasks[t := task]) }
    function EndTask(t: TaskId): World { this.(tasks := tasks - {t}) }
    function SetStatus(h: Handle, status: RuntimeStatus): World
      requires h in runtimes
    {
      this.(runtimes := runtimes[h := runtimes[h].(status := status)])
    }

    /** runtime.dispose() is called. */
    function CallDispose(h: Handle): World
      requires h in runtimes
    {
      this.(runtimes := runtimes[h := DisposeCalled(runtimes[h])])
    }
  }

  const Init := World(map[], map[], map[], map[], map[], map[], map[], {}, NotClosing)

  /** A session without a connection. */
  function Less(s: LiveSession, c: ConnectionId): LiveSession {
    s.(connections := s.connections - {c})
  }

  /** Whether maybeDispose starts a disposal. */
  predicate Disposes(s: LiveSession, runtime: Runtime, closing: ClosePhase) {
    closing.NotClosing? && s.disposing == NotDisposing && s.connections == {} && s.operationCount == 0
        && (s.terminal || runtime.idle)
  }

  function DisposeCalled(runtime: Runtime): Runtime {
    runtime.(status := BeingDisposed, disposeCalls := runtime.disposeCalls + 1)
  }

  /** The synchronous part of maybeDispose. */
  function MaybeDispose(w: World, h: Handle): (w': World)
    requires h in w.sessions && h in w.runtimes
    ensures w' == w.(sessions := w'.sessions, runtimes := w'.runtimes)
  {
    if Disposes(w.sessions[h], w.runtimes[h], w.closing)
    then w.SetSession(h, w.sessions[h].(disposing := Disposing)).CallDispose(h)
    else w
  }

  /** One iteration of the loop in acquire. */
  function Acquire(w: World, t: TaskId, c: ConnectionId, id: SessionId): World
    requires id in w.liveSessions ==> w.liveSessions[id] in w.sessions
  {
    if id in w.liveSessions then
      var h := w.liveSessions[id];
      if w.sessions[h].terminal then w.EndTask(t)
      else if w.sessions[h].disposing != NotDisposing then w.SetTask(t, WaitDisposing(c, id, h))
      else w.SetTask(t, Acquired(c, id, h))
    else if id in w.openingSessions then w.SetTask(t, WaitOpening(c, id, w.openingSessions[id]))
    else
      w.SetTask(t, AwaitRuntime(c, id)).(
        openingSessions := w.openingSessions[id := t], promises := w.promises[t := Pending(id)])
  }

  /** Attaching, which finds the connection still usable or gives the session up again. */
  function Attach(w: World, c: ConnectionId, h: Handle): World
    requires c in w.connections && h in w.sessions && h in w.runtimes
  {
    var k := w.connections[c];
    if k.disconnected || !k.ready || k.closed then MaybeDispose(w, h)
    else
      var s := w.sessions[h];
      w.SetSession(h, s.(connections := s.connections + {c})).(
        connections := w.connections[c := k.(sessionIds := k.sessionIds + {s.id})])
  }

  /** The mapped sessions of a connection. */
  function MappedSessions(w: World, c: ConnectionId): set<Handle>
    requires c in w.connections
  {
    set id | id in w.connections[c].sessionIds && id in w.liveSessions :: w.liveSessions[id]
  }

  /** A session that loses a connection and meets maybeDispose. */
  function Without(w: World, c: ConnectionId, h: Handle): (w': World)
    requires h in w.sessions && h in w.runtimes
    ensures w'.sessions.Keys == w.sessions.Keys && w'.runtimes.Keys == w.runtimes.Keys
  {
    MaybeDispose(w.SetSession(h, Less(w.sessions[h], c)), h)
  }

  /** Removing a connection from some sessions, which may leave each of them to be disposed. */
  function RemoveFromAll(w: World, c: ConnectionId, lives: set<Handle>): (w': World)
    requires lives <= w.sessions.Keys <= w.runtimes.Keys
    ensures w' == w.(sessions := w'.sessions, runtimes := w'.runtimes)
  {
    w.(sessions := map h | h in w.sessions :: if h in lives then Without(w, c, h).sessions[h] else w.sessions[h],
       runtimes := map h | h in w.runtimes :: if h in lives then Without(w, c, h).runtimes[h] else w.runtimes[h])
  }

  /** Server disconnect followed by LiveSessionManager.disconnect, up to its first await. */
  function Disconnect(w: World, c: ConnectionId): World
    requires c in w.connections && MappedSessions(w, c) <= w.sessions.Keys <= w.runtimes.Keys
  {
    var k := w.connections[c];
    if k.disconnected then w
    else
      RemoveFromAll(w, c, MappedSessions(w, c)).(
        connections := w.connections[c := Connection({}, true, false, k.closed)])
  }

  /** detach, once a session has lost the connection: the others are told, or the session may be disposed. */
  function TellOrDispose(w: World, t: TaskId, h: Handle): World
    requires h in w.sessions && h in w.runtimes
  {
    var s := w.sessions[h];
    if s.connections != {} && !s.terminal && s.disposing == NotDisposing then w.SetTask(t, DetachBroadcast(h))
      else MaybeDispose(w, h)
  }

  function Detach(w: World, t: TaskId, c: ConnectionId, id: SessionId): World
    requires c in w.connections
             && (id in w.liveSessions ==> w.liveSessions[id] in w.sessions && w.liveSessions[id] in w.runtimes)
  {
    var k := w.connections[c];
    if id !in k.sessionIds then w
    else
      var w1 := w.(connections := w.connections[c := k.(sessionIds := k.sessionIds - {id})]);
      if id !in w.liveSessions then w1
      else
        var h := w.liveSessions[id];
        TellOrDispose(w1.SetSession(h, Less(w.sessions[h], c)), t, h)
  }

  /** Whether a command that needs an attached session is admitted. */
  predicate RequireAttached(w: World, c: ConnectionId, id: SessionId)
    requires c in w.connections && (id in w.liveSessions ==> w.liveSessions[id] in w.sessions)
  {
    id in w.connections[c].sessionIds && id in w.liveSessions &&
    var s := w.sessions[w.liveSessions[id]]; !s.terminal && s.disposing == NotDisposing
  }

  datatype Event =
    | Connects(c: ConnectionId)
    | ConnectionChanges(c: ConnectionId, ready: bool, closed: bool)
    | Disconnects(c: ConnectionId)
    | AttachCommand(t: TaskId, c: ConnectionId, id: SessionId)
    | DetachCommand(t: TaskId, c: ConnectionId, id: SessionId)
    | OperationCommand(t: TaskId, c: ConnectionId, id: SessionId)
    | DisposingResumes(t: TaskId)
    | OpeningResumes(t: TaskId)
    | RuntimeOpened(t: TaskId, h: Handle, idle: bool)
    | OpenFails(t: TaskId)
    | SnapshotReturns(t: TaskId, accepted: bool)
    | DiscardReturns(t: TaskId)
    | CreateResumes(t: TaskId)
    | AttachResumes(t: TaskId)
    | OperationEnds(t: TaskId)
    | DetachResumes(t: TaskId, ok: bool)
    | TerminateDisconnects(t: TaskId, c: ConnectionId)
    | TerminateResumes(t: TaskId)
    | RuntimeDisposes(h: Handle)
    | DisposalReturns(h: Handle, ok: bool)
    | PhaseChanges(h: Handle, idle: bool)
    | RuntimeEvent(h: Handle)
    | RuntimeError(t: TaskId, h: Handle)
    | CloseBegins
    | CloseSessions
    | CloseClears
    | CloseEnds

  predicate Fresh(w: World, t: TaskId) { t !in w.tasks && t !in w.promises }

  /** When the environment can make a step happen. */
  predicate Enabled(w: World, e: Event) {
    match e
    case Connects(c) => c !in w.connections
    case ConnectionChanges(c, _, _) => c in w.connections && !w.connections[c].disconnected
    case Disconnects(c) => c in w.connections
    case AttachCommand(t, c, _) => c in w.connections && Fresh(w, t)
    case DetachCommand(t, c, _) => c in w.connections && Fresh(w, t)
    case OperationCommand(t, c, id) =>
      c in w.connections && Fresh(w, t) && (id in w.liveSessions ==> w.liveSessions[id] in w.sessions)
          && RequireAttached(w, c, id)
    case DisposingResumes(t) =>
      t in w.tasks && w.tasks[t].WaitDisposing? && w.tasks[t].live in w.sessions
      && w.sessions[w.tasks[t].live].disposing.DisposalSettled?
    case OpeningResumes(t) =>
      t in w.tasks && w.tasks[t].WaitOpening? && w.tasks[t].creator in w.promises
          && !w.promises[w.tasks[t].creator].Pending?
    case RuntimeOpened(t, h, _) => t in w.tasks && w.tasks[t].AwaitRuntime? && h !in w.runtimes && h !in w.sessions
    case OpenFails(t) => t in w.tasks && w.tasks[t].AwaitRuntime?
    case SnapshotReturns(t, _) => t in w.tasks && w.tasks[t].AwaitSnapshot? && w.tasks[t].live in w.runtimes
    case DiscardReturns(t) =>
      t in w.tasks && w.tasks[t].AwaitDiscard? && w.tasks[t].live in w.runtimes
          && w.runtimes[w.tasks[t].live].status == Disposed
    case CreateResumes(t) => t in w.tasks && w.tasks[t].CreateSettled? && t in w.promises
    case AttachResumes(t) => t in w.tasks && w.tasks[t].Acquired?
    case OperationEnds(t) => t in w.tasks && w.tasks[t].Operating?
    case DetachResumes(t, _) => t in w.tasks && w.tasks[t].DetachBroadcast?
    case TerminateDisconnects(t, c) => t in w.tasks && w.tasks[t].Terminating? && c in w.tasks[t].connections
    case TerminateResumes(t) => t in w.tasks && w.tasks[t].Terminating? && w.tasks[t].connections == {}
    case RuntimeDisposes(h) => h in w.runtimes && w.runtimes[h].status == BeingDisposed
    case DisposalReturns(h, _) =>
      h in w.sessions && h in w.runtimes && w.sessions[h].disposing == Disposing && w.runtimes[h].status == Disposed
    case PhaseChanges(h, _) => h in w.runtimes
    case RuntimeEvent(h) => h in w.sessions && h in w.runtimes
    case RuntimeError(t, h) => h in w.sessions && Fresh(w, t)
    case CloseBegins => !w.IsClosing()
    case CloseSessions => w.closing == Closing
    case CloseClears =>
      w.closing.WaitingForCreates? && forall t :: t in w.closing.creators ==> t in w.promises && !w.promises[t].Pending?
    case CloseEnds =>
      w.closing.Draining? && forall h :: h in w.closing.lives ==> h in w.runtimes && w.runtimes[h].status == Disposed
  }

  /** The references between the parts of the state that every step relies on. */
  ghost predicate Linked(w: World) {
    && SessionsLinked(w.liveSessions, w.sessions, w.runtimes, w.connections.Keys)
    && TasksLinked(w.tasks, w.promises, w.sessions, w.runtimes, w.connections.Keys)
  }

  ghost predicate SessionsLinked(
    liveSessions: map<SessionId, Handle>, sessions: map<Handle, LiveSession>, runtimes: map<Handle, Runtime>,
    connections: set<ConnectionId>)
  {
    && (forall id :: id in liveSessions ==> liveSessions[id] in sessions && sessions[liveSessions[id]].id == id)
    && (forall h :: h in sessions ==>
          h in runtimes && sessions[h].id == runtimes[h].id && sessions[h].connections <= connections)
  }

  ghost predicate TasksLinked(
    tasks: map<TaskId, Task>, promises: map<TaskId, CreatePromise>, sessions: map<Handle, LiveSession>,
    runtimes: map<Handle, Runtime>, connections: set<ConnectionId>)
  {
    forall t :: t in tasks ==> TaskLinked(t, tasks[t], promises, sessions, runtimes, connections)
  }

  ghost predicate Created(promise: CreatePromise, id: SessionId, sessions: map<Handle, LiveSession>) {
    promise.Resolved? ==> promise.live in sessions && sessions[promise.live].id == id
  }

  ghost predicate TaskLinked(
    t: TaskId, task: Task, promises: map<TaskId, CreatePromise>, sessions: map<Handle, LiveSession>,
    runtimes: map<Handle, Runtime>, connections: set<ConnectionId>)
  {
    match task
    case WaitDisposing(c, id, h) => c in connections && h in sessions && sessions[h].id == id && t !in promises
    case WaitOpening(c, id, u) =>
      && c in connections && u in promises && Created(promises[u], id, sessions)
      && (promises[u].Pending? ==> promises[u].id == id)
    case AwaitRuntime(c, id) => c in connections && t in promises && promises[t] == Pending(id)
    case AwaitSnapshot(c, id, h) =>
      c in connections && t in promises && promises[t] == Pending(id) && h in runtimes && runtimes[h].id == id
          && h !in sessions
    case AwaitDiscard(c, id, h) =>
      c in connections && t in promises && promises[t] == Pending(id) && h in runtimes && runtimes[h].id == id
          && h !in sessions
    case CreateSettled(c, id) =>
      c in connections && t in promises && !promises[t].Pending? && Created(promises[t], id, sessions)
    case Acquired(c, id, h) => c in connections && h in sessions && sessions[h].id == id
    case Operating(h) => h in sessions
    case DetachBroadcast(h) => h in sessions
    case Terminating(h, cs) => h in sessions && cs <= connections
  }

  /** The promise of create settles; the creating task resumes in a later step. */
  function SettleCreate(w: World, t: TaskId, outcome: CreatePromise): World
    requires t in w.tasks && Creating(w.tasks[t])
  {
    w.(promises := w.promises[t := outcome]).SetTask(t, CreateSettled(w.tasks[t].connection, w.tasks[t].id))
  }

  /** runOperation, up to its first await. */
  function Operate(w: World, t: TaskId, h: Handle): World
    requires h in w.sessions
  {
    w.SetSession(h, w.sessions[h].(operationCount := w.sessions[h].operationCount + 1)).SetTask(t, Operating(h))
  }

  function EndOperation(w: World, t: TaskId): World
    requires t in w.tasks && w.tasks[t].Operating? && w.tasks[t].live in w.sessions && w.tasks[t].live in w.runtimes
    requires w.sessions[w.tasks[t].live].operationCount > 0
  {
    var h := w.tasks[t].live;
    MaybeDispose(
      w.EndTask(t).SetSession(h, w.sessions[h].(operationCount := w.sessions[h].operationCount - 1)), h)
  }

  /** create, after the service has returned a runtime; a closing server disposes it at once. */
  function OpenRuntime(w: World, t: TaskId, h: Handle, idle: bool): World
    requires t in w.tasks && w.tasks[t].AwaitRuntime?
  {
    var c, id := w.tasks[t].connection, w.tasks[t].id;
    var runtime := if w.IsClosing() then Runtime(id, BeingDisposed, 1, idle) else Runtime(id, Running, 0, idle);
    var task := if w.IsClosing() then AwaitDiscard(c, id, h) else AwaitSnapshot(c, id, h);
    w.(runtimes := w.runtimes[h := runtime]).SetTask(t, task)
  }

  /** create, after the runtime has returned its first snapshot. */
  function ReturnSnapshot(w: World, t: TaskId, accepted: bool): World
    requires t in w.tasks && w.tasks[t].AwaitSnapshot? && w.tasks[t].live in w.runtimes
  {
    var id, h := w.tasks[t].id, w.tasks[t].live;
    if accepted then
      SettleCreate(
        w.SetSession(h, LiveSession(id, {}, 0, false, NotDisposing)).(liveSessions := w.liveSessions[id := h]), t,
            Resolved(h))
    else w.CallDispose(h).SetTask(t, AwaitDiscard(w.tasks[t].connection, id, h))
  }

  /** acquire, after its own create has settled. */
  function ResumeCreate(w: World, t: TaskId): World
    requires t in w.tasks && w.tasks[t].CreateSettled? && t in w.promises
  {
    var c, id, promise := w.tasks[t].connection, w.tasks[t].id, w.promises[t];
    w.(openingSessions := if id in w.openingSessions && w.openingSessions[id] == t then w.openingSessions - {id}
      else w.openingSessions,
       tasks := if promise.Resolved? then w.tasks[t := Acquired(c, id, promise.live)] else w.tasks - {t})
  }

  /** The disposal started by maybeDispose has settled. */
  function ReturnDisposal(w: World, h: Handle, ok: bool): World
    requires h in w.sessions
  {
    var s := w.sessions[h];
    w.(sessions := w.sessions[h := s.(disposing := DisposalSettled(ok))],
       liveSessions := if s.id in w.liveSessions && w.liveSessions[s.id] == h then w.liveSessions - {s.id}
         else w.liveSessions)
  }

  function Terminate(w: World, t: TaskId, h: Handle): World
    requires h in w.sessions
  {
    var s := w.sessions[h];
    if s.terminal then w else w.SetSession(h, s.(terminal := true)).SetTask(t, Terminating(h, s.connections))
  }

  /** close, after every pending create has settled: the map is emptied and what it held is disposed. */
  function ClearSessions(w: World): World
    requires w.sessions.Keys <= w.runtimes.Keys
  {
    w.(liveSessions := map[], closing := Draining(w.liveSessions.Values),
       runtimes := map h | h in w.runtimes ::
         if h in w.liveSessions.Values && h in w.sessions && w.sessions[h].disposing == NotDisposing
         then DisposeCalled(w.runtimes[h])
         else w.runtimes[h])
  }

  /** Whether the session listens to its runtime: terminate and maybeDispose unsubscribe. */
  predicate Subscribed(w: World, h: Handle) {
    h in w.sessions && !w.sessions[h].terminal && w.sessions[h].disposing == NotDisposing
  }

  /** Every runtime that became idle has told its session, if that still listens. */
  predicate EventsDelivered(w: World) { forall h :: h in w.idleEvents ==> !Subscribed(w, h) }

  function ChangePhase(w: World, h: Handle, idle: bool): World
    requires h in w.runtimes
  {
    w.(runtimes := w.runtimes[h := w.runtimes[h].(idle := idle)],
       idleEvents := if idle && Subscribed(w, h) then w.idleEvents + {h} else w.idleEvents)
  }

  /** acquire resumes once the disposal it waited for has settled. */
  function ResumeDisposing(w: World, t: TaskId): World
    requires Linked(w) && Enabled(w, DisposingResumes(t))
  {
    if w.sessions[w.tasks[t].live].disposing.ok then Acquire(w, t, w.tasks[t].connection, w.tasks[t].id)
      else w.EndTask(t)
  }

  /** acquire resumes once the create of another task has settled. */
  function ResumeOpening(w: World, t: TaskId): World
    requires Enabled(w, OpeningResumes(t))
  {
    var p := w.promises[w.tasks[t].creator];
    if p.Resolved? then w.SetTask(t, Acquired(w.tasks[t].connection, w.tasks[t].id, p.live)) else w.EndTask(t)
  }

  /** A command resumes from acquire. */
  function ResumeAttach(w: World, t: TaskId): World
    requires Linked(w) && Enabled(w, AttachResumes(t))
  {
    assert TaskLinked(t, w.tasks[t], w.promises, w.sessions, w.runtimes, w.connections.Keys);
    Attach(w.EndTask(t), w.tasks[t].connection, w.tasks[t].live)
  }

  /** detach resumes from its broadcast, which may have failed. */
  function ResumeDetach(w: World, t: TaskId, ok: bool): World
    requires Linked(w) && Enabled(w, DetachResumes(t, ok))
  {
    assert TaskLinked(t, w.tasks[t], w.promises, w.sessions, w.runtimes, w.connections.Keys);
    if ok then MaybeDispose(w.EndTask(t), w.tasks[t].live) else w.EndTask(t)
  }

  /** terminate disconnects one of the connections it found. */
  function TerminateOne(w: World, t: TaskId, c: ConnectionId): World
    requires Linked(w) && Enabled(w, TerminateDisconnects(t, c))
  {
    assert TaskLinked(t, w.tasks[t], w.promises, w.sessions, w.runtimes, w.connections.Keys);
    Disconnect(w.SetTask(t, Terminating(w.tasks[t].live, w.tasks[t].connections - {c})), c)
  }

  /** terminate resumes after its last connection. */
  function ResumeTerminate(w: World, t: TaskId): World
    requires Linked(w) && Enabled(w, TerminateResumes(t))
  {
    assert TaskLinked(t, w.tasks[t], w.promises, w.sessions, w.runtimes, w.connections.Keys);
    MaybeDispose(w.EndTask(t), w.tasks[t].live)
  }

  /** Whether an operation ends that the count of its session includes. */
  predicate CountedEnd(w: World, e: Event) {
    e.OperationEnds? ==>
      && e.t in w.tasks && w.tasks[e.t].Operating? && w.tasks[e.t].live in w.sessions
      && w.sessions[w.tasks[e.t].live].operationCount > 0
  }

  function Apply(w: World, e: Event): World
    requires Linked(w) && Enabled(w, e) && CountedEnd(w, e)
  {
    hide TasksLinked;
    match e
    case Connects(c) => w.(connections := w.connections[c := Connection({}, false, true, false)])
    case ConnectionChanges(c, ready, closed) =>
      w.(connections := w.connections[c := w.connections[c].(ready := ready, closed := closed)])
    case Disconnects(c) => Disconnect(w, c)
    case AttachCommand(t, c, id) => Acquire(w, t, c, id)
    case DetachCommand(t, c, id) => Detach(w, t, c, id)
    case OperationCommand(t, c, id) => Operate(w, t, w.liveSessions[id])
    case DisposingResumes(t) => ResumeDisposing(w, t)
    case OpeningResumes(t) => ResumeOpening(w, t)
    case RuntimeOpened(t, h, idle) => OpenRuntime(w, t, h, idle)
    case OpenFails(t) => SettleCreate(w, t, Rejected)
    case SnapshotReturns(t, accepted) => ReturnSnapshot(w, t, accepted)
    case DiscardReturns(t) => SettleCreate(w, t, Rejected)
    case CreateResumes(t) => ResumeCreate(w, t)
    case AttachResumes(t) => ResumeAttach(w, t)
    case OperationEnds(t) => EndOperation(w, t)
    case DetachResumes(t, ok) => ResumeDetach(w, t, ok)
    case TerminateDisconnects(t, c) => TerminateOne(w, t, c)
    case TerminateResumes(t) => ResumeTerminate(w, t)
    case RuntimeDisposes(h) => w.SetStatus(h, Disposed)
    case DisposalReturns(h, ok) => ReturnDisposal(w, h, ok)
    case PhaseChanges(h, idle) => ChangePhase(w, h, idle)
    case RuntimeEvent(h) => MaybeDispose(w.(idleEvents := w.idleEvents - {h}), h)
    case RuntimeError(t, h) => Terminate(w, t, h)
    case CloseBegins => w.(closing := Closing)
    case CloseSessions => w.(closing := WaitingForCreates(w.openingSessions.Values))
    case CloseClears => ClearSessions(w)
    case CloseEnds => w.(closing := Closed)
  }
}
