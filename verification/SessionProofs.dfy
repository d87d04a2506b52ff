/** What every interleaving of the session protocol keeps. */
module SessionProofs {
  import opened Wrappers
  import opened SessionModel

  /** openingSessions holds exactly the invocations of create that acquire has not yet resumed from. */
  ghost predicate Opening(openingSessions: map<SessionId, TaskId>, tasks: map<TaskId, Task>,
                          liveSessions: map<SessionId, Handle>) {
    && (forall id :: id in openingSessions ==>
          openingSessions[id] in tasks && Creating(tasks[openingSessions[id]]) && tasks[openingSessions[id]].id == id)
    && (forall t :: t in tasks && Creating(tasks[t]) ==>
          && tasks[t].id in openingSessions && openingSessions[tasks[t].id] == t
          && (!tasks[t].CreateSettled? ==> tasks[t].id !in liveSessions))
  }

  predicate Holds(task: Task, h: Handle) {
    (task.AwaitSnapshot? || task.AwaitDiscard?) && task.live == h
  }

  /** A runtime of no session that is not disposed is held by the task that is opening its id. */
  ghost predicate Kept(runtimes: map<Handle, Runtime>, sessions: map<Handle, LiveSession>,
                       openingSessions: map<SessionId, TaskId>, tasks: map<TaskId, Task>)
  {
    forall h :: h in runtimes && h !in sessions && runtimes[h].status != Disposed ==>
      && runtimes[h].id in openingSessions && openingSessions[runtimes[h].id] in tasks
      && Holds(tasks[openingSessions[runtimes[h].id]], h)
  }

  /** dispose was called exactly on the runtimes that do not run, and once; sessions own their runtimes. */
  ghost predicate Owned(runtimes: map<Handle, Runtime>, sessions: map<Handle, LiveSession>,
                        liveSessions: map<SessionId, Handle>, closing: ClosePhase)
  {
    forall h :: h in runtimes ==>
      && runtimes[h].disposeCalls == (if runtimes[h].status == Running then 0 else 1)
      && (h in sessions ==>
         SessionOwned(h, runtimes[h].status, sessions[h].id, sessions[h].disposing, liveSessions, closing))
  }

  predicate Cleared(closing: ClosePhase) { closing.Draining? || closing.Closed? }

  ghost predicate SessionOwned(h: Handle, status: RuntimeStatus, id: SessionId, disposing: Disposal,
                               liveSessions: map<SessionId, Handle>, closing: ClosePhase)
  {
    var mapped := id in liveSessions && liveSessions[id] == h;
    && (disposing == NotDisposing && !Cleared(closing) ==> mapped && status == Running)
    && (disposing == Disposing ==> status != Running && (!Cleared(closing) ==> mapped))
    && (disposing.DisposalSettled? ==> status == Disposed)
    && (closing.Draining? ==> status != Running && (status != Disposed ==> h in closing.lives))
    && (closing.Closed? ==> status == Disposed)
  }

  /** What the status of a runtime says about the task that holds it; none can become live once the map is cleared. */
  ghost predicate Held(runtimes: map<Handle, Runtime>, liveSessions: map<SessionId, Handle>, tasks: map<TaskId, Task>,
                       closing: ClosePhase) {
    && (Cleared(closing) ==> liveSessions == map[])
    && (forall t :: t in tasks && tasks[t].AwaitSnapshot? ==>
          && tasks[t].live in runtimes && runtimes[tasks[t].live].status == Running
          && !Cleared(closing) && (closing.WaitingForCreates? ==> t in closing.creators))
    && (forall t :: t in tasks && tasks[t].AwaitDiscard? ==>
          tasks[t].live in runtimes && runtimes[tasks[t].live].status != Running)
  }

  /** A connection listed by a mapped session holds its id and is not disconnected. */
  ghost predicate Mapped(liveSessions: map<SessionId, Handle>, sessions: map<Handle, LiveSession>,
                         connections: map<ConnectionId, Connection>) {
    forall id, c :: id in liveSessions && liveSessions[id] in sessions
                    && c in sessions[liveSessions[id]].connections ==>
      c in connections && id in connections[c].sessionIds && !connections[c].disconnected
  }

  function OperationsOn(tasks: map<TaskId, Task>, h: Handle): set<TaskId> {
    set t | t in tasks && tasks[t] == Operating(h)
  }

  /** The operation count is the number of operations in flight, and none is in flight during a disposal. */
  ghost predicate Counted(sessions: map<Handle, LiveSession>, tasks: map<TaskId, Task>) {
    forall h :: h in sessions ==>
      && sessions[h].operationCount == |OperationsOn(tasks, h)|
      && (sessions[h].disposing != NotDisposing ==> sessions[h].operationCount == 0)
  }

  ghost predicate Sound(w: World) {
    && Linked(w)
    && Opening(w.openingSessions, w.tasks, w.liveSessions)
    && Kept(w.runtimes, w.sessions, w.openingSessions, w.tasks)
    && Owned(w.runtimes, w.sessions, w.liveSessions, w.closing)
    && Held(w.runtimes, w.liveSessions, w.tasks, w.closing)
    && Mapped(w.liveSessions, w.sessions, w.connections)
    && Counted(w.sessions, w.tasks)
  }

  /** A session that maybeDispose would dispose. */
  predicate Disposable(w: World, h: Handle) {
    h in w.sessions && h in w.runtimes &&
    var s := w.sessions[h];
    s.disposing == NotDisposing && s.connections == {} && s.operationCount == 0 && (s.terminal || w.runtimes[h].idle)
  }

  /** A task that will call maybeDispose on the session, or attach a connection to it. */
  ghost predicate Tends(tasks: map<TaskId, Task>, promises: map<TaskId, CreatePromise>, t: TaskId, h: Handle) {
    t in tasks &&
    match tasks[t]
    case CreateSettled(_, _) => t in promises && promises[t] == Resolved(h)
    case Acquired(_, _, live) => live == h
    case Terminating(live, _) => live == h
    case _ => false
  }

  ghost predicate Tended(w: World, h: Handle) {
    (h in w.idleEvents && h in w.sessions && !w.sessions[h].terminal) || exists t :: Tends(w.tasks, w.promises, t, h)
  }

  /** Someone will look after every disposable mapped session, apart from the exempt ones. */
  ghost predicate Obliged(w: World, exempt: set<Handle>) {
    !w.IsClosing() ==>
      forall id :: id in w.liveSessions && Disposable(w, w.liveSessions[id]) ==>
        w.liveSessions[id] in exempt || Tended(w, w.liveSessions[id])
  }

  ghost predicate Inv(w: World, exempt: set<Handle>) {
    Sound(w) && Obliged(w, exempt)
  }

  lemma InitInv()
    ensures Inv(Init, {})
  {
  }

  lemma OperationsAfterSet(tasks: map<TaskId, Task>, t: TaskId, task: Task)
    ensures forall h :: OperationsOn(tasks[t := task], h) ==
              if task == Operating(h) then OperationsOn(tasks, h) + {t} else OperationsOn(tasks, h) - {t}
  {
  }

  /** A task that holds neither a runtime nor an operation. */
  predicate Light(task: Task) { !Creating(task) && !task.Operating? }

  /** `tasks'` differs from `tasks` only in light tasks. */
  ghost predicate LightChange(tasks: map<TaskId, Task>, tasks': map<TaskId, Task>) {
    && (forall t :: t in tasks && !Light(tasks[t]) ==> t in tasks' && tasks'[t] == tasks[t])
    && (forall t :: t in tasks' && !Light(tasks'[t]) ==> t in tasks && tasks'[t] == tasks[t])
  }

  lemma LightOpening(openingSessions: map<SessionId, TaskId>, tasks: map<TaskId, Task>, tasks': map<TaskId, Task>,
                     liveSessions: map<SessionId, Handle>)
    requires Opening(openingSessions, tasks, liveSessions) && LightChange(tasks, tasks')
    ensures Opening(openingSessions, tasks', liveSessions)
  {
  }

  lemma LightKept(runtimes: map<Handle, Runtime>, sessions: map<Handle, LiveSession>,
                  openingSessions: map<SessionId, TaskId>, tasks: map<TaskId, Task>, tasks': map<TaskId, Task>)
    requires Kept(runtimes, sessions, openingSessions, tasks) && LightChange(tasks, tasks')
    ensures Kept(runtimes, sessions, openingSessions, tasks')
  {
  }

  lemma LightHeld(w: World, tasks': map<TaskId, Task>)
    requires Held(w.runtimes, w.liveSessions, w.tasks, w.closing) && LightChange(w.tasks, tasks')
    ensures Held(w.runtimes, w.liveSessions, tasks', w.closing)
  {
  }

  lemma LightCounted(sessions: map<Handle, LiveSession>, tasks: map<TaskId, Task>, tasks': map<TaskId, Task>)
    requires Counted(sessions, tasks) && LightChange(tasks, tasks')
    ensures Counted(sessions, tasks')
  {
    assert forall h :: OperationsOn(tasks', h) == OperationsOn(tasks, h);
  }

  lemma LightKeeps(w: World, tasks': map<TaskId, Task>)
    requires Sound(w) && LightChange(w.tasks, tasks')
    requires TasksLinked(tasks', w.promises, w.sessions, w.runtimes, w.connections.Keys)
    ensures Sound(w.(tasks := tasks'))
  {
    LightOpening(w.openingSessions, w.tasks, tasks', w.liveSessions);
    LightKept(w.runtimes, w.sessions, w.openingSessions, w.tasks, tasks');
    LightHeld(w, tasks');
    LightCounted(w.sessions, w.tasks, tasks');
    hide Opening, Kept, Owned, Held, Counted, TasksLinked, LightChange, Mapped, SessionsLinked;
  }

  lemma SetTaskKeeps(w: World, t: TaskId, task: Task)
    requires Sound(w) && Light(task) && (t in w.tasks ==> Light(w.tasks[t]))
    requires TaskLinked(t, task, w.promises, w.sessions, w.runtimes, w.connections.Keys)
    ensures Sound(w.SetTask(t, task))
  {
    hide TaskLinked, Opening, Kept, Owned, Held, Counted, Mapped, SessionsLinked;
    LightKeeps(w, w.tasks[t := task]);
  }

  lemma EndTaskKeeps(w: World, t: TaskId)
    requires Sound(w) && (t in w.tasks ==> Light(w.tasks[t]))
    ensures Sound(w.EndTask(t))
  {
    hide TaskLinked, Opening, Kept, Owned, Held, Counted, Mapped, SessionsLinked;
    LightKeeps(w, w.tasks - {t});
  }

  lemma MaybeDisposeKeeps(w: World, h: Handle)
    requires Sound(w) && h in w.sessions
    ensures Sound(MaybeDispose(w, h))
  {
    hide Owned, Kept, Held, Mapped, Counted, TasksLinked, Opening;
    var w' := MaybeDispose(w, h);
    if w' != w {
      assert w' == w.(sessions := w'.sessions, runtimes := w'.runtimes);
      assert SessionsLinked(w'.liveSessions, w'.sessions, w'.runtimes, w'.connections.Keys);
      TasksLinkedKept(w, w');
      hide SessionsLinked;
      HoldersAreNot(w, h);
      MaybeDisposeOwned(w, h);
      MaybeDisposeHeld(w, h);
      MaybeDisposeParts(w, h);
    }
  }

  lemma MaybeDisposeOwned(w: World, h: Handle)
    requires Owned(w.runtimes, w.sessions, w.liveSessions, w.closing) && h in w.sessions && h in w.runtimes
    ensures var w' := MaybeDispose(w, h); Owned(w'.runtimes, w'.sessions, w'.liveSessions, w'.closing)
  {
  }

  lemma MaybeDisposeHeld(w: World, h: Handle)
    requires Held(w.runtimes, w.liveSessions, w.tasks, w.closing) && h in w.sessions && h in w.runtimes
    requires forall t :: t in w.tasks && (w.tasks[t].AwaitSnapshot? || w.tasks[t].AwaitDiscard?) ==>
             w.tasks[t].live != h
    ensures var w' := MaybeDispose(w, h); Held(w'.runtimes, w'.liveSessions, w'.tasks, w'.closing)
  {
  }

  lemma MaybeDisposeParts(w: World, h: Handle)
    requires Kept(w.runtimes, w.sessions, w.openingSessions, w.tasks) && h in w.sessions && h in w.runtimes
    requires Mapped(w.liveSessions, w.sessions, w.connections) && Counted(w.sessions, w.tasks)
    ensures var w' := MaybeDispose(w, h);
            && Kept(w'.runtimes, w'.sessions, w'.openingSessions, w'.tasks)
            && Mapped(w'.liveSessions, w'.sessions, w'.connections) && Counted(w'.sessions, w'.tasks)
  {
    hide OperationsOn;
  }

  /** No task holds the runtime of a session. */
  lemma HoldersAreNot(w: World, h: Handle)
    requires TasksLinked(w.tasks, w.promises, w.sessions, w.runtimes, w.connections.Keys) && h in w.sessions
    ensures forall t :: t in w.tasks && (w.tasks[t].AwaitSnapshot? || w.tasks[t].AwaitDiscard?) ==> w.tasks[t].live != h
  {
    forall t | t in w.tasks && (w.tasks[t].AwaitSnapshot? || w.tasks[t].AwaitDiscard?) ensures w.tasks[t].live != h {
      assert TaskLinked(t, w.tasks[t], w.promises, w.sessions, w.runtimes, w.connections.Keys);
    }
  }

  /** Sessions and runtimes that only change apart from their ids leave every reference intact. */
  lemma TasksLinkedKept(w: World, w': World)
    requires TasksLinked(w.tasks, w.promises, w.sessions, w.runtimes, w.connections.Keys)
    requires w'.tasks == w.tasks && w'.promises == w.promises && w.connections.Keys <= w'.connections.Keys
    requires w'.sessions.Keys == w.sessions.Keys && w'.runtimes.Keys == w.runtimes.Keys
    requires forall h :: h in w.sessions ==> w'.sessions[h].id == w.sessions[h].id
    requires forall h :: h in w.runtimes ==> w'.runtimes[h].id == w.runtimes[h].id
    ensures TasksLinked(w'.tasks, w'.promises, w'.sessions, w'.runtimes, w'.connections.Keys)
  {
    forall t | t in w.tasks
      ensures TaskLinked(t, w.tasks[t], w.promises, w'.sessions, w'.runtimes, w'.connections.Keys)
    {
      assert TaskLinked(t, w.tasks[t], w.promises, w.sessions, w.runtimes, w.connections.Keys);
    }
  }

  lemma AcquireKeeps(w: World, t: TaskId, c: ConnectionId, id: SessionId)
    requires Sound(w) && c in w.connections && t !in w.promises && (t in w.tasks ==> w.tasks[t].WaitDisposing?)
    ensures Sound(Acquire(w, t, c, id))
  {
    hide Kept, Owned, Held, Opening, Mapped, Counted, TasksLinked;
    if id in w.liveSessions {
      var h := w.liveSessions[id];
      if w.sessions[h].terminal {
        EndTaskKeeps(w, t);
      } else {
        SetTaskKeeps(w, t, if w.sessions[h].disposing != NotDisposing then WaitDisposing(c, id, h)
          else Acquired(c, id, h));
      }
    } else if id in w.openingSessions {
      CreatorLinked(w, id);
      SetTaskKeeps(w, t, WaitOpening(c, id, w.openingSessions[id]));
    } else {
      BeginCreateKeeps(w, t, c, id);
    }
  }

  lemma CreatorLinked(w: World, id: SessionId)
    requires Sound(w) && id in w.openingSessions
    ensures w.openingSessions[id] in w.promises && Created(w.promises[w.openingSessions[id]], id, w.sessions)
    ensures w.promises[w.openingSessions[id]].Pending? ==> w.promises[w.openingSessions[id]].id == id
  {
    var t := w.openingSessions[id];
    assert TaskLinked(t, w.tasks[t], w.promises, w.sessions, w.runtimes, w.connections.Keys);
  }

  /** A creating task stays one, for the same id; it settles at most once. */
  ghost predicate CreateStep(task: Task, task': Task) {
    Creating(task) && !task.CreateSettled? && Creating(task') && task'.id == task.id
        && task'.connection == task.connection
  }

  lemma CreateStepOpening(openingSessions: map<SessionId, TaskId>, tasks: map<TaskId, Task>, t: TaskId, task': Task,
                          liveSessions: map<SessionId, Handle>)
    requires Opening(openingSessions, tasks, liveSessions) && t in tasks && CreateStep(tasks[t], task')
    ensures Opening(openingSessions, tasks[t := task'], liveSessions)
  {
  }

  lemma NoOperationCounted(sessions: map<Handle, LiveSession>, tasks: map<TaskId, Task>, t: TaskId, task': Task)
    requires Counted(sessions, tasks) && !task'.Operating? && (t in tasks ==> !tasks[t].Operating?)
    ensures Counted(sessions, tasks[t := task'])
  {
    OperationsAfterSet(tasks, t, task');
    assert forall h :: OperationsOn(tasks, h) - {t} == OperationsOn(tasks, h);
  }

  lemma BeginOpening(openingSessions: map<SessionId, TaskId>, tasks: map<TaskId, Task>, t: TaskId, c: ConnectionId,
                     id: SessionId, liveSessions: map<SessionId, Handle>)
    requires Opening(openingSessions, tasks, liveSessions) && (t in tasks ==> Light(tasks[t]))
    requires id !in liveSessions && id !in openingSessions
    ensures Opening(openingSessions[id := t], tasks[t := AwaitRuntime(c, id)], liveSessions)
  {
  }

  lemma BeginKept(w: World, t: TaskId, c: ConnectionId, id: SessionId)
    requires Kept(w.runtimes, w.sessions, w.openingSessions, w.tasks) && (t in w.tasks ==> Light(w.tasks[t]))
    requires id !in w.openingSessions
    ensures Kept(w.runtimes, w.sessions, w.openingSessions[id := t], w.tasks[t := AwaitRuntime(c, id)])
  {
  }

  /** A new promise, or the settling of one, leaves the references of all other tasks intact. */
  lemma PromiseLinked(w: World, t: TaskId, task': Task, p: CreatePromise)
    requires TasksLinked(w.tasks, w.promises, w.sessions, w.runtimes, w.connections.Keys)
    requires t in w.promises ==> w.promises[t].Pending? && p == Rejected
    requires TaskLinked(t, task', w.promises[t := p], w.sessions, w.runtimes, w.connections.Keys)
    ensures TasksLinked(w.tasks[t := task'], w.promises[t := p], w.sessions, w.runtimes, w.connections.Keys)
  {
    var tasks', promises' := w.tasks[t := task'], w.promises[t := p];
    forall u | u in tasks' ensures TaskLinked(u, tasks'[u], promises', w.sessions, w.runtimes, w.connections.Keys) {
      if u != t { assert TaskLinked(u, w.tasks[u], w.promises, w.sessions, w.runtimes, w.connections.Keys); }
    }
  }

  lemma BeginCreateKeeps(w: World, t: TaskId, c: ConnectionId, id: SessionId)
    requires Sound(w) && c in w.connections && t !in w.promises && (t in w.tasks ==> Light(w.tasks[t]))
    requires id !in w.liveSessions && id !in w.openingSessions
    ensures Sound(w.SetTask(t, AwaitRuntime(c, id)).(
                openingSessions := w.openingSessions[id := t], promises := w.promises[t := Pending(id)]))
  {
    NoOperationCounted(w.sessions, w.tasks, t, AwaitRuntime(c, id));
    BeginOpening(w.openingSessions, w.tasks, t, c, id, w.liveSessions);
    BeginKept(w, t, c, id);
    PromiseLinked(w, t, AwaitRuntime(c, id), Pending(id));
    hide Kept, Owned, Opening, Mapped, Counted, SessionsLinked, TasksLinked;
  }

  lemma SettleKept(w: World, t: TaskId, task': Task)
    requires Kept(w.runtimes, w.sessions, w.openingSessions, w.tasks) && t in w.tasks
    requires forall h :: h in w.runtimes && Holds(w.tasks[t], h) ==> w.runtimes[h].status == Disposed
    ensures Kept(w.runtimes, w.sessions, w.openingSessions, w.tasks[t := task'])
  {
  }

  lemma RejectCreateKeeps(w: World, t: TaskId)
    requires Sound(w) && t in w.tasks
    requires w.tasks[t].AwaitRuntime? ||
             (w.tasks[t].AwaitDiscard? && w.tasks[t].live in w.runtimes
                 && w.runtimes[w.tasks[t].live].status == Disposed)
    ensures Sound(SettleCreate(w, t, Rejected))
  {
    hide Kept, Owned, Opening, Mapped, Counted, SessionsLinked;
    var task' := CreateSettled(w.tasks[t].connection, w.tasks[t].id);
    assert TaskLinked(t, w.tasks[t], w.promises, w.sessions, w.runtimes, w.connections.Keys);
    NoOperationCounted(w.sessions, w.tasks, t, task');
    CreateStepOpening(w.openingSessions, w.tasks, t, task', w.liveSessions);
    SettleKept(w, t, task');
    PromiseLinked(w, t, task', Rejected);
    hide TasksLinked, TaskLinked;
  }

  lemma NewRuntimeLinked(w: World, h: Handle, r: Runtime, t: TaskId, task': Task)
    requires TasksLinked(w.tasks, w.promises, w.sessions, w.runtimes, w.connections.Keys)
    requires h in w.runtimes ==> r.id == w.runtimes[h].id
    requires TaskLinked(t, task', w.promises, w.sessions, w.runtimes[h := r], w.connections.Keys)
    ensures TasksLinked(w.tasks[t := task'], w.promises, w.sessions, w.runtimes[h := r], w.connections.Keys)
  {
    var tasks', runtimes' := w.tasks[t := task'], w.runtimes[h := r];
    forall u | u in tasks' ensures TaskLinked(u, tasks'[u], w.promises, w.sessions, runtimes', w.connections.Keys) {
      if u != t { assert TaskLinked(u, w.tasks[u], w.promises, w.sessions, w.runtimes, w.connections.Keys); }
    }
  }

  lemma HolderKept(w: World, h: Handle, r: Runtime, t: TaskId, task': Task)
    requires Kept(w.runtimes, w.sessions, w.openingSessions, w.tasks)
    requires r.id in w.openingSessions && w.openingSessions[r.id] == t && t in w.tasks && Holds(task', h)
    requires forall g :: g in w.runtimes && Holds(w.tasks[t], g) ==> g == h
    ensures Kept(w.runtimes[h := r], w.sessions, w.openingSessions, w.tasks[t := task'])
  {
  }

  /** A held runtime runs until its holder discards it; only a server that is not closing takes one to keep. */
  predicate HoldsAs(task: Task, h: Handle, r: Runtime, closing: ClosePhase) {
    Holds(task, h) &&
    if task.AwaitSnapshot? then r.status == Running && r.disposeCalls == 0 && closing.NotClosing?
    else r.status == BeingDisposed && r.disposeCalls == 1
  }

  lemma NewRuntimeHeld(w: World, h: Handle, r: Runtime, t: TaskId, task': Task)
    requires Held(w.runtimes, w.liveSessions, w.tasks, w.closing)
    requires forall u :: u in w.tasks && u != t ==> !Holds(w.tasks[u], h)
    requires HoldsAs(task', h, r, w.closing)
    ensures Held(w.runtimes[h := r], w.liveSessions, w.tasks[t := task'], w.closing)
  {
    forall u | u in w.tasks && u != t && (w.tasks[u].AwaitSnapshot? || w.tasks[u].AwaitDiscard?)
      ensures w.tasks[u].live != h
    {
      assert !Holds(w.tasks[u], h);
    }
  }

  /** A creating task takes hold of a runtime, or discards the one it holds. */
  lemma HoldKeeps(w: World, t: TaskId, h: Handle, r: Runtime, task': Task)
    requires Sound(w) && t in w.tasks && CreateStep(w.tasks[t], task') && h !in w.sessions
    requires HoldsAs(task', h, r, w.closing)
    requires r.id == task'.id && (h in w.runtimes ==> r.id == w.runtimes[h].id)
    requires forall u :: u in w.tasks && u != t ==> !Holds(w.tasks[u], h)
    requires forall g :: g in w.runtimes && Holds(w.tasks[t], g) ==> g == h
    ensures Sound(w.(runtimes := w.runtimes[h := r]).SetTask(t, task'))
  {
    hide Kept, Held, Opening, Mapped, Counted, SessionOwned;
    assert TaskLinked(t, w.tasks[t], w.promises, w.sessions, w.runtimes, w.connections.Keys);
    OpeningOf(w, t);
    NoOperationCounted(w.sessions, w.tasks, t, task');
    CreateStepOpening(w.openingSessions, w.tasks, t, task', w.liveSessions);
    NewRuntimeLinked(w, h, r, t, task');
    hide TasksLinked, TaskLinked;
    HolderKept(w, h, r, t, task');
    NewRuntimeHeld(w, h, r, t, task');
  }

  lemma OpenRuntimeKeeps(w: World, t: TaskId, h: Handle, idle: bool)
    requires Sound(w) && Enabled(w, RuntimeOpened(t, h, idle))
    ensures Sound(OpenRuntime(w, t, h, idle))
  {
    hide Kept, Owned, Held, Opening, Mapped, Counted, SessionsLinked, TasksLinked;
    NotYetHeld(w, h);
    HeldInRuntimes(w, t);
    hide Sound, Linked, Enabled;
    var c, id := w.tasks[t].connection, w.tasks[t].id;
    if w.IsClosing() {
      HoldKeeps(w, t, h, Runtime(id, BeingDisposed, 1, idle), AwaitDiscard(c, id, h));
    } else {
      HoldKeeps(w, t, h, Runtime(id, Running, 0, idle), AwaitSnapshot(c, id, h));
    }
  }

  lemma NotYetHeld(w: World, h: Handle)
    requires TasksLinked(w.tasks, w.promises, w.sessions, w.runtimes, w.connections.Keys) && h !in w.runtimes
    ensures forall u :: u in w.tasks ==> !Holds(w.tasks[u], h)
  {
    forall u | u in w.tasks ensures !Holds(w.tasks[u], h) {
      assert TaskLinked(u, w.tasks[u], w.promises, w.sessions, w.runtimes, w.connections.Keys);
    }
  }

  lemma HeldInRuntimes(w: World, t: TaskId)
    requires t in w.tasks && w.tasks[t].AwaitRuntime?
    ensures forall g :: g in w.runtimes ==> !Holds(w.tasks[t], g)
  {
  }

  /** No two tasks hold the same runtime. */
  lemma HolderIsUnique(w: World, t: TaskId, u: TaskId, h: Handle)
    requires TasksLinked(w.tasks, w.promises, w.sessions, w.runtimes, w.connections.Keys)
    requires Opening(w.openingSessions, w.tasks, w.liveSessions)
    requires t in w.tasks && u in w.tasks && Holds(w.tasks[t], h) && Holds(w.tasks[u], h)
    ensures t == u
  {
    assert TaskLinked(t, w.tasks[t], w.promises, w.sessions, w.runtimes, w.connections.Keys);
    assert TaskLinked(u, w.tasks[u], w.promises, w.sessions, w.runtimes, w.connections.Keys);
  }

  lemma RejectSnapshotKeeps(w: World, t: TaskId)
    requires Sound(w) && Enabled(w, SnapshotReturns(t, false))
    ensures Sound(ReturnSnapshot(w, t, false))
  {
    var w', h := ReturnSnapshot(w, t, false), w.tasks[t].live;
    assert TaskLinked(t, w.tasks[t], w.promises, w.sessions, w.runtimes, w.connections.Keys);
    forall u | u in w.tasks && Holds(w.tasks[u], h) ensures u == t { HolderIsUnique(w, t, u, h); }
    assert w.runtimes[h].disposeCalls == 0;
    hide Sound;
    HoldKeeps(w, t, h, w'.runtimes[h], w'.tasks[t]);
    assert w' == w.(runtimes := w.runtimes[h := w'.runtimes[h]]).SetTask(t, w'.tasks[t]);
  }

  lemma AcceptSnapshotKeeps(w: World, t: TaskId)
    requires Sound(w) && Enabled(w, SnapshotReturns(t, true))
    ensures Sound(ReturnSnapshot(w, t, true))
  {
    assert w.tasks[t].id !in w.liveSessions;
    hide Kept, Owned, Held, Opening, Mapped, Counted, TasksLinked, SessionsLinked;
    AcceptLinked(w, t);
    AcceptOpening(w.openingSessions, w.tasks, t, w.tasks[t].live, w.liveSessions);
    AcceptKept(w, t);
    AcceptOwned(w, t);
    AcceptHeld(w, t);
    AcceptMapped(w, t);
    AcceptCounted(w, t);
  }

  lemma AcceptLinked(w: World, t: TaskId)
    requires Linked(w) && Enabled(w, SnapshotReturns(t, true)) && Opening(w.openingSessions, w.tasks, w.liveSessions)
    ensures w.tasks[t].live in w.runtimes && w.tasks[t].live !in w.sessions && Linked(ReturnSnapshot(w, t, true))
  {
    hide Opening;
    assert TaskLinked(t, w.tasks[t], w.promises, w.sessions, w.runtimes, w.connections.Keys);
    var w', h := ReturnSnapshot(w, t, true), w.tasks[t].live;
    forall u | u in w.tasks && Holds(w.tasks[u], h) ensures u == t { HolderIsUnique(w, t, u, h); }
    AcceptTasksLinked(w, t, h, w'.sessions[h]);
    hide TasksLinked, TaskLinked;
  }

  lemma AcceptTasksLinked(w: World, t: TaskId, h: Handle, s: LiveSession)
    requires TasksLinked(w.tasks, w.promises, w.sessions, w.runtimes, w.connections.Keys)
    requires t in w.tasks && w.tasks[t].AwaitSnapshot? && w.tasks[t].live == h && s.id == w.tasks[t].id
    requires forall u :: u in w.tasks && Holds(w.tasks[u], h) ==> u == t
    ensures TasksLinked(w.tasks[t := CreateSettled(w.tasks[t].connection, w.tasks[t].id)], w.promises[t := Resolved(h)],
                        w.sessions[h := s], w.runtimes, w.connections.Keys)
  {
    var tasks', promises' := w.tasks[t := CreateSettled(w.tasks[t].connection, w.tasks[t].id)],
      w.promises[t := Resolved(h)];
    assert TaskLinked(t, w.tasks[t], w.promises, w.sessions, w.runtimes, w.connections.Keys);
    forall u | u in tasks'
      ensures TaskLinked(u, tasks'[u], promises', w.sessions[h := s], w.runtimes, w.connections.Keys)
    {
      if u != t {
        assert TaskLinked(u, w.tasks[u], w.promises, w.sessions, w.runtimes, w.connections.Keys);
        assert !Holds(w.tasks[u], h);
      }
    }
  }

  lemma AcceptOpening(openingSessions: map<SessionId, TaskId>, tasks: map<TaskId, Task>, t: TaskId, h: Handle,
                      liveSessions: map<SessionId, Handle>)
    requires Opening(openingSessions, tasks, liveSessions) && t in tasks && tasks[t].AwaitSnapshot?
    ensures Opening(openingSessions, tasks[t := CreateSettled(tasks[t].connection, tasks[t].id)],
            liveSessions[tasks[t].id := h])
  {
  }

  lemma AcceptKept(w: World, t: TaskId)
    requires Kept(w.runtimes, w.sessions, w.openingSessions, w.tasks) && Enabled(w, SnapshotReturns(t, true))
    ensures var w' := ReturnSnapshot(w, t, true); Kept(w'.runtimes, w'.sessions, w'.openingSessions, w'.tasks)
  {
  }

  lemma AcceptOwned(w: World, t: TaskId)
    requires Owned(w.runtimes, w.sessions, w.liveSessions, w.closing) && Enabled(w, SnapshotReturns(t, true))
    requires Held(w.runtimes, w.liveSessions, w.tasks, w.closing) && w.tasks[t].id !in w.liveSessions
    ensures var w' := ReturnSnapshot(w, t, true); Owned(w'.runtimes, w'.sessions, w'.liveSessions, w'.closing)
  {
  }

  lemma AcceptHeld(w: World, t: TaskId)
    requires Held(w.runtimes, w.liveSessions, w.tasks, w.closing) && Enabled(w, SnapshotReturns(t, true))
    ensures var w' := ReturnSnapshot(w, t, true); Held(w'.runtimes, w'.liveSessions, w'.tasks, w'.closing)
  {
  }

  lemma AcceptMapped(w: World, t: TaskId)
    requires Mapped(w.liveSessions, w.sessions, w.connections) && Enabled(w, SnapshotReturns(t, true))
    requires w.tasks[t].live !in w.sessions
    ensures var w' := ReturnSnapshot(w, t, true); Mapped(w'.liveSessions, w'.sessions, w'.connections)
  {
  }

  lemma AcceptCounted(w: World, t: TaskId)
    requires Counted(w.sessions, w.tasks) && Enabled(w, SnapshotReturns(t, true)) && w.tasks[t].live !in w.sessions
    requires TasksLinked(w.tasks, w.promises, w.sessions, w.runtimes, w.connections.Keys)
    ensures var w' := ReturnSnapshot(w, t, true); Counted(w'.sessions, w'.tasks)
  {
    var w', h := ReturnSnapshot(w, t, true), w.tasks[t].live;
    NoOperationCounted(w.sessions, w.tasks, t, w'.tasks[t]);
    forall u | u in w'.tasks ensures w'.tasks[u] != Operating(h) {
      assert TaskLinked(u, w.tasks[u], w.promises, w.sessions, w.runtimes, w.connections.Keys);
    }
    assert OperationsOn(w'.tasks, h) == {};
    hide TasksLinked;
  }

  lemma ResumeCreateKeeps(w: World, t: TaskId)
    requires Sound(w) && Enabled(w, CreateResumes(t))
    ensures t in w.promises && Sound(ResumeCreate(w, t))
  {
    hide Kept, Owned, Held, Opening, Mapped, Counted, SessionsLinked;
    assert TaskLinked(t, w.tasks[t], w.promises, w.sessions, w.runtimes, w.connections.Keys);
    hide TasksLinked, TaskLinked;
    var w' := ResumeCreate(w, t);
    ResumeLinked(w, t);
    OpeningOf(w, t);
    assert Released(w.tasks, t, w'.tasks);
    ReleasedOpening(w.openingSessions, w.tasks, t, w'.tasks, w.liveSessions);
    ReleasedKept(w.runtimes, w.sessions, w.openingSessions, w.tasks, t, w'.tasks);
    ReleasedHeld(w, t, w'.tasks);
    ReleasedCounted(w.sessions, w.tasks, t, w'.tasks);
  }

  lemma OpeningOf(w: World, t: TaskId)
    requires Opening(w.openingSessions, w.tasks, w.liveSessions) && t in w.tasks && Creating(w.tasks[t])
    ensures w.tasks[t].id in w.openingSessions && w.openingSessions[w.tasks[t].id] == t
  {
  }

  /** A settled creating task has become a light one, or has ended. */
  ghost predicate Released(tasks: map<TaskId, Task>, t: TaskId, tasks': map<TaskId, Task>) {
    && t in tasks && tasks[t].CreateSettled? && (t in tasks' ==> Light(tasks'[t]))
    && (forall u :: u != t && u in tasks ==> u in tasks' && tasks'[u] == tasks[u])
    && (forall u :: u != t && u in tasks' ==> u in tasks)
  }

  lemma ReleasedOpening(openingSessions: map<SessionId, TaskId>, tasks: map<TaskId, Task>, t: TaskId,
                        tasks': map<TaskId, Task>,
                        liveSessions: map<SessionId, Handle>)
    requires Opening(openingSessions, tasks, liveSessions) && Released(tasks, t, tasks')
    ensures Opening(openingSessions - {tasks[t].id}, tasks', liveSessions)
  {
  }

  lemma ReleasedKept(runtimes: map<Handle, Runtime>, sessions: map<Handle, LiveSession>,
                     openingSessions: map<SessionId, TaskId>, tasks: map<TaskId, Task>, t: TaskId,
                         tasks': map<TaskId, Task>)
    requires Kept(runtimes, sessions, openingSessions, tasks) && Released(tasks, t, tasks')
    requires tasks[t].id in openingSessions && openingSessions[tasks[t].id] == t
    ensures Kept(runtimes, sessions, openingSessions - {tasks[t].id}, tasks')
  {
  }

  lemma ReleasedHeld(w: World, t: TaskId, tasks': map<TaskId, Task>)
    requires Held(w.runtimes, w.liveSessions, w.tasks, w.closing) && Released(w.tasks, t, tasks')
    ensures Held(w.runtimes, w.liveSessions, tasks', w.closing)
  {
  }

  lemma ReleasedCounted(sessions: map<Handle, LiveSession>, tasks: map<TaskId, Task>, t: TaskId,
                        tasks': map<TaskId, Task>)
    requires Counted(sessions, tasks) && Released(tasks, t, tasks')
    ensures Counted(sessions, tasks')
  {
    assert forall h :: OperationsOn(tasks', h) == OperationsOn(tasks, h);
  }

  lemma ResumeLinked(w: World, t: TaskId)
    requires TasksLinked(w.tasks, w.promises, w.sessions, w.runtimes, w.connections.Keys)
    requires Enabled(w, CreateResumes(t)) && t in w.promises
    ensures var w' := ResumeCreate(w, t); TasksLinked(w'.tasks, w.promises, w.sessions, w.runtimes, w.connections.Keys)
  {
    var w' := ResumeCreate(w, t);
    forall u | u in w'.tasks
      ensures TaskLinked(u, w'.tasks[u], w.promises, w.sessions, w.runtimes, w.connections.Keys)
    {
      assert TaskLinked(u, w.tasks[u], w.promises, w.sessions, w.runtimes, w.connections.Keys);
      assert TaskLinked(t, w.tasks[t], w.promises, w.sessions, w.runtimes, w.connections.Keys);
    }
  }

  /** A session may become terminal or lose connections. */
  lemma SetSessionKeeps(w: World, h: Handle, s': LiveSession)
    requires Sound(w) && h in w.sessions
    requires s'.id == w.sessions[h].id && s'.operationCount == w.sessions[h].operationCount
    requires s'.disposing == w.sessions[h].disposing && s'.connections <= w.sessions[h].connections
    ensures Sound(w.SetSession(h, s'))
  {
    hide SessionOwned, TasksLinked, Opening, Held, Mapped, OperationsOn;
    TasksLinkedKept(w, w.SetSession(h, s'));
    ShrunkMapped(w.liveSessions, w.sessions, w.connections, w.liveSessions, w.sessions[h := s']);
  }

  lemma AttachKeeps(w: World, c: ConnectionId, h: Handle)
    requires Sound(w) && c in w.connections && h in w.sessions
    ensures Sound(Attach(w, c, h))
  {
    var w', k := Attach(w, c, h), w.connections[c];
    if k.disconnected || !k.ready || k.closed {
      hide Sound;
      MaybeDisposeKeeps(w, h);
    } else {
      TasksLinkedKept(w, w');
      AttachMapped(w, c, h);
      AttachOwned(w, c, h);
      hide Owned, Kept, TasksLinked, Opening, Held, Mapped, Counted;
    }
  }

  lemma AttachMapped(w: World, c: ConnectionId, h: Handle)
    requires SessionsLinked(w.liveSessions, w.sessions, w.runtimes, w.connections.Keys) && c in w.connections
             && h in w.sessions
    requires Mapped(w.liveSessions, w.sessions, w.connections) && !w.connections[c].disconnected
    ensures var k, s := w.connections[c], w.sessions[h];
            Mapped(w.liveSessions, w.sessions[h := s.(connections := s.connections + {c})],
                   w.connections[c := k.(sessionIds := k.sessionIds + {s.id})])
  {
  }

  lemma AttachOwned(w: World, c: ConnectionId, h: Handle)
    requires Owned(w.runtimes, w.sessions, w.liveSessions, w.closing) && h in w.sessions
    requires Kept(w.runtimes, w.sessions, w.openingSessions, w.tasks) && Counted(w.sessions, w.tasks)
    ensures var sessions' := w.sessions[h := w.sessions[h].(connections := w.sessions[h].connections + {c})];
            && Owned(w.runtimes, sessions', w.liveSessions, w.closing)
            && Kept(w.runtimes, sessions', w.openingSessions, w.tasks) && Counted(sessions', w.tasks)
  {
    hide SessionOwned;
  }

  lemma OperateKeeps(w: World, t: TaskId, h: Handle)
    requires Sound(w) && h in w.sessions && t !in w.tasks && w.sessions[h].disposing == NotDisposing
    ensures Sound(Operate(w, t, h))
  {
    hide Owned, Kept, Opening, Held, Mapped, Counted;
    var w1, w' := w.SetSession(h, w.sessions[h].(operationCount := w.sessions[h].operationCount + 1)), Operate(w, t, h);
    TasksLinkedKept(w, w1);
    assert TasksLinked(w'.tasks, w'.promises, w'.sessions, w'.runtimes, w'.connections.Keys) by { hide Sound; }
    OperateCounted(w, t, h);
    OperateParts(w, t, h);
    hide TasksLinked;
  }

  lemma OperateCounted(w: World, t: TaskId, h: Handle)
    requires Counted(w.sessions, w.tasks) && h in w.sessions && t !in w.tasks && w.sessions[h].disposing == NotDisposing
    ensures Counted(Operate(w, t, h).sessions, Operate(w, t, h).tasks)
  {
    CountOneMore(w.sessions, w.tasks, t, h);
    hide Counted;
  }

  lemma CountOneMore(sessions: map<Handle, LiveSession>, tasks: map<TaskId, Task>, t: TaskId, h: Handle)
    requires Counted(sessions, tasks) && h in sessions && t !in tasks && sessions[h].disposing == NotDisposing
    ensures Counted(sessions[h := sessions[h].(operationCount := sessions[h].operationCount + 1)],
            tasks[t := Operating(h)])
  {
    var tasks' := tasks[t := Operating(h)];
    assert OperationsOn(tasks', h) == OperationsOn(tasks, h) + {t} && t !in OperationsOn(tasks, h);
    forall g | g in sessions && g != h ensures OperationsOn(tasks', g) == OperationsOn(tasks, g) { }
    hide OperationsOn;
  }

  lemma OperateParts(w: World, t: TaskId, h: Handle)
    requires Opening(w.openingSessions, w.tasks, w.liveSessions)
             && Kept(w.runtimes, w.sessions, w.openingSessions, w.tasks)
    requires Owned(w.runtimes, w.sessions, w.liveSessions, w.closing) && h in w.sessions && t !in w.tasks
    requires Held(w.runtimes, w.liveSessions, w.tasks, w.closing) && Mapped(w.liveSessions, w.sessions, w.connections)
    ensures var w' := Operate(w, t, h);
            && Opening(w'.openingSessions, w'.tasks, w'.liveSessions)
            && Kept(w'.runtimes, w'.sessions, w'.openingSessions, w'.tasks)
            && Owned(w'.runtimes, w'.sessions, w'.liveSessions, w'.closing)
            && Held(w'.runtimes, w'.liveSessions, w'.tasks, w'.closing)
            && Mapped(w'.liveSessions, w'.sessions, w'.connections)
  {
    hide SessionOwned;
    OperateOwned(w, t, h);
    hide Owned, Kept;
  }

  lemma OperateOwned(w: World, t: TaskId, h: Handle)
    requires Kept(w.runtimes, w.sessions, w.openingSessions, w.tasks) && h in w.sessions && t !in w.tasks
    requires Owned(w.runtimes, w.sessions, w.liveSessions, w.closing)
    ensures var w' := Operate(w, t, h);
            && Kept(w'.runtimes, w'.sessions, w'.openingSessions, w'.tasks)
            && Owned(w'.runtimes, w'.sessions, w'.liveSessions, w'.closing)
  {
    hide SessionOwned;
  }

  lemma EndOperationKeeps(w: World, t: TaskId)
    requires Sound(w) && Enabled(w, OperationEnds(t))
    ensures w.tasks[t].live in w.sessions && w.sessions[w.tasks[t].live].operationCount > 0
    ensures Sound(EndOperation(w, t))
  {
    hide Kept, Owned, Held, Opening, Mapped, Counted, Linked;
    OperationUncounted(w, t);
    hide Sound;
    var h := w.tasks[t].live;
    MaybeDisposeKeeps(w.SetSession(h, w.sessions[h].(operationCount := w.sessions[h].operationCount - 1)).EndTask(t),
        h);
    OperationLeaves(w, t);
  }

  lemma OperationLeaves(w: World, t: TaskId)
    requires t in w.tasks && w.tasks[t].Operating? && w.tasks[t].live in w.sessions && w.tasks[t].live in w.runtimes
    requires w.sessions[w.tasks[t].live].operationCount > 0
    ensures var h := w.tasks[t].live;
            EndOperation(w, t)
            == MaybeDispose(w.SetSession(h,
                w.sessions[h].(operationCount := w.sessions[h].operationCount - 1)).EndTask(t), h)
  {
  }

  /** The operation is no longer counted and its task is gone. */
  lemma OperationUncounted(w: World, t: TaskId)
    requires Sound(w) && Enabled(w, OperationEnds(t))
    ensures w.tasks[t].live in w.sessions && w.tasks[t].live in w.runtimes
            && w.sessions[w.tasks[t].live].operationCount > 0
    ensures var h := w.tasks[t].live;
            Sound(w.SetSession(h, w.sessions[h].(operationCount := w.sessions[h].operationCount - 1)).EndTask(t))
  {
    hide Kept, Owned, Held, Opening, Mapped, Counted;
    assert TaskLinked(t, w.tasks[t], w.promises, w.sessions, w.runtimes, w.connections.Keys);
    hide TasksLinked;
    var h := w.tasks[t].live;
    EndOperationCounted(w, t, h);
    OperationUnlinked(w, t, h);
    EndOperationParts(w, t, h);
    hide Linked;
  }

  lemma OperationUnlinked(w: World, t: TaskId, h: Handle)
    requires Linked(w) && h in w.sessions && w.sessions[h].operationCount > 0
    ensures Linked(w.SetSession(h, w.sessions[h].(operationCount := w.sessions[h].operationCount - 1)).EndTask(t))
  {
    var w1 := w.SetSession(h, w.sessions[h].(operationCount := w.sessions[h].operationCount - 1));
    TasksLinkedKept(w, w1);
    TasksLinkedEnd(w1, t);
    hide TasksLinked;
  }

  lemma TasksLinkedEnd(w: World, t: TaskId)
    requires TasksLinked(w.tasks, w.promises, w.sessions, w.runtimes, w.connections.Keys)
    ensures TasksLinked(w.tasks - {t}, w.promises, w.sessions, w.runtimes, w.connections.Keys)
  {
  }

  lemma EndOperationCounted(w: World, t: TaskId, h: Handle)
    requires Counted(w.sessions, w.tasks) && h in w.sessions && t in w.tasks && w.tasks[t] == Operating(h)
    ensures w.sessions[h].operationCount > 0
    ensures Counted(w.sessions[h := w.sessions[h].(operationCount := w.sessions[h].operationCount - 1)], w.tasks - {t})
  {
    var ops, ops' := OperationsOn(w.tasks, h), OperationsOn(w.tasks - {t}, h);
    assert ops' == ops - {t} && t in ops;
    assert |ops'| == |ops| - 1;
    var sessions' := w.sessions[h := w.sessions[h].(operationCount := w.sessions[h].operationCount - 1)];
    forall g | g in sessions' && g != h ensures sessions'[g].operationCount == |OperationsOn(w.tasks - {t}, g)| {
      assert OperationsOn(w.tasks - {t}, g) == OperationsOn(w.tasks, g);
    }
    hide OperationsOn;
  }

  lemma EndOperationParts(w: World, t: TaskId, h: Handle)
    requires Opening(w.openingSessions, w.tasks, w.liveSessions)
             && Kept(w.runtimes, w.sessions, w.openingSessions, w.tasks)
    requires Owned(w.runtimes, w.sessions, w.liveSessions, w.closing) && h in w.sessions
    requires t in w.tasks && w.tasks[t] == Operating(h) && w.sessions[h].operationCount > 0
    requires Held(w.runtimes, w.liveSessions, w.tasks, w.closing) && Mapped(w.liveSessions, w.sessions, w.connections)
    ensures var w' := w.EndTask(t).SetSession(h, w.sessions[h].(operationCount := w.sessions[h].operationCount - 1));
            && Opening(w'.openingSessions, w'.tasks, w'.liveSessions)
            && Kept(w'.runtimes, w'.sessions, w'.openingSessions, w'.tasks)
            && Owned(w'.runtimes, w'.sessions, w'.liveSessions, w'.closing)
            && Held(w'.runtimes, w'.liveSessions, w'.tasks, w'.closing)
            && Mapped(w'.liveSessions, w'.sessions, w'.connections)
  {
    hide SessionOwned;
  }

  lemma DetachKeeps(w: World, t: TaskId, c: ConnectionId, id: SessionId)
    requires Sound(w) && Enabled(w, DetachCommand(t, c, id))
    ensures Sound(Detach(w, t, c, id))
  {
    hide Owned, Kept, Held, Opening, Counted, TasksLinked, Mapped;
    var k := w.connections[c];
    var connections' := w.connections[c := k.(sessionIds := k.sessionIds - {id})];
    if id in k.sessionIds && id !in w.liveSessions {
      TasksLinkedKept(w, w.(connections := connections'));
      DetachUnmapped(w, c, id);
    } else if id in k.sessionIds {
      var h := w.liveSessions[id];
      var s := w.sessions[h].(connections := w.sessions[h].connections - {c});
      SetSessionKeeps(w, h, s);
      var w2 := w.SetSession(h, s).(connections := connections');
      TasksLinkedKept(w.SetSession(h, s), w2);
      DetachMapped(w, c, id);
      assert Sound(w2);
      hide Sound;
      if s.connections != {} && !s.terminal && s.disposing == NotDisposing {
        assert TaskLinked(t, DetachBroadcast(h), w2.promises, w2.sessions, w2.runtimes, w2.connections.Keys);
        SetTaskKeeps(w2, t, DetachBroadcast(h));
      } else {
        MaybeDisposeKeeps(w2, h);
      }
    }
  }

  lemma DetachUnmapped(w: World, c: ConnectionId, id: SessionId)
    requires Mapped(w.liveSessions, w.sessions, w.connections) && c in w.connections && id !in w.liveSessions
    ensures var k := w.connections[c];
            Mapped(w.liveSessions, w.sessions, w.connections[c := k.(sessionIds := k.sessionIds - {id})])
  {
  }

  lemma DetachMapped(w: World, c: ConnectionId, id: SessionId)
    requires Mapped(w.liveSessions, w.sessions, w.connections) && c in w.connections
    requires SessionsLinked(w.liveSessions, w.sessions, w.runtimes, w.connections.Keys) && id in w.liveSessions
    ensures var k, h := w.connections[c], w.liveSessions[id];
            Mapped(w.liveSessions, w.sessions[h := w.sessions[h].(connections := w.sessions[h].connections - {c})],
                   w.connections[c := k.(sessionIds := k.sessionIds - {id})])
  {
  }

  lemma ReturnDisposalKeeps(w: World, h: Handle, ok: bool)
    requires Sound(w) && Enabled(w, DisposalReturns(h, ok))
    ensures Sound(ReturnDisposal(w, h, ok))
  {
    hide Owned, Kept, Held, Opening, Counted, Mapped, TasksLinked;
    var w' := ReturnDisposal(w, h, ok);
    assert w' == w.(sessions := w.sessions[h := w.sessions[h].(disposing := DisposalSettled(ok))],
                    liveSessions := w'.liveSessions);
    assert Shrunk(w.liveSessions, w'.liveSessions);
    assert SessionsLinked(w'.liveSessions, w'.sessions, w'.runtimes, w'.connections.Keys);
    TasksLinkedKept(w, w');
    ReturnDisposalOwned(w, h, ok);
    hide SessionsLinked, Shrunk, ReturnDisposal;
    ReturnDisposalCounted(w, h, ok);
    ShrunkOpening(w.openingSessions, w.tasks, w.liveSessions, w'.liveSessions);
    ShrunkHeld(w, w'.liveSessions);
    ShrunkMapped(w.liveSessions, w.sessions, w.connections, w'.liveSessions, w'.sessions);
  }

  lemma ReturnDisposalOwned(w: World, h: Handle, ok: bool)
    requires Owned(w.runtimes, w.sessions, w.liveSessions, w.closing) && Enabled(w, DisposalReturns(h, ok))
    ensures var w' := ReturnDisposal(w, h, ok); Owned(w'.runtimes, w'.sessions, w'.liveSessions, w'.closing)
  {
    var w' := ReturnDisposal(w, h, ok);
    forall g | g in w.runtimes
      ensures w.runtimes[g].disposeCalls == (if w.runtimes[g].status == Running then 0 else 1)
      ensures g in w.sessions ==>
                SessionOwned(g, w.runtimes[g].status, w'.sessions[g].id, w'.sessions[g].disposing, w'.liveSessions,
                    w'.closing)
    {
      if g in w.sessions { DisposalOwns(w, h, ok, g); }
    }
    hide SessionOwned, Enabled, ReturnDisposal;
    assert w'.sessions.Keys == w.sessions.Keys && w'.runtimes == w.runtimes by { ReturnDisposalKeys(w, h, ok); }
  }

  lemma ReturnDisposalKeys(w: World, h: Handle, ok: bool)
    requires h in w.sessions
    ensures ReturnDisposal(w, h, ok).sessions.Keys == w.sessions.Keys && ReturnDisposal(w, h, ok).runtimes == w.runtimes
  {
  }

  lemma DisposalOwns(w: World, h: Handle, ok: bool, g: Handle)
    requires h in w.sessions && h in w.runtimes && w.sessions[h].disposing == Disposing
             && w.runtimes[h].status == Disposed
    requires g in w.sessions && g in w.runtimes
    requires SessionOwned(g, w.runtimes[g].status, w.sessions[g].id, w.sessions[g].disposing, w.liveSessions, w.closing)
    requires SessionOwned(h, w.runtimes[h].status, w.sessions[h].id, w.sessions[h].disposing, w.liveSessions, w.closing)
    ensures var w' := ReturnDisposal(w, h, ok);
            g in w'.sessions && SessionOwned(g, w.runtimes[g].status, w'.sessions[g].id, w'.sessions[g].disposing,
                w'.liveSessions, w'.closing)
  {
  }

  lemma ReturnDisposalCounted(w: World, h: Handle, ok: bool)
    requires Counted(w.sessions, w.tasks) && Enabled(w, DisposalReturns(h, ok))
    requires Kept(w.runtimes, w.sessions, w.openingSessions, w.tasks)
    ensures var sessions' := w.sessions[h := w.sessions[h].(disposing := DisposalSettled(ok))];
            Counted(sessions', w.tasks) && Kept(w.runtimes, sessions', w.openingSessions, w.tasks)
  {
    hide OperationsOn;
  }

  ghost predicate Shrunk(liveSessions: map<SessionId, Handle>, liveSessions': map<SessionId, Handle>) {
    forall id :: id in liveSessions' ==> id in liveSessions && liveSessions'[id] == liveSessions[id]
  }

  lemma ShrunkOpening(openingSessions: map<SessionId, TaskId>, tasks: map<TaskId, Task>,
                      liveSessions: map<SessionId, Handle>,
                      liveSessions': map<SessionId, Handle>)
    requires Opening(openingSessions, tasks, liveSessions) && Shrunk(liveSessions, liveSessions')
    ensures Opening(openingSessions, tasks, liveSessions')
  {
  }

  lemma ShrunkHeld(w: World, liveSessions': map<SessionId, Handle>)
    requires Held(w.runtimes, w.liveSessions, w.tasks, w.closing) && Shrunk(w.liveSessions, liveSessions')
    ensures Held(w.runtimes, liveSessions', w.tasks, w.closing)
  {
    assert w.liveSessions == map[] ==> liveSessions' == map[];
  }

  lemma ShrunkMapped(liveSessions: map<SessionId, Handle>, sessions: map<Handle, LiveSession>,
                     connections: map<ConnectionId, Connection>, liveSessions': map<SessionId, Handle>,
                     sessions': map<Handle, LiveSession>)
    requires Mapped(liveSessions, sessions, connections) && Shrunk(liveSessions, liveSessions')
    requires forall h :: h in sessions' ==> h in sessions && sessions'[h].connections <= sessions[h].connections
    ensures Mapped(liveSessions', sessions', connections)
  {
  }

  lemma TerminateKeeps(w: World, t: TaskId, h: Handle)
    requires Sound(w) && Enabled(w, RuntimeError(t, h))
    ensures Sound(Terminate(w, t, h))
  {
    hide Owned, Kept, Held, Opening, Counted, Mapped, TasksLinked;
    var s := w.sessions[h];
    if !s.terminal {
      var w1 := w.SetSession(h, s.(terminal := true));
      SetSessionKeeps(w, h, s.(terminal := true));
      assert TaskLinked(t, Terminating(h, s.connections), w1.promises, w1.sessions, w1.runtimes, w1.connections.Keys);
      hide Sound;
      SetTaskKeeps(w1, t, Terminating(h, s.connections));
    }
  }

  lemma ClearSessionsKeeps(w: World)
    requires Sound(w) && Enabled(w, CloseClears)
    ensures Sound(ClearSessions(w))
  {
    hide Owned, Held, Counted, TasksLinked, TaskLinked;
    TasksLinkedKept(w, ClearSessions(w));
    ClearOwned(w);
    ClearHeld(w);
    ClearOpening(w);
    hide Opening, Kept, Mapped;
  }

  lemma ClearOpening(w: World)
    requires Opening(w.openingSessions, w.tasks, w.liveSessions)
             && Kept(w.runtimes, w.sessions, w.openingSessions, w.tasks)
    requires w.sessions.Keys <= w.runtimes.Keys
    ensures var w' := ClearSessions(w);
            && Opening(w'.openingSessions, w'.tasks, w'.liveSessions)
            && Kept(w'.runtimes, w'.sessions, w'.openingSessions, w'.tasks)
            && Mapped(w'.liveSessions, w'.sessions, w'.connections)
  {
  }

  lemma ClearOwned(w: World)
    requires Owned(w.runtimes, w.sessions, w.liveSessions, w.closing) && Enabled(w, CloseClears)
    requires SessionsLinked(w.liveSessions, w.sessions, w.runtimes, w.connections.Keys)
    ensures var w' := ClearSessions(w); Owned(w'.runtimes, w'.sessions, w'.liveSessions, w'.closing)
  {
  }

  lemma ClearHeld(w: World)
    requires Held(w.runtimes, w.liveSessions, w.tasks, w.closing) && Linked(w) && Enabled(w, CloseClears)
    ensures var w' := ClearSessions(w); Held(w'.runtimes, w'.liveSessions, w'.tasks, w'.closing)
  {
    forall t | t in w.tasks ensures !w.tasks[t].AwaitSnapshot? {
      assert TaskLinked(t, w.tasks[t], w.promises, w.sessions, w.runtimes, w.connections.Keys);
    }
    hide TasksLinked;
  }

  lemma RuntimeDisposesKeeps(w: World, h: Handle)
    requires Sound(w) && Enabled(w, RuntimeDisposes(h))
    ensures Sound(w.SetStatus(h, Disposed))
  {
    hide Owned, Kept, Held, Opening, Counted, Mapped, TasksLinked;
    TasksLinkedKept(w, w.SetStatus(h, Disposed));
    RuntimeDisposesOwned(w, h);
    RuntimeDisposesHeld(w, h);
  }

  lemma RuntimeDisposesOwned(w: World, h: Handle)
    requires Owned(w.runtimes, w.sessions, w.liveSessions, w.closing) && Enabled(w, RuntimeDisposes(h))
    requires Kept(w.runtimes, w.sessions, w.openingSessions, w.tasks)
    ensures var w' := w.SetStatus(h, Disposed);
            Owned(w'.runtimes, w'.sessions, w'.liveSessions, w'.closing)
                && Kept(w'.runtimes, w'.sessions, w'.openingSessions, w'.tasks)
  {
  }

  lemma RuntimeDisposesHeld(w: World, h: Handle)
    requires Held(w.runtimes, w.liveSessions, w.tasks, w.closing) && Enabled(w, RuntimeDisposes(h))
    ensures var w' := w.SetStatus(h, Disposed); Held(w'.runtimes, w'.liveSessions, w'.tasks, w'.closing)
  {
  }

  lemma DisconnectKeeps(w: World, c: ConnectionId)
    requires Sound(w) && c in w.connections
    ensures Sound(Disconnect(w, c))
  {
    hide Owned, Kept, Held, Opening, Counted, Mapped, TasksLinked;
    if !w.connections[c].disconnected {
      var lives := MappedSessions(w, c);
      TasksLinkedKept(w, Disconnect(w, c));
      RemovalOwned(w, c, lives);
      RemovalHeld(w, c, lives);
      RemovalCounted(w, c, lives);
      DisconnectMapped(w, c);
    }
  }

  /** Every removed-from session is treated like one that lost a connection and met maybeDispose. */
  lemma RemovalOwned(w: World, c: ConnectionId, lives: set<Handle>)
    requires lives <= w.sessions.Keys <= w.runtimes.Keys && Owned(w.runtimes, w.sessions, w.liveSessions, w.closing)
    ensures var w' := RemoveFromAll(w, c, lives); Owned(w'.runtimes, w'.sessions, w'.liveSessions, w'.closing)
  {
  }

  lemma RemovalHeld(w: World, c: ConnectionId, lives: set<Handle>)
    requires lives <= w.sessions.Keys <= w.runtimes.Keys && Held(w.runtimes, w.liveSessions, w.tasks, w.closing)
    requires TasksLinked(w.tasks, w.promises, w.sessions, w.runtimes, w.connections.Keys)
    ensures var w' := RemoveFromAll(w, c, lives); Held(w'.runtimes, w'.liveSessions, w'.tasks, w'.closing)
  {
    forall h | h in lives
      ensures forall t :: t in w.tasks && (w.tasks[t].AwaitSnapshot? || w.tasks[t].AwaitDiscard?) ==>
              w.tasks[t].live != h
    {
      HoldersAreNot(w, h);
    }
    hide TasksLinked;
  }

  lemma RemovalCounted(w: World, c: ConnectionId, lives: set<Handle>)
    requires lives <= w.sessions.Keys <= w.runtimes.Keys && Counted(w.sessions, w.tasks)
    requires Kept(w.runtimes, w.sessions, w.openingSessions, w.tasks)
    ensures var w' := RemoveFromAll(w, c, lives);
            Counted(w'.sessions, w'.tasks) && Kept(w'.runtimes, w'.sessions, w'.openingSessions, w'.tasks)
  {
    hide OperationsOn;
    RemovalKept(w, c, lives);
    hide Kept;
  }

  lemma RemovalKept(w: World, c: ConnectionId, lives: set<Handle>)
    requires lives <= w.sessions.Keys <= w.runtimes.Keys && Kept(w.runtimes, w.sessions, w.openingSessions, w.tasks)
    ensures var w' := RemoveFromAll(w, c, lives); Kept(w'.runtimes, w'.sessions, w'.openingSessions, w'.tasks)
  {
  }

  lemma DisconnectMapped(w: World, c: ConnectionId)
    requires Mapped(w.liveSessions, w.sessions, w.connections) && c in w.connections && !w.connections[c].disconnected
    requires SessionsLinked(w.liveSessions, w.sessions, w.runtimes, w.connections.Keys)
    ensures var w' := Disconnect(w, c); Mapped(w'.liveSessions, w'.sessions, w'.connections)
  {
    var w' := Disconnect(w, c);
    forall id, d | id in w.liveSessions && d in w'.sessions[w.liveSessions[id]].connections
      ensures d != c && d in w.connections && id in w.connections[d].sessionIds && !w.connections[d].disconnected
    {
      assert d in w.sessions[w.liveSessions[id]].connections && id in w.connections[d].sessionIds;
      assert id in w.connections[c].sessionIds ==> w.liveSessions[id] in MappedSessions(w, c);
    }
  }

  // ---------------------------------------------------------------------------
  // Nobody forgets a disposable session
  // ---------------------------------------------------------------------------

  /** Whoever tends a session still does. */
  ghost predicate TendersKept(w: World, w': World, h: Handle) {
    && (h in w.idleEvents && h in w.sessions && !w.sessions[h].terminal ==>
          h in w'.idleEvents && h in w'.sessions && !w'.sessions[h].terminal)
    && (forall t :: Tends(w.tasks, w.promises, t, h) ==> Tends(w'.tasks, w'.promises, t, h))
  }

  lemma ObligedKept(w: World, w': World, exempt: set<Handle>, exempt': set<Handle>)
    requires Obliged(w, exempt) && (w.IsClosing() ==> w'.IsClosing())
    requires forall id :: id in w'.liveSessions && Disposable(w', w'.liveSessions[id])
                          && w'.liveSessions[id] !in exempt' ==>
               Tended(w', w'.liveSessions[id]) || (
                 && id in w.liveSessions && w.liveSessions[id] == w'.liveSessions[id] && w.liveSessions[id] !in exempt
                 && Disposable(w, w.liveSessions[id]) && TendersKept(w, w', w.liveSessions[id]))
    ensures Obliged(w', exempt')
  {
    if !w'.IsClosing() {
      forall id | id in w'.liveSessions && Disposable(w', w'.liveSessions[id]) && w'.liveSessions[id] !in exempt'
        ensures Tended(w', w'.liveSessions[id])
      {
        var h := w'.liveSessions[id];
        if TendersKept(w, w', h) && (exists t :: Tends(w.tasks, w.promises, t, h)) {
          var t :| Tends(w.tasks, w.promises, t, h);
          assert Tends(w'.tasks, w'.promises, t, h);
        }
      }
    }
  }

  lemma MaybeDisposeObliged(w: World, h: Handle)
    requires Linked(w) && Obliged(w, {h}) && h in w.sessions
    ensures Obliged(MaybeDispose(w, h), {})
  {
    hide TasksLinked, Tends;
    if w.IsClosing() { return; }
    ObligedKept(w, MaybeDispose(w, h), {h}, {});
  }

  /** Replacing or ending a task can only leave the session it tended without care. */
  lemma SetTaskObliged(w: World, w': World, t: TaskId, exempt: set<Handle>)
    requires Obliged(w, exempt)
    requires w' == w.(tasks := w'.tasks, promises := w'.promises, openingSessions := w'.openingSessions)
    requires forall u :: u != t && u in w.tasks ==> u in w'.tasks && w'.tasks[u] == w.tasks[u]
    requires forall u :: u != t && u in w.promises ==> u in w'.promises && w'.promises[u] == w.promises[u]
    requires forall h :: Tends(w.tasks, w.promises, t, h) ==> Tends(w'.tasks, w'.promises, t, h) || h in exempt
    ensures Obliged(w', exempt)
  {
    ObligedKept(w, w', exempt, exempt);
  }

  lemma AcceptObliged(w: World, t: TaskId)
    requires Obliged(w, {}) && Enabled(w, SnapshotReturns(t, true)) && w.tasks[t].live !in w.sessions
    ensures Obliged(ReturnSnapshot(w, t, true), {})
  {
    var w', h := ReturnSnapshot(w, t, true), w.tasks[t].live;
    assert Tends(w'.tasks, w'.promises, t, h);
    ObligedKept(w, w', {}, {});
  }

  lemma AttachObliged(w: World, c: ConnectionId, h: Handle)
    requires Linked(w) && Obliged(w, {h}) && c in w.connections && h in w.sessions
    ensures Obliged(Attach(w, c, h), {})
  {
    hide TasksLinked, Tends;
    var k := w.connections[c];
    if k.disconnected || !k.ready || k.closed {
      MaybeDisposeObliged(w, h);
    } else {
      ObligedKept(w, Attach(w, c, h), {h}, {});
    }
  }

  lemma OperateObliged(w: World, t: TaskId, h: Handle)
    requires Obliged(w, {}) && h in w.sessions && t !in w.tasks
    ensures Obliged(Operate(w, t, h), {})
  {
    ObligedKept(w, Operate(w, t, h), {}, {});
  }

  lemma EndOperationObliged(w: World, t: TaskId, h: Handle)
    requires Sound(w) && Obliged(w, {}) && t in w.tasks && w.tasks[t] == Operating(h) && h in w.sessions
    requires w.sessions[h].operationCount > 0
    ensures Obliged(EndOperation(w, t), {})
  {
    hide Sound, Linked;
    var w1 := w.EndTask(t).SetSession(h, w.sessions[h].(operationCount := w.sessions[h].operationCount - 1));
    ObligedKept(w, w1, {}, {h});
    EndOperationLinked(w, t);
    MaybeDisposeObliged(w1, h);
  }

  lemma EndOperationLinked(w: World, t: TaskId)
    requires Sound(w) && t in w.tasks && w.tasks[t].Operating? && w.tasks[t].live in w.sessions
    requires w.sessions[w.tasks[t].live].operationCount > 0
    ensures var h := w.tasks[t].live;
            Linked(w.EndTask(t).SetSession(h, w.sessions[h].(operationCount := w.sessions[h].operationCount - 1)))
  {
    hide Kept, Owned, Held, Opening, Mapped, Counted;
    var h := w.tasks[t].live;
    var w1 := w.SetSession(h, w.sessions[h].(operationCount := w.sessions[h].operationCount - 1));
    TasksLinkedKept(w, w1);
    TasksLinkedEnd(w1, t);
    hide TasksLinked;
  }

  lemma DetachObliged(w: World, t: TaskId, c: ConnectionId, id: SessionId)
    requires Linked(w) && Obliged(w, {}) && Enabled(w, DetachCommand(t, c, id))
    ensures Obliged(Detach(w, t, c, id), {})
  {
    hide Tends;
    var k := w.connections[c];
    var connections' := w.connections[c := k.(sessionIds := k.sessionIds - {id})];
    if id in k.sessionIds && id in w.liveSessions {
      var h := w.liveSessions[id];
      var s := w.sessions[h].(connections := w.sessions[h].connections - {c});
      var w2 := w.SetSession(h, s).(connections := connections');
      TasksLinkedKept(w, w2);
      hide TasksLinked;
      ObligedKept(w, w2, {}, {h});
      if s.connections != {} && !s.terminal && s.disposing == NotDisposing {
        DetachBroadcastObliged(w2, t, h);
      } else {
        MaybeDisposeObliged(w2, h);
      }
    } else if id in k.sessionIds {
      ObligedKept(w, w.(connections := connections'), {}, {});
    }
  }

  lemma DetachBroadcastObliged(w: World, t: TaskId, h: Handle)
    requires Obliged(w, {h}) && t !in w.tasks && h in w.sessions && w.sessions[h].connections != {}
    ensures Obliged(w.SetTask(t, DetachBroadcast(h)), {})
  {
    ObligedKept(w, w.SetTask(t, DetachBroadcast(h)), {h}, {});
  }

  lemma DisconnectObliged(w: World, c: ConnectionId)
    requires Linked(w) && Obliged(w, {}) && c in w.connections
    ensures Obliged(Disconnect(w, c), {})
  {
    hide Tends, TasksLinked;
    if !w.connections[c].disconnected && !w.IsClosing() {
      var w' := Disconnect(w, c);
      assert forall h :: h in MappedSessions(w, c) ==> !Disposable(w', h);
      ObligedKept(w, w', {}, {});
    }
  }

  lemma ReturnDisposalObliged(w: World, h: Handle, ok: bool)
    requires Obliged(w, {}) && Enabled(w, DisposalReturns(h, ok))
    ensures Obliged(ReturnDisposal(w, h, ok), {})
  {
    hide Tends;
    ObligedKept(w, ReturnDisposal(w, h, ok), {}, {});
  }

  lemma ChangePhaseObliged(w: World, h: Handle, idle: bool)
    requires Obliged(w, {}) && h in w.runtimes
    ensures Obliged(ChangePhase(w, h, idle), {})
  {
    hide Tends;
    ObligedKept(w, ChangePhase(w, h, idle), {}, {});
  }

  lemma TerminateObliged(w: World, t: TaskId, h: Handle)
    requires Obliged(w, {}) && Enabled(w, RuntimeError(t, h))
    ensures Obliged(Terminate(w, t, h), {})
  {
    if !w.sessions[h].terminal {
      var w' := Terminate(w, t, h);
      assert Tends(w'.tasks, w'.promises, t, h);
      ObligedKept(w, w', {}, {});
    }
  }
}
