/** The main results about the session protocol: every run of every interleaving. */
module SessionTheorems {
  import opened Wrappers
  import opened SessionModel
  import opened SessionProofs

  /** A step the environment may take; the references it follows are sound in every reachable state. */
  ghost predicate Possible(w: World, e: Event) {
    Linked(w) && Enabled(w, e) && CountedEnd(w, e)
  }

  /** The state after a list of steps, if each of them was possible. */
  ghost function Run(events: seq<Event>): Option<World> {
    if events == [] then Some(Init)
    else
      var before := Run(events[..|events| - 1]);
      var e := events[|events| - 1];
      if before.Some? && Possible(before.value, e) then Some(Apply(before.value, e)) else None
  }

  lemma StepsOfConnections(w: World, e: Event)
    requires Inv(w, {}) && Enabled(w, e) && (e.Connects? || e.ConnectionChanges? || e.Disconnects? || e.DetachCommand?)
    ensures Possible(w, e) && Inv(Apply(w, e), {})
  {
    hide Owned, Kept, Held, Opening, Counted, TasksLinked, Mapped, Obliged;
    match e
    case Disconnects(c) => DisconnectKeeps(w, c); DisconnectObliged(w, c);
    case DetachCommand(t, c, id) => DetachKeeps(w, t, c, id); DetachObliged(w, t, c, id);
    case _ => ConnectionsKeep(w, e);
  }

  lemma ConnectionsKeep(w: World, e: Event)
    requires Inv(w, {}) && Enabled(w, e) && (e.Connects? || e.ConnectionChanges?)
    ensures Linked(w) && Inv(Apply(w, e), {})
  {
    hide Owned, Kept, Held, Opening, Counted, TasksLinked, Tends;
    TasksLinkedKept(w, Apply(w, e));
    ObligedKept(w, Apply(w, e), {}, {});
    hide Obliged;
  }

  lemma StepsOfAcquire(w: World, e: Event)
    requires Inv(w, {}) && Enabled(w, e) && (e.AttachCommand? || e.DisposingResumes? || e.OpeningResumes?)
    ensures Possible(w, e) && Inv(Apply(w, e), {})
  {
    hide Sound, Obliged, Linked, TasksLinked, SessionsLinked;
    match e {
      case AttachCommand(t, c, id) => AttachStep(w, t, c, id);
      case DisposingResumes(t) => DisposingStep(w, t);
      case OpeningResumes(t) => OpeningStep(w, t);
    }
  }

  lemma AttachStep(w: World, t: TaskId, c: ConnectionId, id: SessionId)
    requires Inv(w, {}) && Enabled(w, AttachCommand(t, c, id))
    ensures Linked(w) && Inv(Acquire(w, t, c, id), {})
  {
    hide Owned, Kept, Held, Opening, Counted, Mapped, Obliged, TasksLinked;
    AcquireKeeps(w, t, c, id);
    AcquireObliged(w, t, c, id);
    hide Acquire;
  }

  lemma DisposingStep(w: World, t: TaskId)
    requires Inv(w, {}) && Enabled(w, DisposingResumes(t))
    ensures Linked(w) && Inv(ResumeDisposing(w, t), {})
  {
    hide Owned, Kept, Held, Opening, Counted, Mapped, Obliged;
    assert TaskLinked(t, w.tasks[t], w.promises, w.sessions, w.runtimes, w.connections.Keys);
    hide TasksLinked;
    var task := w.tasks[t];
    if w.sessions[task.live].disposing.ok {
      AcquireKeeps(w, t, task.connection, task.id);
      AcquireObliged(w, t, task.connection, task.id);
      hide Acquire;
    } else {
      EndTaskKeeps(w, t);
      SetTaskObliged(w, w.EndTask(t), t, {});
    }
  }

  lemma AcquireObliged(w: World, t: TaskId, c: ConnectionId, id: SessionId)
    requires Obliged(w, {}) && (id in w.liveSessions ==> w.liveSessions[id] in w.sessions)
    requires t !in w.tasks || w.tasks[t].WaitDisposing?
    ensures Obliged(Acquire(w, t, c, id), {})
  {
    hide Obliged;
    AcquireMoves(w, t, c, id);
    SetTaskObliged(w, Acquire(w, t, c, id), t, {});
    hide Acquire;
  }

  /** acquire changes its own task and what belongs to it. */
  lemma AcquireMoves(w: World, t: TaskId, c: ConnectionId, id: SessionId)
    requires id in w.liveSessions ==> w.liveSessions[id] in w.sessions
    ensures var w' := Acquire(w, t, c, id);
            && w' == w.(tasks := w'.tasks, promises := w'.promises, openingSessions := w'.openingSessions)
            && (forall u :: u != t && u in w.tasks ==> u in w'.tasks && w'.tasks[u] == w.tasks[u])
            && (forall u :: u != t && u in w.promises ==> u in w'.promises && w'.promises[u] == w.promises[u])
  {
    var w' := Acquire(w, t, c, id);
    if id in w.liveSessions || id in w.openingSessions {
      assert w'.promises == w.promises && w'.openingSessions == w.openingSessions;
    } else {
      assert w'.tasks == w.tasks[t := AwaitRuntime(c, id)] && w'.promises == w.promises[t := Pending(id)];
    }
  }

  lemma OpeningStep(w: World, t: TaskId)
    requires Inv(w, {}) && Enabled(w, OpeningResumes(t))
    ensures Linked(w) && Inv(ResumeOpening(w, t), {})
  {
    hide Owned, Kept, Held, Opening, Counted, Mapped, Obliged;
    assert TaskLinked(t, w.tasks[t], w.promises, w.sessions, w.runtimes, w.connections.Keys);
    hide TasksLinked;
    var p := w.promises[w.tasks[t].creator];
    if p.Resolved? {
      SetTaskKeeps(w, t, Acquired(w.tasks[t].connection, w.tasks[t].id, p.live));
    } else {
      EndTaskKeeps(w, t);
    }
    SetTaskObliged(w, ResumeOpening(w, t), t, {});
  }

  lemma StepsOfCreate(w: World, e: Event)
    requires Inv(w, {}) && Enabled(w, e)
    requires e.RuntimeOpened? || e.OpenFails? || e.SnapshotReturns? || e.DiscardReturns? || e.CreateResumes?
    ensures Possible(w, e) && Inv(Apply(w, e), {})
  {
    hide Owned, Kept, Held, Opening, Counted, Mapped, Obliged, TasksLinked, SessionsLinked;
    match e
    case RuntimeOpened(t, h, idle) => OpenRuntimeKeeps(w, t, h, idle); OpenRuntimeObliged(w, t, h, idle);
    case OpenFails(t) => RejectStep(w, t);
    case SnapshotReturns(t, accepted) => SnapshotStep(w, t, accepted);
    case DiscardReturns(t) => RejectStep(w, t);
    case CreateResumes(t) => ResumeCreateStep(w, t);
  }

  lemma RejectStep(w: World, t: TaskId)
    requires Inv(w, {}) && (Enabled(w, OpenFails(t)) || Enabled(w, DiscardReturns(t)))
    ensures Inv(SettleCreate(w, t, Rejected), {})
  {
    hide Owned, Kept, Held, Opening, Counted, Mapped, Obliged, TasksLinked, SessionsLinked;
    RejectCreateKeeps(w, t);
    SetTaskObliged(w, SettleCreate(w, t, Rejected), t, {});
  }

  lemma SnapshotStep(w: World, t: TaskId, accepted: bool)
    requires Inv(w, {}) && Enabled(w, SnapshotReturns(t, accepted))
    ensures Inv(ReturnSnapshot(w, t, accepted), {})
  {
    hide Owned, Kept, Held, Opening, Counted, Mapped, Obliged, SessionsLinked;
    assert TaskLinked(t, w.tasks[t], w.promises, w.sessions, w.runtimes, w.connections.Keys);
    hide TasksLinked;
    if accepted {
      AcceptSnapshotKeeps(w, t);
      AcceptObliged(w, t);
    } else {
      RejectSnapshotKeeps(w, t);
      RejectSnapshotObliged(w, t);
    }
    hide ReturnSnapshot, Sound;
  }

  lemma ResumeCreateStep(w: World, t: TaskId)
    requires Inv(w, {}) && Enabled(w, CreateResumes(t))
    ensures Inv(ResumeCreate(w, t), {})
  {
    hide Owned, Kept, Held, Opening, Counted, Mapped, Obliged, SessionsLinked, TasksLinked;
    ResumeCreateKeeps(w, t);
    SetTaskObliged(w, ResumeCreate(w, t), t, {});
  }

  lemma OpenRuntimeObliged(w: World, t: TaskId, h: Handle, idle: bool)
    requires Obliged(w, {}) && Enabled(w, RuntimeOpened(t, h, idle))
    ensures Obliged(OpenRuntime(w, t, h, idle), {})
  {
    ObligedKept(w, OpenRuntime(w, t, h, idle), {}, {});
  }

  lemma RejectSnapshotObliged(w: World, t: TaskId)
    requires Obliged(w, {}) && Enabled(w, SnapshotReturns(t, false))
    ensures Obliged(ReturnSnapshot(w, t, false), {})
  {
    ObligedKept(w, ReturnSnapshot(w, t, false), {}, {});
  }

  lemma StepsOfSessions(w: World, e: Event)
    requires Inv(w, {}) && Enabled(w, e) && (e.AttachResumes? || e.OperationCommand? || e.OperationEnds?)
    ensures Possible(w, e) && Inv(Apply(w, e), {})
  {
    hide Owned, Kept, Held, Opening, Counted, Mapped, Obliged;
    var t := e.t;
    assert t in w.tasks ==> TaskLinked(t, w.tasks[t], w.promises, w.sessions, w.runtimes, w.connections.Keys);
    hide TasksLinked;
    match e
    case AttachResumes(_) =>
      var task := w.tasks[t];
      EndTaskKeeps(w, t);
      ObligedWeaken(w, {task.live});
      SetTaskObliged(w, w.EndTask(t), t, {task.live});
      AttachKeeps(w.EndTask(t), task.connection, task.live);
      AttachObliged(w.EndTask(t), task.connection, task.live);
    case OperationCommand(_, c, id) => OperateKeeps(w, t, w.liveSessions[id]); OperateObliged(w, t, w.liveSessions[id]);
    case OperationEnds(_) => EndOperationKeeps(w, t); EndOperationObliged(w, t, w.tasks[t].live);
  }

  lemma ObligedWeaken(w: World, exempt: set<Handle>)
    requires Obliged(w, {})
    ensures Obliged(w, exempt)
  {
  }

  /** Ending a task, then maybeDispose on the session it was about. */
  lemma EndAndDispose(w: World, t: TaskId, h: Handle)
    requires Inv(w, {}) && h in w.sessions && t in w.tasks && Light(w.tasks[t])
    requires forall g :: Tends(w.tasks, w.promises, t, g) ==> g == h
    ensures Inv(MaybeDispose(w.EndTask(t), h), {})
  {
    hide Owned, Kept, Held, Opening, Counted, Mapped, Obliged, TasksLinked;
    EndTaskKeeps(w, t);
    ObligedWeaken(w, {h});
    SetTaskObliged(w, w.EndTask(t), t, {h});
    MaybeDisposeKeeps(w.EndTask(t), h);
    MaybeDisposeObliged(w.EndTask(t), h);
  }

  lemma StepsOfCleanup(w: World, e: Event)
    requires Inv(w, {}) && Enabled(w, e) && (e.DetachResumes? || e.TerminateDisconnects? || e.TerminateResumes?)
    ensures Possible(w, e) && Inv(Apply(w, e), {})
  {
    hide Owned, Kept, Held, Opening, Counted, Mapped, Obliged, SessionsLinked;
    var t := e.t;
    assert TaskLinked(t, w.tasks[t], w.promises, w.sessions, w.runtimes, w.connections.Keys);
    hide TasksLinked;
    match e
    case DetachResumes(_, ok) =>
      if ok { EndAndDispose(w, t, w.tasks[t].live); }
      else { EndTaskKeeps(w, t); SetTaskObliged(w, w.EndTask(t), t, {}); }
    case TerminateDisconnects(_, c) => TerminateOneStep(w, t, c);
    case TerminateResumes(_) => EndAndDispose(w, t, w.tasks[t].live);
  }

  lemma TerminateOneStep(w: World, t: TaskId, c: ConnectionId)
    requires Inv(w, {}) && Enabled(w, TerminateDisconnects(t, c))
    ensures Inv(TerminateOne(w, t, c), {})
  {
    hide Owned, Kept, Held, Opening, Counted, Mapped, Obliged, SessionsLinked;
    assert TaskLinked(t, w.tasks[t], w.promises, w.sessions, w.runtimes, w.connections.Keys);
    hide TasksLinked;
    var task' := Terminating(w.tasks[t].live, w.tasks[t].connections - {c});
    SetTaskKeeps(w, t, task');
    SetTaskObliged(w, w.SetTask(t, task'), t, {});
    hide Disconnect;
    DisconnectKeeps(w.SetTask(t, task'), c);
    DisconnectObliged(w.SetTask(t, task'), c);
  }

  lemma StepsOfRuntimes(w: World, e: Event)
    requires Inv(w, {}) && Enabled(w, e)
    requires e.RuntimeDisposes? || e.DisposalReturns? || e.PhaseChanges? || e.RuntimeEvent? || e.RuntimeError?
    ensures Possible(w, e) && Inv(Apply(w, e), {})
  {
    hide Owned, Kept, Held, Opening, Counted, Mapped, Obliged, TasksLinked;
    match e
    case RuntimeDisposes(h) => RuntimeDisposesKeeps(w, h); RuntimeDisposesObliged(w, h);
    case DisposalReturns(h, ok) => ReturnDisposalKeeps(w, h, ok); ReturnDisposalObliged(w, h, ok);
    case PhaseChanges(h, idle) => ChangePhaseKeeps(w, h, idle); ChangePhaseObliged(w, h, idle);
    case RuntimeEvent(h) =>
      var w1 := w.(idleEvents := w.idleEvents - {h});
      EventObliged(w, h);
      MaybeDisposeKeeps(w1, h);
      MaybeDisposeObliged(w1, h);
    case RuntimeError(t, h) => TerminateKeeps(w, t, h); TerminateObliged(w, t, h);
  }

  lemma EventObliged(w: World, h: Handle)
    requires Obliged(w, {})
    ensures Obliged(w.(idleEvents := w.idleEvents - {h}), {h})
  {
    hide Tends;
    ObligedKept(w, w.(idleEvents := w.idleEvents - {h}), {}, {h});
  }

  lemma RuntimeDisposesObliged(w: World, h: Handle)
    requires Obliged(w, {}) && h in w.runtimes
    ensures Obliged(w.SetStatus(h, Disposed), {})
  {
    hide Tends;
    ObligedKept(w, w.SetStatus(h, Disposed), {}, {});
  }

  lemma ChangePhaseKeeps(w: World, h: Handle, idle: bool)
    requires Sound(w) && h in w.runtimes
    ensures Sound(ChangePhase(w, h, idle))
  {
    hide SessionOwned, TasksLinked, Opening, Counted, Mapped, Held, Kept, Owned;
    var w' := ChangePhase(w, h, idle);
    TasksLinkedKept(w, w');
    SameStatuses(w, w');
  }

  /** Runtimes that keep their id, status and dispose calls are owned and held as before. */
  lemma SameStatuses(w: World, w': World)
    requires w' == w.(runtimes := w'.runtimes, idleEvents := w'.idleEvents) && w'.runtimes.Keys == w.runtimes.Keys
    requires forall h :: h in w.runtimes ==> w'.runtimes[h] == w.runtimes[h].(idle := w'.runtimes[h].idle)
    ensures Kept(w.runtimes, w.sessions, w.openingSessions, w.tasks) ==>
            Kept(w'.runtimes, w.sessions, w.openingSessions, w.tasks)
    ensures Owned(w.runtimes, w.sessions, w.liveSessions, w.closing) ==>
            Owned(w'.runtimes, w.sessions, w.liveSessions, w.closing)
    ensures Held(w.runtimes, w.liveSessions, w.tasks, w.closing) ==>
            Held(w'.runtimes, w.liveSessions, w.tasks, w.closing)
  {
    hide SessionOwned;
  }

  lemma StepsOfClose(w: World, e: Event)
    requires Inv(w, {}) && Enabled(w, e) && (e.CloseBegins? || e.CloseSessions? || e.CloseClears? || e.CloseEnds?)
    ensures Possible(w, e) && Inv(Apply(w, e), {})
  {
    hide TasksLinked, Counted, Mapped, Kept, Opening, SessionsLinked;
    match e
    case CloseClears => ClearSessionsKeeps(w); hide Owned, Held, ClearSessions;
    case CloseSessions => CloseWaits(w); hide Owned, Held;
    case CloseBegins => PhaseKeeps(w, Closing);
    case CloseEnds => PhaseKeeps(w, Closed);
  }

  lemma PhaseKeeps(w: World, closing: ClosePhase)
    requires Sound(w) && ((closing == Closing && w.closing == NotClosing)
             || (closing == Closed && Enabled(w, CloseEnds)))
    ensures Sound(w.(closing := closing))
  {
    hide TasksLinked, Counted, Mapped, Kept, Opening, SessionsLinked;
  }

  lemma CloseWaits(w: World)
    requires Sound(w) && w.closing == Closing
    ensures Sound(w.(closing := WaitingForCreates(w.openingSessions.Values)))
  {
    hide TasksLinked, Counted, Mapped, Kept;
    forall t | t in w.tasks && w.tasks[t].AwaitSnapshot? ensures t in w.openingSessions.Values { OpeningOf(w, t); }
    hide Opening;
  }

  lemma StepInv(w: World, e: Event)
    requires Inv(w, {}) && Enabled(w, e)
    ensures Possible(w, e) && Inv(Apply(w, e), {})
  {
    hide Inv;
    match e
    case Connects(_) => StepsOfConnections(w, e);
    case ConnectionChanges(_, _, _) => StepsOfConnections(w, e);
    case Disconnects(_) => StepsOfConnections(w, e);
    case AttachCommand(_, _, _) => StepsOfAcquire(w, e);
    case DetachCommand(_, _, _) => StepsOfConnections(w, e);
    case OperationCommand(_, _, _) => StepsOfSessions(w, e);
    case DisposingResumes(_) => StepsOfAcquire(w, e);
    case OpeningResumes(_) => StepsOfAcquire(w, e);
    case RuntimeOpened(_, _, _) => StepsOfCreate(w, e);
    case OpenFails(_) => StepsOfCreate(w, e);
    case SnapshotReturns(_, _) => StepsOfCreate(w, e);
    case DiscardReturns(_) => StepsOfCreate(w, e);
    case CreateResumes(_) => StepsOfCreate(w, e);
    case AttachResumes(_) => StepsOfSessions(w, e);
    case OperationEnds(_) => StepsOfSessions(w, e);
    case DetachResumes(_, _) => StepsOfCleanup(w, e);
    case TerminateDisconnects(_, _) => StepsOfCleanup(w, e);
    case TerminateResumes(_) => StepsOfCleanup(w, e);
    case RuntimeDisposes(_) => StepsOfRuntimes(w, e);
    case DisposalReturns(_, _) => StepsOfRuntimes(w, e);
    case PhaseChanges(_, _) => StepsOfRuntimes(w, e);
    case RuntimeEvent(_) => StepsOfRuntimes(w, e);
    case RuntimeError(_, _) => StepsOfRuntimes(w, e);
    case CloseBegins => StepsOfClose(w, e);
    case CloseSessions => StepsOfClose(w, e);
    case CloseClears => StepsOfClose(w, e);
    case CloseEnds => StepsOfClose(w, e);
  }

  /** Every run keeps the invariant, and no enabled step is ever excluded from a run. */
  lemma {:induction false} RunInv(events: seq<Event>)
    requires Run(events).Some?
    ensures Inv(Run(events).value, {})
    decreases |events|
  {
    hide Inv, Enabled, Linked, Apply;
    if events == [] {
      InitInv();
    } else {
      RunInv(events[..|events| - 1]);
      StepInv(Run(events[..|events| - 1]).value, events[|events| - 1]);
    }
  }

  /** No enabled step is ever excluded from a run: what Possible adds to Enabled holds in every reachable state. */
  lemma EnabledIsPossible(events: seq<Event>, e: Event)
    requires Run(events).Some? && Enabled(Run(events).value, e)
    ensures Possible(Run(events).value, e) && Run(events + [e]) == Some(Apply(Run(events).value, e))
  {
    hide Inv, Enabled, Linked, Apply;
    RunInv(events);
    StepInv(Run(events).value, e);
    assert (events + [e])[..|events|] == events;
  }

  /** The service is asked to open an id exactly when a task begins to await a runtime for it. */
  predicate AsksToOpen(w: World, w': World, t: TaskId, id: SessionId) {
    t in w'.tasks && w'.tasks[t].AwaitRuntime? && w'.tasks[t].id == id && !(t in w.tasks && w.tasks[t].AwaitRuntime?)
  }

  /** No other task is opening the id, and no runtime acquired for it is still undisposed. */
  ghost predicate Free(w: World, id: SessionId) {
    && (forall u :: u in w.tasks && Creating(w.tasks[u]) ==> w.tasks[u].id != id)
    && (forall h :: h in w.runtimes && w.runtimes[h].id == id ==> w.runtimes[h].status == Disposed)
  }

  /** No other task is opening the id, and dispose has been called on every runtime acquired for it. */
  ghost predicate GivenUp(w: World, id: SessionId) {
    && (forall u :: u in w.tasks && Creating(w.tasks[u]) ==> w.tasks[u].id != id)
    && (forall h :: h in w.runtimes && w.runtimes[h].id == id ==> w.runtimes[h].disposeCalls == 1)
  }

  /**
   Exclusive ownership. In every run the service is asked to open an id only by acquire, when no create
   for it is pending and dispose has been called on every runtime acquired for it earlier. Until close has
   emptied the session map, all of these have moreover finished disposing.
   */
  lemma ExclusiveOpen(events: seq<Event>, e: Event, t: TaskId, id: SessionId)
    requires Run(events).Some? && Enabled(Run(events).value, e)
    requires Run(events + [e]).Some? && AsksToOpen(Run(events).value, Run(events + [e]).value, t, id)
    ensures e.AttachCommand? || e.DisposingResumes?
    ensures GivenUp(Run(events).value, id)
    ensures !Cleared(Run(events).value.closing) ==> Free(Run(events).value, id)
  {
    hide Inv;
    RunInv(events);
    OpensOnlyWhenFree(Run(events).value, e, t, id);
  }

  lemma OpensOnlyWhenFree(w: World, e: Event, t: TaskId, id: SessionId)
    requires Inv(w, {}) && Possible(w, e) && AsksToOpen(w, Apply(w, e), t, id)
    ensures e.AttachCommand? || e.DisposingResumes?
    ensures GivenUp(w, id) && (!Cleared(w.closing) ==> Free(w, id))
  {
    OpenerAcquires(w, e, t, id);
    if Cleared(w.closing) { ClearedIsGivenUp(w); } else { UnmappedIsFree(w, id); }
    UnmappedIsUnopened(w, id);
    hide Inv, Possible, AsksToOpen, Apply;
  }

  lemma UnmappedIsUnopened(w: World, id: SessionId)
    requires Inv(w, {}) && id !in w.openingSessions
    ensures forall u :: u in w.tasks && Creating(w.tasks[u]) ==> w.tasks[u].id != id
  {
    hide TasksLinked, Counted, Mapped, Obliged, Held, Owned, Kept;
  }

  lemma UnmappedIsFree(w: World, id: SessionId)
    requires Inv(w, {}) && !Cleared(w.closing) && id !in w.liveSessions && id !in w.openingSessions
    ensures Free(w, id) && GivenUp(w, id)
  {
    hide TasksLinked, Counted, Mapped, Obliged, Held;
    forall h | h in w.runtimes && w.runtimes[h].id == id
      ensures w.runtimes[h].status == Disposed && w.runtimes[h].disposeCalls == 1
    {
      if h in w.sessions { assert w.sessions[h].id == id; }
    }
  }

  /** Once close has emptied the map, dispose has been called on every runtime. */
  lemma ClearedIsGivenUp(w: World)
    requires Inv(w, {}) && Cleared(w.closing)
    ensures forall h :: h in w.runtimes ==> w.runtimes[h].disposeCalls == 1
  {
    hide TasksLinked, Counted, Mapped, Obliged, Opening;
    forall h | h in w.runtimes ensures w.runtimes[h].disposeCalls == 1 {
      if h !in w.sessions && w.runtimes[h].status != Disposed {
        assert Holds(w.tasks[w.openingSessions[w.runtimes[h].id]], h);
      }
    }
  }

  /** Only acquire makes a task await a runtime, and only for an id that is neither mapped nor opening. */
  lemma OpenerAcquires(w: World, e: Event, t: TaskId, id: SessionId)
    requires Possible(w, e) && AsksToOpen(w, Apply(w, e), t, id)
    ensures id !in w.liveSessions && id !in w.openingSessions && (e.AttachCommand? || e.DisposingResumes?)
  {
    hide TasksLinked, Acquire;
    match e {
      case AttachCommand(u, c, i) => AcquireAsks(w, u, c, i, t, id);
      case DisposingResumes(u) =>
        if w.sessions[w.tasks[u].live].disposing.ok { AcquireAsks(w, u, w.tasks[u].connection, w.tasks[u].id, t, id); }
      case RuntimeOpened(_, _, _) => CreateStepsAskNothing(w, e);
      case OpenFails(_) => CreateStepsAskNothing(w, e);
      case SnapshotReturns(_, _) => CreateStepsAskNothing(w, e);
      case DiscardReturns(_) => CreateStepsAskNothing(w, e);
      case CreateResumes(_) => CreateStepsAskNothing(w, e);
      case OpeningResumes(_) => CreateStepsAskNothing(w, e);
      case _ => { hide Apply, Enabled, Linked; OtherStepsAskNothing(w, e); }
    }
  }

  lemma AcquireAsks(w: World, u: TaskId, c: ConnectionId, i: SessionId, t: TaskId, id: SessionId)
    requires i in w.liveSessions ==> w.liveSessions[i] in w.sessions
    requires AsksToOpen(w, Acquire(w, u, c, i), t, id)
    ensures id !in w.liveSessions && id !in w.openingSessions
  {
  }

  /** Tasks that await a runtime after a step did so before it, for the same id. */
  ghost predicate AsksNothing(tasks: map<TaskId, Task>, tasks': map<TaskId, Task>) {
    forall t :: t in tasks' && tasks'[t].AwaitRuntime? ==> t in tasks && tasks[t] == tasks'[t]
  }

  lemma CreateStepsAskNothing(w: World, e: Event)
    requires Possible(w, e)
    requires e.RuntimeOpened? || e.OpenFails? || e.SnapshotReturns? || e.DiscardReturns? || e.CreateResumes?
             || e.OpeningResumes?
    ensures AsksNothing(w.tasks, Apply(w, e).tasks)
  {
    hide Linked, TasksLinked, SessionsLinked, MaybeDispose, Attach, Disconnect, Detach, Operate, EndOperation,
      Terminate, ClearSessions;
    match e
    case RuntimeOpened(t, h, idle) => assert AsksNothing(w.tasks, OpenRuntime(w, t, h, idle).tasks);
    case OpenFails(t) => SettledAsksNothing(w, t, Rejected);
    case SnapshotReturns(t, accepted) => SnapshotAsksNothing(w, t, accepted);
    case DiscardReturns(t) => SettledAsksNothing(w, t, Rejected);
    case CreateResumes(t) => assert AsksNothing(w.tasks, ResumeCreate(w, t).tasks);
    case OpeningResumes(t) => assert AsksNothing(w.tasks, ResumeOpening(w, t).tasks);
  }

  lemma SettledAsksNothing(w: World, t: TaskId, outcome: CreatePromise)
    requires t in w.tasks && Creating(w.tasks[t])
    ensures AsksNothing(w.tasks, SettleCreate(w, t, outcome).tasks)
  {
  }

  lemma SnapshotAsksNothing(w: World, t: TaskId, accepted: bool)
    requires t in w.tasks && w.tasks[t].AwaitSnapshot? && w.tasks[t].live in w.runtimes
    ensures AsksNothing(w.tasks, ReturnSnapshot(w, t, accepted).tasks)
  {
    if accepted {
      var id, h := w.tasks[t].id, w.tasks[t].live;
      var w1 := w.SetSession(h, LiveSession(id, {}, 0, false, NotDisposing)).(liveSessions := w.liveSessions[id := h]);
      assert w1.tasks == w.tasks;
      SettledAsksNothing(w1, t, Resolved(h));
    }
  }

  lemma OtherStepsAskNothing(w: World, e: Event)
    requires Possible(w, e) && !e.AttachCommand? && !e.DisposingResumes? && !e.OpeningResumes?
    requires !e.RuntimeOpened? && !e.OpenFails? && !e.SnapshotReturns? && !e.DiscardReturns? && !e.CreateResumes?
    ensures AsksNothing(w.tasks, Apply(w, e).tasks)
  {
    hide AsksNothing, TasksLinked;
    if e.AttachResumes? || e.OperationEnds? || e.DetachResumes? || e.TerminateDisconnects? || e.TerminateResumes?
        || e.RuntimeError? {
      hide Apply;
      TaskEndsAskNothing(w, e);
    } else {
      hide MaybeDispose, RemoveFromAll, Acquire, MappedSessions, SettleCreate, OpenRuntime, ReturnSnapshot,
        ResumeCreate,
        ResumeDisposing, ResumeOpening, Without, Attach, ResumeAttach, EndOperation, ResumeDetach, TerminateOne,
            ResumeTerminate, Terminate;
      assert AsksNothing(w.tasks, w.tasks) by { SameAsksNothing(w.tasks); }
      match e {
        case DetachCommand(t, c, id) => DetachAsksNothing(w, t, c, id);
        case OperationCommand(t, c, id) => OperateAsksNothing(w, t, w.liveSessions[id]);
        case _ =>
      }
    }
  }

  lemma SameAsksNothing(tasks: map<TaskId, Task>)
    ensures AsksNothing(tasks, tasks)
  {
  }

  lemma DetachAsksNothing(w: World, t: TaskId, c: ConnectionId, id: SessionId)
    requires c in w.connections
             && (id in w.liveSessions ==> w.liveSessions[id] in w.sessions && w.liveSessions[id] in w.runtimes)
    ensures AsksNothing(w.tasks, Detach(w, t, c, id).tasks)
  {
    hide MaybeDispose;
  }

  lemma OperateAsksNothing(w: World, t: TaskId, h: Handle)
    requires h in w.sessions
    ensures AsksNothing(w.tasks, Operate(w, t, h).tasks)
  {
  }

  lemma TaskEndsAskNothing(w: World, e: Event)
    requires Possible(w, e)
    requires e.AttachResumes? || e.OperationEnds? || e.DetachResumes? || e.TerminateDisconnects? || e.TerminateResumes?
             || e.RuntimeError?
    ensures AsksNothing(w.tasks, Apply(w, e).tasks)
  {
    hide AsksNothing, Apply, Enabled, Linked, CountedEnd;
    match e {
      case AttachResumes(_) => SessionEndsAskNothing(w, e);
      case OperationEnds(_) => SessionEndsAskNothing(w, e);
      case DetachResumes(_, _) => SessionEndsAskNothing(w, e);
      case _ => TerminationAsksNothing(w, e);
    }
  }

  lemma SessionEndsAskNothing(w: World, e: Event)
    requires Possible(w, e) && (e.AttachResumes? || e.OperationEnds? || e.DetachResumes?)
    ensures AsksNothing(w.tasks, Apply(w, e).tasks)
  {
    hide Linked, TasksLinked, SessionsLinked, MaybeDispose, RemoveFromAll, Acquire, MappedSessions, SettleCreate,
      OpenRuntime,
      ReturnSnapshot, ResumeCreate, ResumeDisposing, ResumeOpening, Without, Detach, Operate, ReturnDisposal,
          ClearSessions, ChangePhase;
  }

  lemma TerminationAsksNothing(w: World, e: Event)
    requires Possible(w, e) && (e.TerminateDisconnects? || e.TerminateResumes? || e.RuntimeError?)
    ensures AsksNothing(w.tasks, Apply(w, e).tasks)
  {
    hide Linked, TasksLinked, SessionsLinked, MaybeDispose, RemoveFromAll, Acquire, MappedSessions, SettleCreate,
      OpenRuntime,
      ReturnSnapshot, ResumeCreate, ResumeDisposing, ResumeOpening, Without, Detach, Operate, ReturnDisposal,
          ClearSessions, ChangePhase;
  }

  /**
   Before close has emptied the map, at most one runtime of an id is not disposed; once it has, dispose
   has been called on every runtime. So no two runtimes of an id are ever left running.
   */
  lemma OneRuntimePerSession(events: seq<Event>, h: Handle, g: Handle)
    requires Run(events).Some?
    requires var w := Run(events).value;
             && h in w.runtimes && g in w.runtimes && w.runtimes[h].id == w.runtimes[g].id
             && w.runtimes[h].status != Disposed && w.runtimes[g].status != Disposed
    ensures var w := Run(events).value;
            if Cleared(w.closing) then w.runtimes[h].disposeCalls == w.runtimes[g].disposeCalls == 1 else h == g
  {
    RunInv(events);
    if Cleared(Run(events).value.closing) { ClearedIsGivenUp(Run(events).value); }
    hide TasksLinked, Counted, Mapped, Obliged, Held;
  }

  /** dispose is called at most once on every runtime, and exactly once by the time a closed server has drained. */
  lemma DisposedOnce(events: seq<Event>, h: Handle)
    requires Run(events).Some? && h in Run(events).value.runtimes
    ensures var w := Run(events).value;
            && w.runtimes[h].disposeCalls <= 1
            && (w.closing.Closed? && w.tasks == map[] ==>
               w.runtimes[h].disposeCalls == 1 && w.runtimes[h].status == Disposed)
  {
    RunInv(events);
    hide TasksLinked, Counted, Mapped, Obliged, Held, Opening;
  }

  /**
   No operation on a session is in flight once its disposal has begun, nor, until close clears the
   map, once anyone has called dispose on its runtime. (Clearing the map disposes runtimes in use.)
   */
  lemma NoDisposalUnderUse(events: seq<Event>, h: Handle)
    requires Run(events).Some? && h in Run(events).value.sessions && h in Run(events).value.runtimes
    requires var w := Run(events).value;
             w.sessions[h].disposing != NotDisposing || (w.runtimes[h].disposeCalls > 0 && !Cleared(w.closing))
    ensures var w := Run(events).value; w.sessions[h].operationCount == 0 && Operating(h) !in w.tasks.Values
  {
    RunInv(events);
    var w := Run(events).value;
    hide Kept, Held, Opening, Mapped, Obliged, TasksLinked;
    forall t | t in w.tasks ensures w.tasks[t] != Operating(h) {
      assert OperationsOn(w.tasks, h) == {};
      assert t !in OperationsOn(w.tasks, h);
    }
  }

  /** A mapped session lists only connections that hold its id and are not disconnected. */
  lemma ListedConnectionsHold(events: seq<Event>, id: SessionId, c: ConnectionId)
    requires Run(events).Some? && id in Run(events).value.liveSessions
    ensures var w := Run(events).value;
            && w.liveSessions[id] in w.sessions
            && (c in w.sessions[w.liveSessions[id]].connections ==>
                  c in w.connections && id in w.connections[c].sessionIds && !w.connections[c].disconnected)
  {
    RunInv(events);
    hide TasksLinked, Kept, Obliged, Held, Opening, Owned;
  }

  /**
   No idle orphan. When no task is waiting and every idle event that has a listener was delivered, a mapped session
   that is not being disposed has a connection, or its runtime is busy and not terminal.
   */
  lemma NoIdleOrphan(events: seq<Event>, id: SessionId)
    requires Run(events).Some? && id in Run(events).value.liveSessions
    requires var w := Run(events).value; !w.IsClosing() && w.tasks == map[] && EventsDelivered(w)
    ensures var w := Run(events).value;
            var h := w.liveSessions[id];
            && h in w.sessions && h in w.runtimes
            && (w.sessions[h].disposing == NotDisposing ==>
                  w.sessions[h].connections != {} || (!w.sessions[h].terminal && !w.runtimes[h].idle))
  {
    RunInv(events);
    var w := Run(events).value;
    var h := w.liveSessions[id];
    assert OperationsOn(w.tasks, h) == {};
    assert h in w.sessions && w.sessions[h].disposing == NotDisposing ==> !Tended(w, h);
    hide TasksLinked, Kept, Held, Opening, Owned, Mapped;
  }

  /** One more step of a run, which takes `w` to `w'`. */
  lemma RunOn(events: seq<Event>, w: World, e: Event, w': World)
    requires Run(events) == Some(w) && Enabled(w, e) && (Possible(w, e) ==> Apply(w, e) == w')
    ensures Run(events + [e]) == Some(w')
  {
    hide Apply, Enabled, Run, Linked;
    EnabledIsPossible(events, e);
  }

  /** Two connections wait for the create that the first of them asked for. */
  lemma BothWait() returns (events: seq<Event>, w: World)
    ensures Run(events) == Some(w)
    ensures w == Init.(
              connections := map[0 := Connection({}, false, true, false), 1 := Connection({}, false, true, false)],
              openingSessions := map["s" := 0], promises := map[0 := Pending("s")],
              tasks := map[0 := AwaitRuntime(0, "s"), 1 := WaitOpening(1, "s", 0)])
  {
    var w2;
    events, w2 := BothConnect();
    hide Inv, Linked, Run, CountedEnd;
    var w3 := w2.(openingSessions := map["s" := 0], promises := map[0 := Pending("s")],
      tasks := map[0 := AwaitRuntime(0, "s")]);
    assert Run(events + [AttachCommand(0, 0, "s")]) == Some(w3) by { RunOn(events, w2, AttachCommand(0, 0, "s"), w3); }
    events := events + [AttachCommand(0, 0, "s")];
    w := w3.(tasks := map[0 := AwaitRuntime(0, "s"), 1 := WaitOpening(1, "s", 0)]);
    assert Run(events + [AttachCommand(1, 1, "s")]) == Some(w) by { RunOn(events, w3, AttachCommand(1, 1, "s"), w); }
    events := events + [AttachCommand(1, 1, "s")];
  }

  lemma BothConnect() returns (events: seq<Event>, w: World)
    ensures Run(events) == Some(w)
    ensures w == Init.(connections :=
            map[0 := Connection({}, false, true, false), 1 := Connection({}, false, true, false)])
  {
    events := [];
    assert Run(events) == Some(Init);
    hide Inv, Linked, Run, CountedEnd;
    var here := Connection({}, false, true, false);
    var w1 := Init.(connections := map[0 := here]);
    assert Run(events + [Connects(0)]) == Some(w1) by { RunOn(events, Init, Connects(0), w1); }
    events := events + [Connects(0)];
    w := Init.(connections := map[0 := here, 1 := here]);
    assert Run(events + [Connects(1)]) == Some(w) by { RunOn(events, w1, Connects(1), w); }
    events := events + [Connects(1)];
  }

  /** The runtime comes, and the connection that asked for it goes away. */
  lemma Deserted() returns (events: seq<Event>, w: World)
    ensures Run(events) == Some(w)
    ensures w == Init.(
              connections := map[0 := Connection({}, true, false, false), 1 := Connection({}, false, true, false)],
              openingSessions := map["s" := 0], promises := map[0 := Pending("s")],
                  runtimes := map[7 := Runtime("s", Running, 0, true)],
              tasks := map[0 := AwaitSnapshot(0, "s", 7), 1 := WaitOpening(1, "s", 0)])
  {
    var w4;
    events, w4 := BothWait();
    hide Inv, Linked, Run, CountedEnd;
    var w5 := w4.(runtimes := map[7 := Runtime("s", Running, 0, true)],
                  tasks := map[0 := AwaitSnapshot(0, "s", 7), 1 := WaitOpening(1, "s", 0)]);
    assert Run(events + [RuntimeOpened(0, 7, true)]) == Some(w5) by {
      RunOn(events, w4, RuntimeOpened(0, 7, true), w5);
    }
    events := events + [RuntimeOpened(0, 7, true)];
    w := w5.(connections := map[0 := Connection({}, true, false, false), 1 := Connection({}, false, true, false)]);
    assert MappedSessions(w5, 0) == {};
    assert Run(events + [Disconnects(0)]) == Some(w) by { RunOn(events, w5, Disconnects(0), w); }
    events := events + [Disconnects(0)];
  }

  /** The create is accepted. */
  lemma Accepted() returns (events: seq<Event>, w: World)
    ensures Run(events) == Some(w)
    ensures w == Init.(
              connections := map[0 := Connection({}, true, false, false), 1 := Connection({}, false, true, false)],
              openingSessions := map["s" := 0],
              liveSessions := map["s" := 7], sessions := map[7 := LiveSession("s", {}, 0, false, NotDisposing)],
              promises := map[0 := Resolved(7)], runtimes := map[7 := Runtime("s", Running, 0, true)],
              tasks := map[0 := CreateSettled(0, "s"), 1 := WaitOpening(1, "s", 0)])
  {
    hide Inv, Linked, Run, CountedEnd;
    var w1;
    events, w1 := Deserted();
    w := w1.(liveSessions := map["s" := 7], sessions := map[7 := LiveSession("s", {}, 0, false, NotDisposing)],
             promises := map[0 := Resolved(7)], tasks := map[0 := CreateSettled(0, "s"), 1 := WaitOpening(1, "s", 0)]);
    assert Run(events + [SnapshotReturns(0, true)]) == Some(w) by { RunOn(events, w1, SnapshotReturns(0, true), w); }
    events := events + [SnapshotReturns(0, true)];
  }

  /** Both waiting commands have the session. */
  lemma Delivered() returns (events: seq<Event>, w: World)
    ensures Run(events) == Some(w)
    ensures w == Init.(
              connections := map[0 := Connection({}, true, false, false), 1 := Connection({}, false, true, false)],
              liveSessions := map["s" := 7], sessions := map[7 := LiveSession("s", {}, 0, false, NotDisposing)],
              promises := map[0 := Resolved(7)], runtimes := map[7 := Runtime("s", Running, 0, true)],
              tasks := map[0 := Acquired(0, "s", 7), 1 := Acquired(1, "s", 7)])
  {
    hide Inv, Linked, Run, CountedEnd;
    var w2;
    events, w2 := Accepted();
    var w3 := w2.(openingSessions := map[], tasks := map[0 := Acquired(0, "s", 7), 1 := WaitOpening(1, "s", 0)]);
    assert Run(events + [CreateResumes(0)]) == Some(w3) by { RunOn(events, w2, CreateResumes(0), w3); }
    events := events + [CreateResumes(0)];
    w := w3.(tasks := map[0 := Acquired(0, "s", 7), 1 := Acquired(1, "s", 7)]);
    assert Run(events + [OpeningResumes(1)]) == Some(w) by { RunOn(events, w3, OpeningResumes(1), w); }
    events := events + [OpeningResumes(1)];
  }

  /** Attaching for the connection that went away disposes the session. */
  lemma Deposed() returns (events: seq<Event>, w: World)
    ensures Run(events) == Some(w)
    ensures w == Init.(
              connections := map[0 := Connection({}, true, false, false), 1 := Connection({}, false, true, false)],
              liveSessions := map["s" := 7], sessions := map[7 := LiveSession("s", {}, 0, false, Disposing)],
              promises := map[0 := Resolved(7)], runtimes := map[7 := Runtime("s", BeingDisposed, 1, true)],
              tasks := map[1 := Acquired(1, "s", 7)])
  {
    hide Inv, Linked, Run, CountedEnd;
    var w0;
    events, w0 := Delivered();
    w := w0.(sessions := map[7 := LiveSession("s", {}, 0, false, Disposing)],
             runtimes := map[7 := Runtime("s", BeingDisposed, 1, true)], tasks := map[1 := Acquired(1, "s", 7)]);
    assert w0.tasks - {0} == map[1 := Acquired(1, "s", 7)];
    assert Run(events + [AttachResumes(0)]) == Some(w) by { RunOn(events, w0, AttachResumes(0), w); }
    events := events + [AttachResumes(0)];
  }

  /** The other connection attaches to it all the same. */
  lemma Attached() returns (events: seq<Event>, w: World)
    ensures Run(events) == Some(w)
    ensures w == Init.(
              connections := map[0 := Connection({}, true, false, false), 1 := Connection({"s"}, false, true, false)],
              liveSessions := map["s" := 7], sessions := map[7 := LiveSession("s", {1}, 0, false, Disposing)],
              promises := map[0 := Resolved(7)], runtimes := map[7 := Runtime("s", BeingDisposed, 1, true)])
  {
    hide Inv, Linked, Run, CountedEnd;
    var w1;
    events, w1 := Deposed();
    w := w1.(sessions := map[7 := LiveSession("s", {1}, 0, false, Disposing)], tasks := map[],
             connections := map[0 := Connection({}, true, false, false), 1 := Connection({"s"}, false, true, false)]);
    assert w1.tasks - {1} == map[] && {} + {1 as ConnectionId} == {1} && {} + {"s"} == {"s"};
    assert w.connections == w1.connections[1 := Connection({"s"}, false, true, false)];
    assert w.sessions == w1.sessions[7 := LiveSession("s", {1}, 0, false, Disposing)];
    assert Run(events + [AttachResumes(1)]) == Some(w) by { RunOn(events, w1, AttachResumes(1), w); }
    events := events + [AttachResumes(1)];
  }

  /** And the runtime finishes disposing. */
  lemma Gone() returns (events: seq<Event>, w: World)
    ensures Run(events) == Some(w)
    ensures w == Init.(
              connections := map[0 := Connection({}, true, false, false), 1 := Connection({"s"}, false, true, false)],
              liveSessions := map["s" := 7], sessions := map[7 := LiveSession("s", {1}, 0, false, Disposing)],
              promises := map[0 := Resolved(7)], runtimes := map[7 := Runtime("s", Disposed, 1, true)])
  {
    hide Inv, Linked, Run, CountedEnd;
    var w0;
    events, w0 := Attached();
    w := w0.(runtimes := map[7 := Runtime("s", Disposed, 1, true)]);
    assert Run(events + [RuntimeDisposes(7)]) == Some(w) by { RunOn(events, w0, RuntimeDisposes(7), w); }
    events := events + [RuntimeDisposes(7)];
  }

  /**
   attach does not look at the session again after waiting for it: a run ends quietly with a connected
   connection holding a session that no longer exists. SessionAttachments says exactly when that is.
   */
  lemma AttachCanStrand() returns (events: seq<Event>)
    ensures Run(events).Some?
    ensures var w := Run(events).value;
            && !w.IsClosing() && w.tasks == map[] && w.idleEvents == {}
            && 1 in w.connections && !w.connections[1].disconnected
            && "s" in w.connections[1].sessionIds && "s" !in w.liveSessions
  {
    hide Inv, Linked, Run, CountedEnd;
    var w1;
    events, w1 := Gone();
    var w2 := w1.(sessions := map[7 := LiveSession("s", {1}, 0, false, DisposalSettled(true))], liveSessions := map[]);
    assert w1.liveSessions - {"s"} == map[];
    assert Run(events + [DisposalReturns(7, true)]) == Some(w2) by { RunOn(events, w1, DisposalReturns(7, true), w2); }
    events := events + [DisposalReturns(7, true)];
  }
}
