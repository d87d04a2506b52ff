/**
 What becomes of a session whose runtime has failed. terminate disconnects the connections it finds
 and disposes the session once none is left; attach does not look whether the session it waited for
 has failed meanwhile. The failed session goes away in every run in which attach adds nobody to a
 failed session behind the back of terminate, and no other step can keep it.
 */
module SessionFailures {
  import opened Wrappers
  import opened SessionModel
  import opened SessionProofs
  import opened SessionTheorems
  import opened SessionAttachments

  /** Someone is about to disconnect the connection for the sake of the failed session. */
  ghost predicate Told(tasks: map<TaskId, Task>, h: Handle, c: ConnectionId) {
    exists t :: t in tasks && tasks[t].Terminating? && tasks[t].live == h && c in tasks[t].connections
  }

  /** The session is mapped and its runtime has failed. */
  predicate Failed(w: World, h: Handle) {
    h in w.sessions && w.sessions[h].terminal && w.sessions[h].id in w.liveSessions
        && w.liveSessions[w.sessions[h].id] == h
  }

  /** Every connection that a failed mapped session lists is about to be disconnected. */
  ghost predicate Attended(w: World) {
    forall h, c :: Failed(w, h) && c in w.sessions[h].connections ==> Told(w.tasks, h, c)
  }

  /** The check that attach leaves out, but for a connection that is going to be disconnected anyway. */
  ghost predicate Heedful(w: World, e: Event) {
    Attaches(w, e) ==>
      var task := w.tasks[e.t];
      Failed(w, task.live) ==> Told(w.tasks, task.live, task.connection)
  }

  // ---------------------------------------------------------------------------
  // Steps that list nobody new
  // ---------------------------------------------------------------------------

  /** No failed session lists anyone new, and terminate still knows whom to disconnect. */
  ghost predicate Calm(w: World, w': World) {
    && (forall t :: t in w.tasks && w.tasks[t].Terminating? && w.tasks[t].connections != {} ==>
          t in w'.tasks && w'.tasks[t] == w.tasks[t])
    && (forall h :: Failed(w', h) && w'.sessions[h].connections != {} ==>
          Failed(w, h) && w'.sessions[h].connections <= w.sessions[h].connections)
  }

  lemma CalmKeeps(w: World, w': World)
    requires Calm(w, w') && Attended(w)
    ensures Attended(w')
  {
    forall h, c | Failed(w', h) && c in w'.sessions[h].connections ensures Told(w'.tasks, h, c) {
      assert Failed(w, h) && c in w.sessions[h].connections;
      var t :| t in w.tasks && w.tasks[t].Terminating? && w.tasks[t].live == h && c in w.tasks[t].connections;
      assert w'.tasks[t] == w.tasks[t];
    }
  }

  /** Sessions only lose connections, if anything. */
  ghost predicate Shrinks(sessions: map<Handle, LiveSession>, sessions': map<Handle, LiveSession>) {
    sessions'.Keys == sessions.Keys &&
    forall h :: h in sessions ==>
      && sessions'[h].id == sessions[h].id && sessions'[h].terminal == sessions[h].terminal
      && sessions'[h].connections <= sessions[h].connections
  }

  /** All tasks but one go on as they were. */
  ghost predicate OthersStay(tasks: map<TaskId, Task>, tasks': map<TaskId, Task>, t: TaskId) {
    forall u :: u in tasks && u != t ==> u in tasks' && tasks'[u] == tasks[u]
  }

  /** Whether terminate would forget someone if the task went away or became another one. */
  predicate Idle(tasks: map<TaskId, Task>, t: TaskId) {
    t in tasks ==> !tasks[t].Terminating? || tasks[t].connections == {}
  }

  /**
   A change of one idle task, of sessions that may only lose connections, and of other things that do not
   matter here.
   */
  lemma ChangeCalm(w: World, w': World, t: TaskId)
    requires Shrinks(w.sessions, w'.sessions) && w'.liveSessions == w.liveSessions && Idle(w.tasks, t)
    requires OthersStay(w.tasks, w'.tasks, t)
    ensures Calm(w, w')
  {
    forall h | Failed(w', h) ensures Failed(w, h) { }
  }

  lemma SameTasksCalm(w: World, w': World)
    requires Shrinks(w.sessions, w'.sessions) && w'.liveSessions == w.liveSessions && w'.tasks == w.tasks
    ensures Calm(w, w')
  {
    forall h | Failed(w', h) ensures Failed(w, h) { }
  }

  lemma MaybeDisposeShrinks(w: World, h: Handle)
    requires h in w.sessions && h in w.runtimes
    ensures Shrinks(w.sessions, MaybeDispose(w, h).sessions)
  {
  }

  lemma AcquireCalm(w: World, t: TaskId, c: ConnectionId, id: SessionId)
    requires (id in w.liveSessions ==> w.liveSessions[id] in w.sessions) && Idle(w.tasks, t)
    ensures Calm(w, Acquire(w, t, c, id))
  {
    AcquireSame(w, t, c, id);
    AcquireTask(w, t, c, id);
    ChangeCalm(w, Acquire(w, t, c, id), t);
    hide Acquire, Calm;
  }

  lemma DisposingCalm(w: World, t: TaskId)
    requires Possible(w, DisposingResumes(t))
    ensures Calm(w, Apply(w, DisposingResumes(t)))
  {
    hide Acquire, TasksLinked, Calm;
    AcquireCalm(w, t, w.tasks[t].connection, w.tasks[t].id);
    ChangeCalm(w, w.EndTask(t), t);
  }

  lemma OpeningCalm(w: World, t: TaskId)
    requires Possible(w, OpeningResumes(t))
    ensures Calm(w, Apply(w, OpeningResumes(t)))
  {
    hide TasksLinked, Calm;
    ChangeCalm(w, ResumeOpening(w, t), t);
  }

  lemma CommandCalm(w: World, t: TaskId, c: ConnectionId, id: SessionId)
    requires Possible(w, AttachCommand(t, c, id))
    ensures Calm(w, Apply(w, AttachCommand(t, c, id)))
  {
    hide Acquire, TasksLinked, Calm;
    AcquireCalm(w, t, c, id);
  }

  lemma AcquireTask(w: World, t: TaskId, c: ConnectionId, id: SessionId)
    requires id in w.liveSessions ==> w.liveSessions[id] in w.sessions
    ensures OthersStay(w.tasks, Acquire(w, t, c, id).tasks, t)
  {
  }

  lemma CreateCalm(w: World, e: Event)
    requires Possible(w, e) && (e.RuntimeOpened? || e.OpenFails? || e.DiscardReturns? || e.CreateResumes?)
    ensures Calm(w, Apply(w, e))
  {
    hide Linked, TasksLinked, SessionsLinked, MaybeDispose, RemoveFromAll, MappedSessions, Without, Attach, Disconnect,
      Detach,
      Terminate, EndOperation, ClearSessions, Acquire, ReturnSnapshot, ChangePhase, ReturnDisposal, Calm;
    ChangeCalm(w, Apply(w, e), e.t);
  }

  /** A new session is not failed; a rejected one changes nothing here. */
  lemma SnapshotCalm(w: World, t: TaskId, accepted: bool)
    requires Inv(w, {}) && Possible(w, SnapshotReturns(t, accepted))
    ensures Calm(w, Apply(w, SnapshotReturns(t, accepted)))
  {
    hide Owned, Kept, Held, Counted, Mapped, Obliged;
    assert TaskLinked(t, w.tasks[t], w.promises, w.sessions, w.runtimes, w.connections.Keys);
    hide TasksLinked;
    OpeningOf(w, t);
  }

  /** maybeDispose after a change of one idle task and of sessions that may only lose connections. */
  lemma DisposeCalm(w: World, w1: World, h: Handle, t: TaskId)
    requires Shrinks(w.sessions, w1.sessions) && w1.liveSessions == w.liveSessions && Idle(w.tasks, t)
    requires OthersStay(w.tasks, w1.tasks, t) && h in w1.sessions && h in w1.runtimes
    ensures Calm(w, MaybeDispose(w1, h))
  {
    MaybeDisposeShrinks(w1, h);
    ChangeCalm(w, MaybeDispose(w1, h), t);
    hide Calm;
  }

  lemma OperateCalm(w: World, t: TaskId, c: ConnectionId, id: SessionId)
    requires Possible(w, OperationCommand(t, c, id))
    ensures Calm(w, Apply(w, OperationCommand(t, c, id)))
  {
    hide TasksLinked, Calm;
    ChangeCalm(w, Operate(w, t, w.liveSessions[id]), t);
  }

  lemma OperationEndCalm(w: World, t: TaskId)
    requires Possible(w, OperationEnds(t))
    ensures Calm(w, Apply(w, OperationEnds(t)))
  {
    hide TasksLinked, MaybeDispose, Calm;
    var h := w.tasks[t].live;
    DisposeCalm(w, w.EndTask(t).SetSession(h, w.sessions[h].(operationCount := w.sessions[h].operationCount - 1)), h,
        t);
  }

  lemma CleanupCalm(w: World, e: Event)
    requires Possible(w, e) && (e.DetachResumes? || e.TerminateResumes?)
    ensures Calm(w, Apply(w, e))
  {
    hide TasksLinked, MaybeDispose, Calm;
    TaskLive(w, e.t);
    ChangeCalm(w, w.EndTask(e.t), e.t);
    DisposeCalm(w, w.EndTask(e.t), w.tasks[e.t].live, e.t);
  }

  lemma EventCalm(w: World, h: Handle)
    requires Possible(w, RuntimeEvent(h))
    ensures Calm(w, Apply(w, RuntimeEvent(h)))
  {
    hide TasksLinked, MaybeDispose, Calm;
    var w1 := w.(idleEvents := w.idleEvents - {h});
    MaybeDisposeShrinks(w1, h);
    SameTasksCalm(w, MaybeDispose(w1, h));
  }

  /** Steps of connections, runtimes and close. */
  lemma OtherCalm(w: World, e: Event)
    requires Possible(w, e)
    requires e.Connects? || e.ConnectionChanges? || e.RuntimeDisposes? || e.DisposalReturns? || e.PhaseChanges?
             || e.CloseBegins? || e.CloseSessions? || e.CloseClears? || e.CloseEnds?
    ensures Calm(w, Apply(w, e))
  {
    hide Linked, TasksLinked, MaybeDispose, RemoveFromAll, MappedSessions, Without, Attach, Disconnect, Detach, Acquire,
      OpenRuntime, ReturnSnapshot, ResumeCreate, SettleCreate;
  }

  // ---------------------------------------------------------------------------
  // Steps that list and unlist connections
  // ---------------------------------------------------------------------------

  lemma DetachCalm(w: World, t: TaskId, c: ConnectionId, id: SessionId)
    requires Possible(w, DetachCommand(t, c, id))
    ensures Calm(w, Apply(w, DetachCommand(t, c, id)))
  {
    hide TasksLinked, Calm, TellOrDispose;
    if id in w.connections[c].sessionIds && id in w.liveSessions {
      var h := w.liveSessions[id];
      var k := w.connections[c];
      TellCalm(w, w.(connections := w.connections[c := k.(sessionIds := k.sessionIds - {id})]).SetSession(h,
          Less(w.sessions[h], c)), t, h);
    } else {
      SameTasksCalm(w, Detach(w, t, c, id));
    }
  }

  lemma TellCalm(w: World, w1: World, t: TaskId, h: Handle)
    requires Shrinks(w.sessions, w1.sessions) && w1.liveSessions == w.liveSessions && w1.tasks == w.tasks
             && t !in w.tasks
    requires h in w1.sessions && h in w1.runtimes
    ensures Calm(w, TellOrDispose(w1, t, h))
  {
    hide MaybeDispose, Calm;
    ChangeCalm(w, w1.SetTask(t, DetachBroadcast(h)), t);
    DisposeCalm(w, w1, h, t);
  }

  lemma DisconnectCalm(w: World, c: ConnectionId)
    requires c in w.connections && MappedSessions(w, c) <= w.sessions.Keys <= w.runtimes.Keys
    ensures Calm(w, Disconnect(w, c))
  {
    DisconnectShrinks(w, c);
    SameTasksCalm(w, Disconnect(w, c));
    hide Calm, Disconnect, Shrinks, MappedSessions;
  }

  lemma DisconnectShrinks(w: World, c: ConnectionId)
    requires c in w.connections && MappedSessions(w, c) <= w.sessions.Keys <= w.runtimes.Keys
    ensures var w' := Disconnect(w, c);
            Shrinks(w.sessions, w'.sessions) && w'.liveSessions == w.liveSessions && w'.tasks == w.tasks
  {
    hide MappedSessions;
  }

  /** A failing runtime has terminate disconnect everyone it lists. */
  lemma ErrorAttended(w: World, t: TaskId, h: Handle)
    requires Enabled(w, RuntimeError(t, h)) && Attended(w)
    ensures Attended(Terminate(w, t, h))
  {
    var w' := Terminate(w, t, h);
    if !w.sessions[h].terminal {
      forall g, c | Failed(w', g) && c in w'.sessions[g].connections ensures Told(w'.tasks, g, c) {
        if g == h {
          assert w'.tasks[t] == Terminating(h, w.sessions[h].connections);
        } else {
          assert Failed(w, g) && c in w.sessions[g].connections;
          var u :| u in w.tasks && w.tasks[u].Terminating? && w.tasks[u].live == g && c in w.tasks[u].connections;
          assert w'.tasks[u] == w.tasks[u];
        }
      }
    }
  }

  /** A disconnected connection is listed by no mapped session any more. */
  lemma GoneIsUnlisted(w: World, c: ConnectionId, h: Handle)
    requires Mapped(w.liveSessions, w.sessions, w.connections) && c in w.connections
    requires MappedSessions(w, c) <= w.sessions.Keys <= w.runtimes.Keys && Failed(Disconnect(w, c), h)
    ensures c !in Disconnect(w, c).sessions[h].connections
  {
    var id := w.sessions[h].id;
    if c in w.sessions[h].connections {
      assert id in w.connections[c].sessionIds && !w.connections[c].disconnected;
      assert h in MappedSessions(w, c);
    }
  }

  /** terminate disconnects one of those it found, who is then listed no more. */
  lemma TerminateAttended(w: World, t: TaskId, c: ConnectionId)
    requires Inv(w, {}) && Possible(w, TerminateDisconnects(t, c)) && Attended(w)
    ensures Attended(Apply(w, TerminateDisconnects(t, c)))
  {
    hide Owned, Kept, Held, Counted, Obliged, Opening;
    var rest := Terminating(w.tasks[t].live, w.tasks[t].connections - {c});
    var w1 := w.SetTask(t, rest);
    assert TaskLinked(t, w.tasks[t], w.promises, w.sessions, w.runtimes, w.connections.Keys);
    hide TasksLinked;
    Disconnecting(w, c);
    assert MappedSessions(w1, c) == MappedSessions(w, c);
    var w' := Disconnect(w1, c);
    DisconnectCalm(w1, c);
    forall h, d | Failed(w', h) && d in w'.sessions[h].connections ensures Told(w'.tasks, h, d) {
      GoneIsUnlisted(w1, c, h);
      assert Failed(w1, h) && d in w1.sessions[h].connections && d != c;
      assert Failed(w, h) && d in w.sessions[h].connections;
      var u :| u in w.tasks && w.tasks[u].Terminating? && w.tasks[u].live == h && d in w.tasks[u].connections;
      assert w1.tasks[u].Terminating? && w1.tasks[u].live == h && d in w1.tasks[u].connections;
      assert w'.tasks[u] == w1.tasks[u];
    }
  }

  lemma AttachAttended(w: World, t: TaskId)
    requires Inv(w, {}) && Possible(w, AttachResumes(t)) && Attended(w)
    ensures Attended(Apply(w, AttachResumes(t))) <==> Heedful(w, AttachResumes(t))
  {
    hide Owned, Kept, Held, Counted, Mapped, Obliged, Opening;
    TaskLive(w, t);
    hide TasksLinked;
    var e := AttachResumes(t);
    var h, c, w' := w.tasks[t].live, w.tasks[t].connection, Apply(w, e);
    forall g, d ensures Told(w'.tasks, g, d) <==> Told(w.tasks, g, d) { ToldStays(w.tasks, w'.tasks, t, g, d); }
    if !Attaches(w, e) {
      MaybeDisposeShrinks(w.EndTask(t), h);
      ChangeCalm(w, w', t);
      CalmKeeps(w, w');
    } else {
      hide Told;
      assert Failed(w', h) <==> Failed(w, h);
      assert c in w'.sessions[h].connections;
      if Heedful(w, e) {
        forall g, d | Failed(w', g) && d in w'.sessions[g].connections ensures Told(w.tasks, g, d) {
          assert Failed(w, g);
          if !(g == h && d == c) { assert d in w.sessions[g].connections; }
        }
      }
    }
  }

  lemma ToldStays(tasks: map<TaskId, Task>, tasks': map<TaskId, Task>, t: TaskId, h: Handle, c: ConnectionId)
    requires tasks' == tasks - {t} && (t in tasks ==> !tasks[t].Terminating?)
    ensures Told(tasks', h, c) <==> Told(tasks, h, c)
  {
    if Told(tasks, h, c) {
      var u :| u in tasks && tasks[u].Terminating? && tasks[u].live == h && c in tasks[u].connections;
      assert tasks'[u] == tasks[u];
    }
  }

  lemma StepCalm(w: World, e: Event)
    requires Inv(w, {}) && Possible(w, e) && !e.AttachResumes? && !e.RuntimeError? && !e.TerminateDisconnects?
    ensures Calm(w, Apply(w, e))
  {
    hide Inv, Enabled, Calm, Apply, Linked, CountedEnd;
    match e {
      case SnapshotReturns(t, accepted) => SnapshotCalm(w, t, accepted);
      case DetachCommand(t, c, id) => DetachCalm(w, t, c, id);
      case Disconnects(c) => DisconnectsCalm(w, c);
      case OperationCommand(t, c, id) => OperateCalm(w, t, c, id);
      case OperationEnds(t) => OperationEndCalm(w, t);
      case DetachResumes(_, _) => CleanupCalm(w, e);
      case TerminateResumes(_) => CleanupCalm(w, e);
      case RuntimeEvent(h) => EventCalm(w, h);
      case AttachCommand(t, c, id) => CommandCalm(w, t, c, id);
      case DisposingResumes(t) => DisposingCalm(w, t);
      case OpeningResumes(t) => OpeningCalm(w, t);
      case RuntimeOpened(_, _, _) => CreateCalm(w, e);
      case OpenFails(_) => CreateCalm(w, e);
      case DiscardReturns(_) => CreateCalm(w, e);
      case CreateResumes(_) => CreateCalm(w, e);
      case _ => OtherCalm(w, e);
    }
  }

  lemma DisconnectsCalm(w: World, c: ConnectionId)
    requires Possible(w, Disconnects(c))
    ensures Calm(w, Apply(w, Disconnects(c)))
  {
    Disconnecting(w, c);
    DisconnectCalm(w, c);
    hide Disconnect, Calm, Linked;
  }

  lemma ErrorsAttended(w: World, t: TaskId, h: Handle)
    requires Possible(w, RuntimeError(t, h)) && Attended(w)
    ensures Attended(Apply(w, RuntimeError(t, h)))
  {
    ErrorAttended(w, t, h);
    hide Attended, Terminate, Linked;
  }

  lemma OnlyAttachForgets(w: World, e: Event)
    ensures !e.AttachResumes? ==> Heedful(w, e)
  {
  }

  /** Every step but the heedless attach keeps terminate in charge of everyone whom a failed session lists. */
  lemma AttendedKept(w: World, e: Event)
    requires Inv(w, {}) && Enabled(w, e) && Attended(w)
    ensures Possible(w, e) && (Attended(Apply(w, e)) <==> Heedful(w, e))
  {
    StepInv(w, e);
    OnlyAttachForgets(w, e);
    hide Inv, Enabled, Attended, Calm, Apply, Heedful, Linked, CountedEnd;
    match e {
      case AttachResumes(t) => AttachAttended(w, t);
      case RuntimeError(t, h) => ErrorsAttended(w, t, h);
      case TerminateDisconnects(t, c) => TerminateAttended(w, t, c);
      case _ => StepCalm(w, e); CalmKeeps(w, Apply(w, e));
    }
  }

  // ---------------------------------------------------------------------------
  // Whole runs
  // ---------------------------------------------------------------------------

  ghost predicate AlwaysAttended(events: seq<Event>)
    requires Run(events).Some?
  {
    Attended(Run(events).value) && (events == [] || AlwaysAttended(events[..|events| - 1]))
  }

  /** No attach of the run added a connection to a failed session, but for one about to be disconnected. */
  ghost predicate AlwaysHeedful(events: seq<Event>)
    requires Run(events).Some?
  {
    events == [] ||
    var front := events[..|events| - 1];
    AlwaysHeedful(front) && Heedful(Run(front).value, events[|events| - 1])
  }

  /**
   All through a run terminate is in charge of everyone whom a failed session lists, exactly if every
   attach was heedful.
   */
  lemma {:induction false} AttendedThroughout(events: seq<Event>)
    requires Run(events).Some?
    ensures AlwaysAttended(events) <==> AlwaysHeedful(events)
    decreases |events|
  {
    hide Inv, Enabled, Linked, Apply, Heedful, Attended;
    if events == [] {
      assert Attended(Init) by { NobodyFailed(); }
    } else {
      var front, e := events[..|events| - 1], events[|events| - 1];
      AttendedThroughout(front);
      RunInv(front);
      if Attended(Run(front).value) { AttendedKept(Run(front).value, e); }
    }
  }

  lemma NobodyFailed()
    ensures Attended(Init)
  {
  }

  /**
   In such a run no failed session stays behind: when no invocation waits and every idle event was
   delivered, a mapped session whose runtime has failed is being disposed.
   */
  lemma FailedSessionsGo(events: seq<Event>, id: SessionId)
    requires Run(events).Some? && id in Run(events).value.liveSessions && AlwaysHeedful(events)
    requires var w := Run(events).value; !w.IsClosing() && w.tasks == map[] && EventsDelivered(w)
    ensures var w := Run(events).value;
            var h := w.liveSessions[id];
            h in w.sessions && (w.sessions[h].terminal ==> w.sessions[h].disposing != NotDisposing)
  {
    AttendedThroughout(events);
    NoIdleOrphan(events, id);
    ListedConnectionsHold(events, id, 0);
    RunInv(events);
    hide Run, AlwaysHeedful, Owned, Kept, Held, Counted, Mapped, Obliged, Opening, TasksLinked;
    var w := Run(events).value;
    var h := w.liveSessions[id];
    forall c | w.sessions[h].terminal ensures c !in w.sessions[h].connections {
      assert Failed(w, h) && !Told(w.tasks, h, c);
    }
  }

  // ---------------------------------------------------------------------------
  // A run in which one stays
  // ---------------------------------------------------------------------------

  /** A session has been created for a connection that has not attached to it yet. */
  lemma Created() returns (events: seq<Event>, w: World)
    ensures Run(events) == Some(w)
    ensures w == Init.(
              connections := map[0 := Connection({}, false, true, false)],
              liveSessions := map["s" := 7], sessions := map[7 := LiveSession("s", {}, 0, false, NotDisposing)],
              promises := map[0 := Resolved(7)], runtimes := map[7 := Runtime("s", Running, 0, true)],
              tasks := map[0 := Acquired(0, "s", 7)])
  {
    var w3;
    events, w3 := Opened();
    hide Inv, Linked, Run, CountedEnd;
    var w4 := w3.(liveSessions := map["s" := 7], sessions := map[7 := LiveSession("s", {}, 0, false, NotDisposing)],
                  promises := map[0 := Resolved(7)], tasks := map[0 := CreateSettled(0, "s")]);
    assert Run(events + [SnapshotReturns(0, true)]) == Some(w4) by { RunOn(events, w3, SnapshotReturns(0, true), w4); }
    events := events + [SnapshotReturns(0, true)];
    w := w4.(openingSessions := map[], tasks := map[0 := Acquired(0, "s", 7)]);
    assert w4.openingSessions - {"s"} == map[];
    assert Run(events + [CreateResumes(0)]) == Some(w) by { RunOn(events, w4, CreateResumes(0), w); }
    events := events + [CreateResumes(0)];
  }

  lemma Opened() returns (events: seq<Event>, w: World)
    ensures Run(events) == Some(w)
    ensures w == Init.(
              connections := map[0 := Connection({}, false, true, false)],
              openingSessions := map["s" := 0], promises := map[0 := Pending("s")],
              runtimes := map[7 := Runtime("s", Running, 0, true)], tasks := map[0 := AwaitSnapshot(0, "s", 7)])
  {
    events := [];
    assert Run(events) == Some(Init);
    hide Inv, Linked, Run, CountedEnd;
    var w1 := Init.(connections := map[0 := Connection({}, false, true, false)]);
    assert Run(events + [Connects(0)]) == Some(w1) by { RunOn(events, Init, Connects(0), w1); }
    events := events + [Connects(0)];
    var w2 := w1.(openingSessions := map["s" := 0], promises := map[0 := Pending("s")],
      tasks := map[0 := AwaitRuntime(0, "s")]);
    assert Run(events + [AttachCommand(0, 0, "s")]) == Some(w2) by { RunOn(events, w1, AttachCommand(0, 0, "s"), w2); }
    events := events + [AttachCommand(0, 0, "s")];
    w := w2.(runtimes := map[7 := Runtime("s", Running, 0, true)], tasks := map[0 := AwaitSnapshot(0, "s", 7)]);
    assert Run(events + [RuntimeOpened(0, 7, true)]) == Some(w) by { RunOn(events, w2, RuntimeOpened(0, 7, true), w); }
    events := events + [RuntimeOpened(0, 7, true)];
  }

  /** Its runtime fails. */
  lemma FailedEarly() returns (events: seq<Event>, w: World)
    ensures Run(events) == Some(w)
    ensures w == Init.(
              connections := map[0 := Connection({}, false, true, false)],
              liveSessions := map["s" := 7], sessions := map[7 := LiveSession("s", {}, 0, true, NotDisposing)],
              promises := map[0 := Resolved(7)], runtimes := map[7 := Runtime("s", Running, 0, true)],
              tasks := map[0 := Acquired(0, "s", 7), 1 := Terminating(7, {})])
  {
    var w0;
    events, w0 := Created();
    hide Inv, Linked, Run, CountedEnd;
    w := w0.(sessions := map[7 := LiveSession("s", {}, 0, true, NotDisposing)],
             tasks := map[0 := Acquired(0, "s", 7), 1 := Terminating(7, {})]);
    assert Run(events + [RuntimeError(1, 7)]) == Some(w) by { RunOn(events, w0, RuntimeError(1, 7), w); }
    events := events + [RuntimeError(1, 7)];
  }

  /** Then the connection attaches. */
  lemma AttachedTooLate() returns (events: seq<Event>, w: World)
    ensures Run(events) == Some(w)
    ensures w == Init.(
              connections := map[0 := Connection({"s"}, false, true, false)],
              liveSessions := map["s" := 7], sessions := map[7 := LiveSession("s", {0}, 0, true, NotDisposing)],
              promises := map[0 := Resolved(7)], runtimes := map[7 := Runtime("s", Running, 0, true)],
              tasks := map[1 := Terminating(7, {})])
  {
    var w1;
    events, w1 := FailedEarly();
    hide Inv, Linked, Run, CountedEnd;
    w := w1.(sessions := map[7 := LiveSession("s", {0}, 0, true, NotDisposing)], tasks := map[1 := Terminating(7, {})],
             connections := map[0 := Connection({"s"}, false, true, false)]);
    assert w1.tasks - {0} == map[1 := Terminating(7, {})] && {} + {0 as ConnectionId} == {0} && {} + {"s"} == {"s"};
    assert w.connections == w1.connections[0 := Connection({"s"}, false, true, false)];
    assert w.sessions == w1.sessions[7 := LiveSession("s", {0}, 0, true, NotDisposing)];
    assert Run(events + [AttachResumes(0)]) == Some(w) by { RunOn(events, w1, AttachResumes(0), w); }
    events := events + [AttachResumes(0)];
  }

  /**
   It happens: the runtime fails before the connection that asked for it attaches, and the run ends
   quietly with a failed session that is not being disposed and keeps its id to itself.
   */
  lemma FailedSessionStays() returns (events: seq<Event>, w: World)
    ensures Run(events) == Some(w) && !w.IsClosing() && w.tasks == map[] && w.idleEvents == {}
    ensures w.liveSessions == map["s" := 7] && w.sessions == map[7 := LiveSession("s", {0}, 0, true, NotDisposing)]
    ensures w.connections == map[0 := Connection({"s"}, false, true, false)]
  {
    var w2;
    events, w2 := AttachedTooLate();
    hide Inv, Linked, Run, CountedEnd;
    w := w2.(tasks := map[]);
    assert w2.tasks - {1} == map[];
    assert Run(events + [TerminateResumes(1)]) == Some(w) by { RunOn(events, w2, TerminateResumes(1), w); }
    events := events + [TerminateResumes(1)];
  }
}
