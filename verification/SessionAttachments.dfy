/**
 What attach owes to a connection. attach does not look at the session again after waiting for it.
 A connection that holds an id is listed by the live session of that id in every run in which no
 attach meets a session whose disposal has begun, and no other step can break this.
 */
module SessionAttachments {
  import opened Wrappers
  import opened SessionModel
  import opened SessionProofs
  import opened SessionTheorems

  /** The session mapped under the id lists the connection. */
  predicate Listed(w: World, c: ConnectionId, id: SessionId) {
    id in w.liveSessions && w.liveSessions[id] in w.sessions && c in w.sessions[w.liveSessions[id]].connections
  }

  /** And it can still be used. */
  predicate Served(w: World, c: ConnectionId, id: SessionId) {
    Listed(w, c, id) && !w.sessions[w.liveSessions[id]].terminal
        && w.sessions[w.liveSessions[id]].disposing == NotDisposing
  }

  /** Every id that a connection holds is mapped to a session that lists it, and no session in disposal lists anyone. */
  ghost predicate Attached(w: World) {
    && (forall c, id :: c in w.connections && id in w.connections[c].sessionIds ==> Listed(w, c, id))
    && (forall h :: h in w.sessions && w.sessions[h].disposing != NotDisposing ==> w.sessions[h].connections == {})
  }

  /** Whether attach finds the connection usable and so attaches it. */
  predicate Attaches(w: World, e: Event) {
    e.AttachResumes? && e.t in w.tasks && w.tasks[e.t].Acquired? && w.tasks[e.t].connection in w.connections &&
    var k := w.connections[w.tasks[e.t].connection]; !k.disconnected && k.ready && !k.closed
  }

  /** The check that attach leaves out. */
  predicate Careful(w: World, e: Event) {
    Attaches(w, e) ==> w.tasks[e.t].live in w.sessions && w.sessions[w.tasks[e.t].live].disposing == NotDisposing
  }

  /**
   attach leaves the connection served exactly if the session it waited for is still the mapped one,
   not terminal and not being disposed, or the connection was served already.
   */
  lemma AttachLeavesUsable(w: World, t: TaskId)
    requires Linked(w) && Enabled(w, AttachResumes(t)) && Attaches(w, AttachResumes(t))
    ensures var c, id, h := w.tasks[t].connection, w.tasks[t].id, w.tasks[t].live;
            var w' := Apply(w, AttachResumes(t));
            && h in w.sessions && id in w'.connections[c].sessionIds && c in w'.sessions[h].connections
            && (Served(w', c, id) <==>
                  Served(w, c, id)
                  || (id in w.liveSessions && w.liveSessions[id] == h && !w.sessions[h].terminal
                     && w.sessions[h].disposing == NotDisposing))
  {
    assert TaskLinked(t, w.tasks[t], w.promises, w.sessions, w.runtimes, w.connections.Keys);
  }

  /** A step that moves no attachment. */
  ghost predicate Still(w: World, w': World) {
    && (forall c :: c in w'.connections && w'.connections[c].sessionIds != {} ==>
          c in w.connections && w'.connections[c].sessionIds == w.connections[c].sessionIds)
    && (forall h :: h in w.sessions ==> h in w'.sessions && w'.sessions[h].connections == w.sessions[h].connections)
    && (forall h :: h in w'.sessions && w'.sessions[h].disposing != NotDisposing ==>
          w'.sessions[h].connections == {} || (h in w.sessions && w.sessions[h].disposing != NotDisposing))
    && (forall id :: id in w.liveSessions && w.liveSessions[id] in w.sessions
                     && w.sessions[w.liveSessions[id]].connections != {} ==>
          id in w'.liveSessions && w'.liveSessions[id] == w.liveSessions[id])
  }

  lemma StillKeeps(w: World, w': World)
    requires Still(w, w') && Attached(w)
    ensures Attached(w')
  {
  }

  /** A change of tasks, promises, runtimes, counts and marks alone. */
  ghost predicate Aside(w: World, w1: World) {
    && w1.connections == w.connections && w1.liveSessions == w.liveSessions && w1.sessions.Keys == w.sessions.Keys
    && forall g :: g in w.sessions ==>
         w1.sessions[g].connections == w.sessions[g].connections && w1.sessions[g].disposing == w.sessions[g].disposing
  }

  /** Such a change, perhaps followed by maybeDispose. */
  lemma ChangeStill(w: World, w1: World, h: Handle)
    requires Aside(w, w1)
    ensures Still(w, w1)
    ensures h in w1.sessions && h in w1.runtimes ==> Still(w, MaybeDispose(w1, h))
  {
    if h in w1.sessions && h in w1.runtimes { DisposalStarts(w, w1, h); }
    hide MaybeDispose;
  }

  lemma DisposalStarts(w: World, w1: World, h: Handle)
    requires Aside(w, w1) && h in w1.sessions && h in w1.runtimes
    ensures Still(w, MaybeDispose(w1, h))
  {
  }

  lemma AcquireSame(w: World, t: TaskId, c: ConnectionId, id: SessionId)
    requires id in w.liveSessions ==> w.liveSessions[id] in w.sessions
    ensures var w' := Acquire(w, t, c, id);
            w'.connections == w.connections && w'.sessions == w.sessions && w'.liveSessions == w.liveSessions
  {
  }

  lemma AcquireStill(w: World, e: Event)
    requires Possible(w, e) && (e.AttachCommand? || e.DisposingResumes? || e.OpeningResumes?)
    ensures Still(w, Apply(w, e))
  {
    hide Still, Acquire, TasksLinked;
    match e
    case AttachCommand(t, c, id) => AcquireSame(w, t, c, id); ChangeStill(w, Acquire(w, t, c, id), 0);
    case DisposingResumes(t) =>
      AcquireSame(w, t, w.tasks[t].connection, w.tasks[t].id);
      ChangeStill(w, ResumeDisposing(w, t), 0);
    case OpeningResumes(t) => ChangeStill(w, ResumeOpening(w, t), 0);
  }

  lemma CreateStill(w: World, e: Event)
    requires Possible(w, e) && (e.RuntimeOpened? || e.OpenFails? || e.DiscardReturns? || e.CreateResumes?)
    ensures Still(w, Apply(w, e))
  {
    hide Still, Linked, TasksLinked, SessionsLinked, MaybeDispose, RemoveFromAll, MappedSessions, Without, Attach,
      Disconnect, Detach,
      Terminate, EndOperation, ClearSessions, Acquire, ReturnSnapshot, ChangePhase, ReturnDisposal;
    ChangeStill(w, Apply(w, e), 0);
  }

  lemma SnapshotStill(w: World, t: TaskId, accepted: bool)
    requires Inv(w, {}) && Possible(w, SnapshotReturns(t, accepted))
    ensures Still(w, Apply(w, SnapshotReturns(t, accepted)))
  {
    hide Owned, Kept, Held, Counted, Mapped, Obliged;
    assert TaskLinked(t, w.tasks[t], w.promises, w.sessions, w.runtimes, w.connections.Keys);
    hide TasksLinked;
    OpeningOf(w, t);
  }

  /** Steps of operations. */
  lemma OperationStill(w: World, e: Event)
    requires Possible(w, e) && (e.OperationCommand? || e.OperationEnds?)
    ensures Still(w, Apply(w, e))
  {
    hide TasksLinked, MaybeDispose, Still;
    match e
    case OperationCommand(t, c, id) => ChangeStill(w, Operate(w, t, w.liveSessions[id]), 0);
    case OperationEnds(t) =>
      var h := w.tasks[t].live;
      ChangeStill(w, w.EndTask(t).SetSession(h, w.sessions[h].(operationCount := w.sessions[h].operationCount - 1)), h);
  }

  lemma ErrorStill(w: World, t: TaskId, h: Handle)
    requires Possible(w, RuntimeError(t, h))
    ensures Still(w, Apply(w, RuntimeError(t, h)))
  {
    TerminateStill(w, t, h);
    hide Terminate, Still, Linked;
  }

  /** Steps of cleanups and of runtimes that speak up. */
  lemma CleanupStill(w: World, e: Event)
    requires Possible(w, e) && (e.DetachResumes? || e.TerminateResumes? || e.RuntimeEvent?)
    ensures Still(w, Apply(w, e))
  {
    hide TasksLinked, MaybeDispose, Still;
    match e
    case DetachResumes(t, ok) => TaskLive(w, t); ChangeStill(w, w.EndTask(t), w.tasks[t].live);
    case TerminateResumes(t) => TaskLive(w, t); ChangeStill(w, w.EndTask(t), w.tasks[t].live);
    case RuntimeEvent(h) => ChangeStill(w, w.(idleEvents := w.idleEvents - {h}), h);
  }

  lemma TerminateStill(w: World, t: TaskId, h: Handle)
    requires h in w.sessions
    ensures Still(w, Terminate(w, t, h))
  {
    ChangeStill(w, Terminate(w, t, h), h);
    hide Still, MaybeDispose;
  }

  lemma TaskLive(w: World, t: TaskId)
    requires Linked(w) && t in w.tasks
             && (w.tasks[t].DetachBroadcast? || w.tasks[t].Terminating? || w.tasks[t].Acquired?)
    ensures w.tasks[t].live in w.sessions && w.tasks[t].live in w.runtimes
    ensures w.tasks[t].Acquired? ==>
            w.tasks[t].connection in w.connections && w.sessions[w.tasks[t].live].id == w.tasks[t].id
  {
    assert TaskLinked(t, w.tasks[t], w.promises, w.sessions, w.runtimes, w.connections.Keys);
  }

  /** Steps of connections that attach and detach nothing, of runtimes, and of a close that has not cleared the map. */
  lemma OtherStill(w: World, e: Event)
    requires Possible(w, e) && Attached(w)
    requires e.Connects? || e.ConnectionChanges? || e.RuntimeDisposes? || e.PhaseChanges? || e.CloseBegins?
             || e.CloseSessions?
    ensures Still(w, Apply(w, e))
  {
    hide Linked, TasksLinked, MaybeDispose, RemoveFromAll, MappedSessions, Without, Attach, Disconnect, Detach, Acquire,
      ClearSessions,
      OpenRuntime, ReturnSnapshot, ResumeCreate, SettleCreate, ReturnDisposal;
  }

  /** A settled disposal unmaps a session that lists no one. */
  lemma DisposalStill(w: World, h: Handle, ok: bool)
    requires Possible(w, DisposalReturns(h, ok)) && Attached(w)
    ensures Still(w, Apply(w, DisposalReturns(h, ok)))
  {
    hide Linked;
    UnmapStill(w, h, ok);
    hide ReturnDisposal, Still, Attached;
  }

  lemma UnmapStill(w: World, h: Handle, ok: bool)
    requires h in w.sessions && w.sessions[h].disposing != NotDisposing && Attached(w)
    ensures Still(w, ReturnDisposal(w, h, ok))
  {
    hide Listed;
  }

  // ---------------------------------------------------------------------------
  // Steps that attach and detach
  // ---------------------------------------------------------------------------

  lemma DetachAttached(w: World, t: TaskId, c: ConnectionId, id: SessionId)
    requires Inv(w, {}) && Possible(w, DetachCommand(t, c, id)) && Attached(w)
    ensures Attached(Apply(w, DetachCommand(t, c, id)))
  {
    hide Owned, Kept, Held, Counted, Mapped, Obliged, Opening, TasksLinked;
    if id in w.connections[c].sessionIds && id in w.liveSessions {
      var h := w.liveSessions[id];
      var k := w.connections[c];
      var w1 := w.(connections := w.connections[c := k.(sessionIds := k.sessionIds - {id})]).SetSession(h,
        Less(w.sessions[h], c));
      assert Attached(w1);
      ChangeStill(w1, w1.SetTask(t, DetachBroadcast(h)), h);
      ChangeStill(w1, w1, h);
      StillKeeps(w1, Apply(w, DetachCommand(t, c, id)));
    }
  }

  lemma DisconnectAttached(w: World, c: ConnectionId)
    requires c in w.connections && MappedSessions(w, c) <= w.sessions.Keys <= w.runtimes.Keys && Attached(w)
    ensures Attached(Disconnect(w, c))
  {
    var w' := Disconnect(w, c);
    forall d, id | d in w'.connections && id in w'.connections[d].sessionIds ensures Listed(w', d, id) {
      assert Listed(w, d, id);
    }
  }

  lemma DisconnectsAttached(w: World, c: ConnectionId)
    requires Possible(w, Disconnects(c)) && Attached(w)
    ensures Attached(Apply(w, Disconnects(c)))
  {
    Disconnecting(w, c);
    DisconnectAttached(w, c);
    hide Disconnect, Attached, Linked;
  }

  lemma AttachAttached(w: World, t: TaskId)
    requires Inv(w, {}) && Possible(w, AttachResumes(t)) && Attached(w) && !w.Cleared()
    ensures Attached(Apply(w, AttachResumes(t))) <==> Careful(w, AttachResumes(t))
  {
    hide Kept, Held, Counted, Mapped, Obliged, Opening;
    TaskLive(w, t);
    hide TasksLinked;
    var e := AttachResumes(t);
    var h := w.tasks[t].live;
    if !Attaches(w, e) {
      ChangeStill(w, w.EndTask(t), h);
      StillKeeps(w, Apply(w, e));
    } else if Careful(w, e) {
      CarefulAttached(w, t);
    } else {
      assert w.tasks[t].connection in Apply(w, e).sessions[h].connections;
    }
  }

  lemma CarefulAttached(w: World, t: TaskId)
    requires Inv(w, {}) && Possible(w, AttachResumes(t)) && Attached(w) && !w.Cleared()
    requires Attaches(w, AttachResumes(t)) && Careful(w, AttachResumes(t))
    ensures Attached(Apply(w, AttachResumes(t)))
  {
    hide Kept, Held, Counted, Mapped, Obliged, Opening;
    TaskLive(w, t);
    hide TasksLinked;
    var h := w.tasks[t].live;
    assert SessionOwned(h, w.runtimes[h].status, w.sessions[h].id, w.sessions[h].disposing, w.liveSessions, w.closing);
    var w' := Apply(w, AttachResumes(t));
    forall d, id | d in w'.connections && id in w'.connections[d].sessionIds ensures Listed(w', d, id) {
      assert d in w.connections && id in w.connections[d].sessionIds ==> Listed(w, d, id);
    }
  }

  lemma Disconnecting(w: World, c: ConnectionId)
    requires Linked(w) && c in w.connections
    ensures MappedSessions(w, c) <= w.sessions.Keys <= w.runtimes.Keys
  {
    hide TasksLinked;
  }

  lemma TerminateAttached(w: World, t: TaskId, c: ConnectionId)
    requires Inv(w, {}) && Possible(w, TerminateDisconnects(t, c)) && Attached(w)
    ensures Attached(Apply(w, TerminateDisconnects(t, c)))
  {
    hide Owned, Kept, Held, Counted, Mapped, Obliged, Opening;
    var w1 := w.SetTask(t, Terminating(w.tasks[t].live, w.tasks[t].connections - {c}));
    assert TaskLinked(t, w.tasks[t], w.promises, w.sessions, w.runtimes, w.connections.Keys);
    hide TasksLinked;
    ChangeStill(w, w1, 0);
    StillKeeps(w, w1);
    Disconnecting(w, c);
    assert MappedSessions(w1, c) == MappedSessions(w, c);
    DisconnectAttached(w1, c);
    hide Disconnect, Attached;
  }

  lemma StepStill(w: World, e: Event)
    requires Inv(w, {}) && Possible(w, e) && Attached(w)
    requires !e.AttachResumes? && !e.DetachCommand? && !e.Disconnects? && !e.TerminateDisconnects? && !e.CloseClears?
             && !e.CloseEnds?
    ensures Still(w, Apply(w, e))
  {
    hide Inv, Enabled, Attached, Still, Apply, Linked, CountedEnd;
    match e {
      case SnapshotReturns(t, accepted) => SnapshotStill(w, t, accepted);
      case DisposalReturns(h, ok) => DisposalStill(w, h, ok);
      case OperationCommand(_, _, _) => OperationStill(w, e);
      case OperationEnds(_) => OperationStill(w, e);
      case DetachResumes(_, _) => CleanupStill(w, e);
      case TerminateResumes(_) => CleanupStill(w, e);
      case RuntimeEvent(_) => CleanupStill(w, e);
      case RuntimeError(t, h) => ErrorStill(w, t, h);
      case AttachCommand(_, _, _) => AcquireStill(w, e);
      case DisposingResumes(_) => AcquireStill(w, e);
      case OpeningResumes(_) => AcquireStill(w, e);
      case RuntimeOpened(_, _, _) => CreateStill(w, e);
      case OpenFails(_) => CreateStill(w, e);
      case DiscardReturns(_) => CreateStill(w, e);
      case CreateResumes(_) => CreateStill(w, e);
      case _ => OtherStill(w, e);
    }
  }

  /** Every step but the careless attach keeps every attachment, until close clears the map. */
  lemma AttachmentsKept(w: World, e: Event)
    requires Inv(w, {}) && Enabled(w, e) && Attached(w) && !w.Cleared()
    ensures Possible(w, e)
    ensures !Apply(w, e).Cleared() ==> (Attached(Apply(w, e)) <==> Careful(w, e))
  {
    StepInv(w, e);
    OnlyAttach(w, e);
    hide Inv, Enabled, Attached, Still, Apply, Careful, World.Cleared, Linked, CountedEnd;
    match e {
      case AttachResumes(t) => AttachAttached(w, t);
      case DetachCommand(t, c, id) => DetachAttached(w, t, c, id);
      case Disconnects(c) => DisconnectsAttached(w, c);
      case TerminateDisconnects(t, c) => TerminateAttached(w, t, c);
      case CloseClears => Clearing(w, e);
      case CloseEnds => Clearing(w, e);
      case _ => StepStill(w, e); StillKeeps(w, Apply(w, e));
    }
  }

  lemma OnlyAttach(w: World, e: Event)
    ensures !e.AttachResumes? ==> Careful(w, e)
  {
  }

  lemma Clearing(w: World, e: Event)
    requires Possible(w, e) && (e.CloseClears? || e.CloseEnds?)
    ensures Apply(w, e).Cleared()
  {
    hide Linked, TasksLinked;
  }

  // ---------------------------------------------------------------------------
  // Whole runs
  // ---------------------------------------------------------------------------

  /** In every state of the run all attachments stood. */
  ghost predicate AlwaysAttached(events: seq<Event>)
    requires Run(events).Some?
  {
    Attached(Run(events).value) && (events == [] || AlwaysAttached(events[..|events| - 1]))
  }

  /** No attach of the run met a session whose disposal had begun. */
  ghost predicate AlwaysCareful(events: seq<Event>)
    requires Run(events).Some?
  {
    events == [] ||
    var front := events[..|events| - 1];
    AlwaysCareful(front) && Careful(Run(front).value, events[|events| - 1])
  }

  lemma StaysCleared(w: World, e: Event)
    requires Possible(w, e) && w.Cleared()
    ensures Apply(w, e).Cleared()
  {
    hide TasksLinked, SessionsLinked, RemoveFromAll, MappedSessions, MaybeDispose, Without;
    if e.AttachCommand? || e.DisposingResumes? || e.OpeningResumes? || e.RuntimeOpened? || e.SnapshotReturns?
        || e.CreateResumes? {
      AcquireStaysCleared(w, e);
      hide Apply;
    } else {
      hide Acquire, OpenRuntime, ReturnSnapshot, ResumeCreate, ResumeDisposing, ResumeOpening;
    }
  }

  lemma AcquireStaysCleared(w: World, e: Event)
    requires Possible(w, e) && w.Cleared()
    requires e.AttachCommand? || e.DisposingResumes? || e.OpeningResumes? || e.RuntimeOpened? || e.SnapshotReturns?
             || e.CreateResumes?
    ensures Apply(w, e).Cleared()
  {
    hide TasksLinked, SessionsLinked, RemoveFromAll, MappedSessions, MaybeDispose, Without, Attach, Disconnect, Detach,
      Terminate,
      EndOperation, ClearSessions, ChangePhase, ReturnDisposal;
  }

  /**
   In every run, until close clears the map: every id that a connection holds has always been mapped
   to a session that lists the connection, and no session in disposal has ever listed anyone, exactly
   if no attach met a session whose disposal had begun.
   */
  lemma {:induction false} AttachmentsStand(events: seq<Event>)
    requires Run(events).Some? && !Run(events).value.Cleared()
    ensures AlwaysAttached(events) <==> AlwaysCareful(events)
    decreases |events|
  {
    hide Inv, Enabled, Linked, Apply, Careful, Attached, World.Cleared;
    if events == [] {
      assert Attached(Init) by { NoneAttached(); }
    } else {
      var front, e := events[..|events| - 1], events[|events| - 1];
      var w := Run(front).value;
      if w.Cleared() {
        StaysCleared(w, e);
      } else {
        AttachmentsStand(front);
        RunInv(front);
        if Attached(w) { AttachmentsKept(w, e); }
      }
    }
  }

  lemma NoneAttached()
    ensures Attached(Init)
  {
  }

  /**
   So in such a run a connection may operate on every session whose id it holds, as long as the
   session's runtime has not failed.
   */
  lemma HeldSessionsServe(events: seq<Event>, c: ConnectionId, id: SessionId)
    requires Run(events).Some? && !Run(events).value.Cleared() && AlwaysCareful(events)
    requires c in Run(events).value.connections && id in Run(events).value.connections[c].sessionIds
    ensures var w := Run(events).value;
            && Listed(w, c, id) && w.sessions[w.liveSessions[id]].disposing == NotDisposing
            && (RequireAttached(w, c, id) <==> !w.sessions[w.liveSessions[id]].terminal)
  {
    AttachmentsStand(events);
    hide Run, AlwaysCareful;
    var w := Run(events).value;
    assert Listed(w, c, id);
  }
}
