/**
 What the steps of the session protocol bring about, in every reachable state: who gets a session and
 who does not, when a disposal begins, and that a client that asks is served.
 */
module SessionOutcomes {
  import opened Wrappers
  import opened SessionModel
  import opened SessionProofs
  import opened SessionTheorems

  /** A step of a run. */
  ghost predicate Steps(events: seq<Event>, w: World, e: Event, w': World) {
    Run(events) == Some(w) && Enabled(w, e) && Run(events + [e]) == Some(w')
  }

  lemma StepIs(events: seq<Event>, w: World, e: Event, w': World)
    requires Steps(events, w, e, w')
    ensures Inv(w, {}) && Inv(w', {}) && Possible(w, e) && w' == Apply(w, e)
  {
    hide Inv, Enabled, Linked, Apply;
    RunInv(events);
    RunInv(events + [e]);
    EnabledIsPossible(events, e);
  }

  predicate LiveAs(w: World, id: SessionId, h: Handle) {
    id in w.liveSessions && w.liveSessions[id] == h && h in w.sessions
  }

  predicate Usable(s: LiveSession) { !s.terminal && s.disposing == NotDisposing }

  /** The task is creating the session of an id. */
  predicate Creates(w: World, u: TaskId, id: SessionId) {
    u in w.tasks && Creating(w.tasks[u]) && w.tasks[u].id == id
  }

  predicate Waits(w: World, t: TaskId, task: Task) { t in w.tasks && w.tasks[t] == task }

  // ---------------------------------------------------------------------------
  // Acquiring
  // ---------------------------------------------------------------------------

  /** A round of the loop in acquire: for a new command, or once the awaited disposal has gone through. */
  predicate Acquires(w: World, e: Event, t: TaskId, c: ConnectionId, id: SessionId) {
    || e == AttachCommand(t, c, id)
    || (e == DisposingResumes(t) && t in w.tasks && w.tasks[t].WaitDisposing? && w.tasks[t].connection == c
        && w.tasks[t].id == id && w.tasks[t].live in w.sessions
        && w.sessions[w.tasks[t].live].disposing == DisposalSettled(true))
  }

  /**
   Whom acquire answers, and how. The command has the session exactly if one is mapped that has neither
   failed nor begun to be disposed; it waits for a disposal exactly if that has begun on a session that has
   not failed; it is refused exactly if the session has failed. If none is mapped, it waits for whoever is
   creating one, and asks the service itself exactly if nobody is. Nothing else changes.
   */
  lemma AcquireOutcome(events: seq<Event>, w: World, e: Event, w': World, t: TaskId, c: ConnectionId, id: SessionId)
    requires Steps(events, w, e, w') && Acquires(w, e, t, c, id)
    ensures forall h :: Waits(w', t, Acquired(c, id, h)) <==> LiveAs(w, id, h) && Usable(w.sessions[h])
    ensures forall h :: Waits(w', t, WaitDisposing(c, id, h)) <==>
              LiveAs(w, id, h) && !w.sessions[h].terminal && w.sessions[h].disposing != NotDisposing
    ensures t !in w'.tasks <==> exists h :: LiveAs(w, id, h) && w.sessions[h].terminal
    ensures forall u :: Waits(w', t, WaitOpening(c, id, u)) <==> id !in w.liveSessions && Creates(w, u, id)
    ensures Waits(w', t, AwaitRuntime(c, id)) <==> id !in w.liveSessions && forall u :: !Creates(w, u, id)
    ensures w'.sessions == w.sessions && w'.runtimes == w.runtimes && w'.connections == w.connections
            && w'.liveSessions == w.liveSessions
  {
    StepIs(events, w, e, w');
    AcquireAnswers(w, t, c, id);
    hide Inv, Acquire, TasksLinked, Steps;
  }

  lemma AcquireAnswers(w: World, t: TaskId, c: ConnectionId, id: SessionId)
    requires Inv(w, {}) && (t in w.tasks ==> w.tasks[t].WaitDisposing?)
    ensures id in w.liveSessions ==> w.liveSessions[id] in w.sessions
    ensures var w' := Acquire(w, t, c, id);
            && (forall h :: Waits(w', t, Acquired(c, id, h)) <==> LiveAs(w, id, h) && Usable(w.sessions[h]))
            && (forall h :: Waits(w', t, WaitDisposing(c, id, h)) <==>
                  LiveAs(w, id, h) && !w.sessions[h].terminal && w.sessions[h].disposing != NotDisposing)
            && (t !in w'.tasks <==> exists h :: LiveAs(w, id, h) && w.sessions[h].terminal)
            && (forall u :: Waits(w', t, WaitOpening(c, id, u)) <==> id !in w.liveSessions && Creates(w, u, id))
            && (Waits(w', t, AwaitRuntime(c, id)) <==> id !in w.liveSessions && forall u :: !Creates(w, u, id))
            && w'.sessions == w.sessions && w'.runtimes == w.runtimes && w'.connections == w.connections
            && w'.liveSessions == w.liveSessions
  {
    hide Owned, Kept, Held, Counted, Mapped, Obliged, TasksLinked;
    CreatorIsOpening(w, id);
    AcquireAnswer(w, t, c, id);
    AcquireMoves(w, t, c, id);
    assert id in w.liveSessions ==> LiveAs(w, id, w.liveSessions[id]);
    hide Opening, Creates, Acquire;
  }

  /** The answer, case by case. */
  lemma AcquireAnswer(w: World, t: TaskId, c: ConnectionId, id: SessionId)
    requires id in w.liveSessions ==> w.liveSessions[id] in w.sessions
    ensures var w' := Acquire(w, t, c, id);
            && if id in w.liveSessions && w.sessions[w.liveSessions[id]].terminal then t !in w'.tasks
               else Waits(w', t,
                          if id in w.liveSessions then
                            if Usable(w.sessions[w.liveSessions[id]]) then Acquired(c, id, w.liveSessions[id])
                            else WaitDisposing(c, id, w.liveSessions[id])
                          else if id in w.openingSessions then WaitOpening(c, id, w.openingSessions[id])
                          else AwaitRuntime(c, id))
  {
  }

  lemma CreatorIsOpening(w: World, id: SessionId)
    requires Opening(w.openingSessions, w.tasks, w.liveSessions)
    ensures forall u :: Creates(w, u, id) <==> id in w.openingSessions && w.openingSessions[id] == u
  {
  }

  /** A command that waited for a disposal that failed is refused. */
  lemma DisposalFailed(events: seq<Event>, w: World, t: TaskId, w': World)
    requires Steps(events, w, DisposingResumes(t), w')
    requires w.sessions[w.tasks[t].live].disposing == DisposalSettled(false)
    ensures w' == w.(tasks := w.tasks - {t})
  {
    StepIs(events, w, DisposingResumes(t), w');
    hide Inv, TasksLinked, Acquire;
  }

  // ---------------------------------------------------------------------------
  // Creating
  // ---------------------------------------------------------------------------

  /**
   The service returns a runtime: it runs and is asked for its first snapshot exactly if the server is not
   closing, else dispose is called on it.
   */
  lemma OpenOutcome(events: seq<Event>, w: World, t: TaskId, h: Handle, idle: bool, w': World)
    requires Steps(events, w, RuntimeOpened(t, h, idle), w')
    ensures w' == w.(tasks := w'.tasks, runtimes := w'.runtimes) && h in w'.runtimes
            && w'.runtimes[h].id == w.tasks[t].id
    ensures var c, id := w.tasks[t].connection, w.tasks[t].id;
            if !w.IsClosing() then Waits(w', t, AwaitSnapshot(c, id, h)) && w'.runtimes[h].status == Running
            else Waits(w', t, AwaitDiscard(c, id, h)) && w'.runtimes[h].disposeCalls == 1
  {
    StepIs(events, w, RuntimeOpened(t, h, idle), w');
    hide Inv, Linked;
  }

  /**
   The first snapshot: a session that nobody holds yet is mapped exactly if it was accepted, and whoever
   waits for it can go on; else dispose is called on the runtime.
   */
  lemma SnapshotOutcome(events: seq<Event>, w: World, t: TaskId, accepted: bool, w': World)
    requires Steps(events, w, SnapshotReturns(t, accepted), w')
    ensures var id, h := w.tasks[t].id, w.tasks[t].live;
            && (LiveAs(w', id, h) <==> accepted) && t in w'.promises
            && (accepted ==>
                  && w'.sessions[h] == LiveSession(id, {}, 0, false, NotDisposing)
                  && w'.promises[t] == Resolved(h) && w'.runtimes == w.runtimes)
            && (!accepted ==>
                  && w'.liveSessions == w.liveSessions && w'.sessions == w.sessions && w'.promises == w.promises
                  && w'.runtimes[h].disposeCalls == 1)
  {
    StepIs(events, w, SnapshotReturns(t, accepted), w');
    SnapshotMaps(w, t, accepted);
    hide Inv, Linked, ReturnSnapshot, Steps;
  }

  lemma SnapshotMaps(w: World, t: TaskId, accepted: bool)
    requires Inv(w, {}) && Enabled(w, SnapshotReturns(t, accepted))
    ensures var w' := ReturnSnapshot(w, t, accepted);
            var id, h := w.tasks[t].id, w.tasks[t].live;
            && (LiveAs(w', id, h) <==> accepted) && t in w'.promises
            && (accepted ==>
                  && w'.sessions[h] == LiveSession(id, {}, 0, false, NotDisposing)
                  && w'.promises[t] == Resolved(h) && w'.runtimes == w.runtimes)
            && (!accepted ==>
                  && w'.liveSessions == w.liveSessions && w'.sessions == w.sessions && w'.promises == w.promises
                  && w'.runtimes[h].disposeCalls == 1)
  {
    hide Kept, Counted, Mapped, Obliged, Opening;
    assert TaskLinked(t, w.tasks[t], w.promises, w.sessions, w.runtimes, w.connections.Keys);
    hide TasksLinked;
  }

  /** A create that failed, or whose runtime was discarded, is rejected. */
  lemma RejectOutcome(events: seq<Event>, w: World, e: Event, w': World)
    requires Steps(events, w, e, w') && (e.OpenFails? || e.DiscardReturns?)
    ensures e.t in w'.promises && w'.promises[e.t] == Rejected
    ensures w' == w.(tasks := w'.tasks, promises := w'.promises)
  {
    StepIs(events, w, e, w');
    hide Inv, Linked;
  }

  /**
   All that wait for one create share its outcome: the invocation that asked the service and those that
   joined it have the same session if there is one, and are refused if there is none. Nobody is creating
   the id any more once the first of them has resumed.
   */
  lemma CreateOutcome(events: seq<Event>, w: World, e: Event, w': World)
    requires Steps(events, w, e, w') && (e.CreateResumes? || e.OpeningResumes?)
    ensures var t, c, id := e.t, w.tasks[e.t].connection, w.tasks[e.t].id;
            var creator := if e.CreateResumes? then t else w.tasks[t].creator;
            && creator in w.promises
            && (forall h :: Waits(w', t, Acquired(c, id, h)) <==> w.promises[creator] == Resolved(h))
            && (t !in w'.tasks <==> w.promises[creator] == Rejected)
            && (e.CreateResumes? ==> forall u :: !Creates(w', u, id))
            && w'.sessions == w.sessions && w'.liveSessions == w.liveSessions
  {
    StepIs(events, w, e, w');
    CreatorIsOpening(w, w.tasks[e.t].id);
    CreatorIsOpening(w', w.tasks[e.t].id);
    assert TaskLinked(e.t, w.tasks[e.t], w.promises, w.sessions, w.runtimes, w.connections.Keys);
    hide Owned, Kept, Held, Counted, Mapped, Obliged, Steps, TasksLinked, SessionsLinked, Creates;
    if e.CreateResumes? {
      ResumeAnswer(w, e.t);
      assert w.openingSessions[w.tasks[e.t].id] == e.t;
      hide Opening, ResumeCreate;
    } else {
      hide Opening;
      JoinAnswer(w, e.t);
      hide ResumeOpening;
    }
  }

  lemma JoinAnswer(w: World, t: TaskId)
    requires t in w.tasks && w.tasks[t].WaitOpening? && w.tasks[t].creator in w.promises
    requires Enabled(w, OpeningResumes(t))
    ensures var w', p := ResumeOpening(w, t), w.promises[w.tasks[t].creator];
            && w' == w.(tasks := w'.tasks)
            && if p.Resolved? then Waits(w', t, Acquired(w.tasks[t].connection, w.tasks[t].id, p.live))
               else t !in w'.tasks
  {
    hide Enabled;
  }

  lemma ResumeAnswer(w: World, t: TaskId)
    requires Enabled(w, CreateResumes(t)) && w.tasks[t].id in w.openingSessions && w.openingSessions[w.tasks[t].id] == t
    ensures var w' := ResumeCreate(w, t);
            && w' == w.(tasks := w'.tasks, openingSessions := w.openingSessions - {w.tasks[t].id})
            && if w.promises[t].Resolved?
               then Waits(w', t, Acquired(w.tasks[t].connection, w.tasks[t].id, w.promises[t].live))
               else t !in w'.tasks
  {
  }

  // ---------------------------------------------------------------------------
  // Attaching and detaching
  // ---------------------------------------------------------------------------

  predicate Here(k: Connection) { !k.disconnected && k.ready && !k.closed }

  /** The command attaches its connection exactly if that is still usable, and nothing else. */
  lemma AttachOutcome(events: seq<Event>, w: World, t: TaskId, w': World)
    requires Steps(events, w, AttachResumes(t), w')
    ensures var c, id, h := w.tasks[t].connection, w.tasks[t].id, w.tasks[t].live;
            && c in w.connections && h in w.sessions && t !in w'.tasks
            && (forall d, g :: d in w'.connections && g in w'.sessions && d in w'.sessions[g].connections <==>
                  || (d in w.connections && g in w.sessions && d in w.sessions[g].connections)
                  || (d == c && g == h && Here(w.connections[c])))
            && (forall d, i :: d in w'.connections && i in w'.connections[d].sessionIds <==>
                  || (d in w.connections && i in w.connections[d].sessionIds)
                  || (d == c && i == id && Here(w.connections[c])))
  {
    StepIs(events, w, AttachResumes(t), w');
    hide Inv, Steps;
    AttachAdds(w, t);
    hide Apply, Linked;
  }

  lemma AttachAdds(w: World, t: TaskId)
    requires Possible(w, AttachResumes(t))
    ensures var w' := Apply(w, AttachResumes(t));
            var c, id, h := w.tasks[t].connection, w.tasks[t].id, w.tasks[t].live;
            && c in w.connections && h in w.sessions && t !in w'.tasks
            && (forall d, g :: d in w'.connections && g in w'.sessions && d in w'.sessions[g].connections <==>
                  || (d in w.connections && g in w.sessions && d in w.sessions[g].connections)
                  || (d == c && g == h && Here(w.connections[c])))
            && (forall d, i :: d in w'.connections && i in w'.connections[d].sessionIds <==>
                  || (d in w.connections && i in w.connections[d].sessionIds)
                  || (d == c && i == id && Here(w.connections[c])))
  {
    assert TaskLinked(t, w.tasks[t], w.promises, w.sessions, w.runtimes, w.connections.Keys);
    hide TasksLinked, SessionsLinked;
    AttachAdd(w.EndTask(t), w.tasks[t].connection, w.tasks[t].live);
    hide Attach;
  }

  lemma AttachAdd(w: World, c: ConnectionId, h: Handle)
    requires c in w.connections && h in w.sessions && h in w.runtimes
    ensures var w' := Attach(w, c, h);
            && w'.tasks == w.tasks
            && (forall d, g :: d in w'.connections && g in w'.sessions && d in w'.sessions[g].connections <==>
                  || (d in w.connections && g in w.sessions && d in w.sessions[g].connections)
                  || (d == c && g == h && Here(w.connections[c])))
            && (forall d, i :: d in w'.connections && i in w'.connections[d].sessionIds <==>
                  || (d in w.connections && i in w.connections[d].sessionIds)
                  || (d == c && i == w.sessions[h].id && Here(w.connections[c])))
  {
    MayDispose(w, h);
    hide MaybeDispose;
  }

  /**
   detach gives up exactly that connection's hold on that session. If others are left on a session that can
   be used they are told; the session begins to be disposed exactly if it now may be.
   */
  lemma DetachOutcome(events: seq<Event>, w: World, t: TaskId, c: ConnectionId, id: SessionId, w': World)
    requires Steps(events, w, DetachCommand(t, c, id), w')
    ensures forall d, i :: d in w'.connections && i in w'.connections[d].sessionIds <==>
              d in w.connections && i in w.connections[d].sessionIds && !(d == c && i == id)
    ensures w'.sessions.Keys == w.sessions.Keys
    ensures forall d, g :: g in w.sessions ==>
              (d in w'.sessions[g].connections <==>
                 d in w.sessions[g].connections
                 && !(d == c && LiveAs(w, id, g) && id in w.connections[c].sessionIds))
    ensures forall g :: LiveAs(w, id, g) && id in w.connections[c].sessionIds ==>
              && (Waits(w', t, DetachBroadcast(g)) <==> w.sessions[g].connections - {c} != {} && Usable(w.sessions[g]))
              && (w.sessions[g].disposing == NotDisposing ==>
                 (w'.sessions[g].disposing == Disposing <==>
                    && w.sessions[g].connections - {c} == {} && w.sessions[g].operationCount == 0 && !w.IsClosing()
                    && (w.sessions[g].terminal || w.runtimes[g].idle)))
  {
    StepIs(events, w, DetachCommand(t, c, id), w');
    DetachGivesUp(w, t, c, id);
    hide Inv, Detach, Steps, TasksLinked;
  }

  lemma DetachGivesUp(w: World, t: TaskId, c: ConnectionId, id: SessionId)
    requires Linked(w) && Enabled(w, DetachCommand(t, c, id))
    ensures var w' := Detach(w, t, c, id);
            && (forall d, i :: d in w'.connections && i in w'.connections[d].sessionIds <==>
                  d in w.connections && i in w.connections[d].sessionIds && !(d == c && i == id))
            && w'.sessions.Keys == w.sessions.Keys
            && (forall d, g :: g in w.sessions ==>
                  (d in w'.sessions[g].connections <==>
                     d in w.sessions[g].connections
                     && !(d == c && LiveAs(w, id, g) && id in w.connections[c].sessionIds)))
            && (forall g :: LiveAs(w, id, g) && id in w.connections[c].sessionIds ==>
                  && (Waits(w', t, DetachBroadcast(g)) <==>
                     w.sessions[g].connections - {c} != {} && Usable(w.sessions[g]))
                  && (w.sessions[g].disposing == NotDisposing ==>
                     (w'.sessions[g].disposing == Disposing <==>
                        && w.sessions[g].connections - {c} == {} && w.sessions[g].operationCount == 0
                        && !w.IsClosing() && (w.sessions[g].terminal || w.runtimes[g].idle))))
  {
    hide TasksLinked;
    if id in w.connections[c].sessionIds && id in w.liveSessions {
      var h, k := w.liveSessions[id], w.connections[c];
      var w1 := w.(connections := w.connections[c := k.(sessionIds := k.sessionIds - {id})]).SetSession(h,
        Less(w.sessions[h], c));
      ToldOrDisposed(w1, t, h);
      assert Detach(w, t, c, id) == TellOrDispose(w1, t, h);
      hide TellOrDispose, Linked, Detach;
    } else {
      NothingHeld(w, t, c, id);
      hide Detach, SessionsLinked;
    }
  }

  lemma NothingHeld(w: World, t: TaskId, c: ConnectionId, id: SessionId)
    requires c in w.connections && (id in w.connections[c].sessionIds ==> id !in w.liveSessions)
    requires id in w.liveSessions ==> w.liveSessions[id] in w.sessions && w.liveSessions[id] in w.runtimes
    ensures var w' := Detach(w, t, c, id);
            && w' == w.(connections := w'.connections)
            && (forall d, i :: d in w'.connections && i in w'.connections[d].sessionIds <==>
                  d in w.connections && i in w.connections[d].sessionIds && !(d == c && i == id))
  {
  }

  lemma ToldOrDisposed(w: World, t: TaskId, h: Handle)
    requires h in w.sessions && h in w.runtimes && t !in w.tasks
    ensures var w' := TellOrDispose(w, t, h);
            && w'.connections == w.connections && w'.sessions.Keys == w.sessions.Keys
            && (forall g :: g in w.sessions ==> w'.sessions[g].connections == w.sessions[g].connections)
            && (Waits(w', t, DetachBroadcast(h)) <==> w.sessions[h].connections != {} && Usable(w.sessions[h]))
            && (w.sessions[h].disposing == NotDisposing ==>
                 (w'.sessions[h].disposing == Disposing <==>
                    && w.sessions[h].connections == {} && w.sessions[h].operationCount == 0 && !w.IsClosing()
                    && (w.sessions[h].terminal || w.runtimes[h].idle)))
  {
    MayDispose(w, h);
    hide MaybeDispose;
  }

  /** What maybeDispose does. */
  lemma MayDispose(w: World, h: Handle)
    requires h in w.sessions && h in w.runtimes
    ensures var w' := MaybeDispose(w, h);
            && w' == w.(sessions := w'.sessions, runtimes := w'.runtimes) && w'.sessions.Keys == w.sessions.Keys
            && (forall g :: g in w.sessions ==> w'.sessions[g].connections == w.sessions[g].connections)
            && (w.sessions[h].disposing == NotDisposing ==>
                 (w'.sessions[h].disposing == Disposing <==>
                    && w.sessions[h].connections == {} && w.sessions[h].operationCount == 0 && !w.IsClosing()
                    && (w.sessions[h].terminal || w.runtimes[h].idle)))
  {
  }

  /** A disconnected connection holds nothing and no mapped session lists it; all others keep what they have. */
  lemma DisconnectOutcome(events: seq<Event>, w: World, c: ConnectionId, w': World)
    requires Steps(events, w, Disconnects(c), w')
    ensures if w.connections[c].disconnected then w' == w
            else c in w'.connections && w'.connections[c].disconnected && w'.connections[c].sessionIds == {}
    ensures forall id, h :: LiveAs(w', id, h) ==> c !in w'.sessions[h].connections
    ensures forall d, h :: d != c && h in w.sessions ==>
              h in w'.sessions && (d in w'.sessions[h].connections <==> d in w.sessions[h].connections)
    ensures forall d :: d != c && d in w.connections ==> d in w'.connections && w'.connections[d] == w.connections[d]
  {
    StepIs(events, w, Disconnects(c), w');
    DisconnectEmpties(w, c);
    hide Owned, Kept, Held, Counted, Obliged, Opening, Linked, Steps, Disconnect;
  }

  lemma DisconnectEmpties(w: World, c: ConnectionId)
    requires Linked(w) && c in w.connections
    ensures var w' := Disconnect(w, c);
            && (if w.connections[c].disconnected then w' == w
                else c in w'.connections && w'.connections[c].disconnected && w'.connections[c].sessionIds == {})
            && c in w'.connections && w'.connections[c].disconnected
            && (forall d, h :: d != c && h in w.sessions ==>
                  h in w'.sessions && (d in w'.sessions[h].connections <==> d in w.sessions[h].connections))
            && (forall d :: d != c && d in w.connections ==>
                  d in w'.connections && w'.connections[d] == w.connections[d])
  {
    hide TasksLinked;
  }

  // ---------------------------------------------------------------------------
  // Operations, failures and disposals
  // ---------------------------------------------------------------------------

  /**
   A prompt, a change of settings and the like are admitted exactly for a holder of the id of a mapped
   session that can be used; the session then counts one operation more, which is in flight.
   */
  lemma OperateOutcome(events: seq<Event>, w: World, t: TaskId, c: ConnectionId, id: SessionId, w': World)
    requires Run(events) == Some(w) && c in w.connections && Fresh(w, t)
    ensures Enabled(w, OperationCommand(t, c, id)) <==>
            id in w.connections[c].sessionIds && exists h :: LiveAs(w, id, h) && Usable(w.sessions[h])
    ensures Steps(events, w, OperationCommand(t, c, id), w') ==>
              && id in w.liveSessions && w.liveSessions[id] in w.sessions
              && var h := w.liveSessions[id];
                 && OperationsOn(w'.tasks, h) == OperationsOn(w.tasks, h) + {t}
                 && w'.sessions == w.sessions[h := w.sessions[h].(operationCount := w.sessions[h].operationCount + 1)]
  {
    RunInv(events);
    hide TasksLinked;
    assert id in w.liveSessions ==> LiveAs(w, id, w.liveSessions[id]);
    hide Inv, Linked, OperationsOn;
    if Steps(events, w, OperationCommand(t, c, id), w') {
      StepIs(events, w, OperationCommand(t, c, id), w');
      assert LiveAs(w, id, w.liveSessions[id]);
      Begins(w, t, w.liveSessions[id]);
      hide Operate;
      assert w' == Operate(w, t, w.liveSessions[id]);
    }
    hide Steps, Possible, Apply;
  }

  lemma Begins(w: World, t: TaskId, h: Handle)
    requires h in w.sessions
    ensures var w' := Operate(w, t, h);
            && OperationsOn(w'.tasks, h) == OperationsOn(w.tasks, h) + {t}
            && w'.sessions == w.sessions[h := w.sessions[h].(operationCount := w.sessions[h].operationCount + 1)]
  {
  }

  /**
   An operation that has ended is no longer in flight. Its session begins to be disposed exactly if nobody
   is attached, no other operation is in flight, and it has failed or its runtime is idle.
   */
  lemma OperationEndOutcome(events: seq<Event>, w: World, t: TaskId, w': World)
    requires Steps(events, w, OperationEnds(t), w')
    ensures var h := w.tasks[t].live;
            && h in w.sessions && h in w.runtimes && w'.sessions.Keys == w.sessions.Keys
            && OperationsOn(w'.tasks, h) == OperationsOn(w.tasks, h) - {t}
            && w'.sessions[h].operationCount == |OperationsOn(w.tasks, h)| - 1
            && w.sessions[h].disposing == NotDisposing
            && (w'.sessions[h].disposing == Disposing <==>
                  && !w.IsClosing() && w.sessions[h].connections == {} && OperationsOn(w.tasks, h) == {t}
                  && (w.sessions[h].terminal || w.runtimes[h].idle))
  {
    StepIs(events, w, OperationEnds(t), w');
    hide Owned, Kept, Held, Mapped, Obliged, Opening, Steps;
    assert TaskLinked(t, w.tasks[t], w.promises, w.sessions, w.runtimes, w.connections.Keys);
    hide TasksLinked, SessionsLinked;
    OperationEnd(w, t);
    OnlyOne(OperationsOn(w.tasks, w.tasks[t].live), t);
    hide EndOperation;
  }

  lemma OperationEnd(w: World, t: TaskId)
    requires t in w.tasks && w.tasks[t].Operating? && w.tasks[t].live in w.sessions && w.tasks[t].live in w.runtimes
    requires w.sessions[w.tasks[t].live].operationCount > 0
    ensures var h, w' := w.tasks[t].live, EndOperation(w, t);
            && w'.sessions.Keys == w.sessions.Keys
            && OperationsOn(w'.tasks, h) == OperationsOn(w.tasks, h) - {t}
            && w'.sessions[h].operationCount == w.sessions[h].operationCount - 1
            && (w.sessions[h].disposing == NotDisposing ==>
                 (w'.sessions[h].disposing == Disposing <==>
                    && !w.IsClosing() && w.sessions[h].connections == {} && w.sessions[h].operationCount == 1
                    && (w.sessions[h].terminal || w.runtimes[h].idle)))
  {
  }

  lemma OnlyOne(tasks: set<TaskId>, t: TaskId)
    requires t in tasks
    ensures |tasks| == 1 <==> tasks == {t}
  {
    assert |tasks - {t}| == |tasks| - 1;
  }

  /** A failed runtime makes its session terminal for good, and terminate is in charge of whoever it listed. */
  lemma FailureOutcome(events: seq<Event>, w: World, t: TaskId, h: Handle, w': World)
    requires Steps(events, w, RuntimeError(t, h), w')
    ensures h in w.sessions && w'.sessions == w.sessions[h := w.sessions[h].(terminal := true)]
    ensures Waits(w', t, Terminating(h, w.sessions[h].connections)) <==> !w.sessions[h].terminal
    ensures w'.runtimes == w.runtimes && w'.liveSessions == w.liveSessions && w'.connections == w.connections
  {
    StepIs(events, w, RuntimeError(t, h), w');
    Fails(w, t, h);
    hide Inv, Linked, Steps, Enabled, Terminate;
  }

  lemma Fails(w: World, t: TaskId, h: Handle)
    requires h in w.sessions && t !in w.tasks
    ensures var w' := Terminate(w, t, h);
            && w' == w.(sessions := w'.sessions, tasks := w'.tasks)
            && w'.sessions == w.sessions[h := w.sessions[h].(terminal := true)]
            && (Waits(w', t, Terminating(h, w.sessions[h].connections)) <==> !w.sessions[h].terminal)
  {
    assert w.sessions[h].terminal ==> w.sessions[h].(terminal := true) == w.sessions[h];
  }

  /** A disposal that has settled frees exactly its own id, and whoever waits for it can go on. */
  lemma DisposalOutcome(events: seq<Event>, w: World, h: Handle, ok: bool, w': World)
    requires Steps(events, w, DisposalReturns(h, ok), w')
    ensures h in w.sessions && w'.sessions == w.sessions[h := w.sessions[h].(disposing := DisposalSettled(ok))]
    ensures forall id, g :: LiveAs(w', id, g) <==> LiveAs(w, id, g) && g != h
    ensures forall t, c, id :: Waits(w, t, WaitDisposing(c, id, h)) ==> Enabled(w', DisposingResumes(t))
  {
    StepIs(events, w, DisposalReturns(h, ok), w');
    Frees(w, h, ok);
    hide ReturnDisposal, SessionsLinked, Owned, Kept, Held, Counted, Mapped, Obliged, Opening, TasksLinked, Steps;
  }

  lemma Frees(w: World, h: Handle, ok: bool)
    requires h in w.sessions && forall id :: id in w.liveSessions ==>
               w.liveSessions[id] in w.sessions && w.sessions[w.liveSessions[id]].id == id
    ensures var w' := ReturnDisposal(w, h, ok);
            && w' == w.(sessions := w'.sessions, liveSessions := w'.liveSessions)
            && w'.sessions == w.sessions[h := w.sessions[h].(disposing := DisposalSettled(ok))]
            && (forall id, g :: LiveAs(w', id, g) <==> LiveAs(w, id, g) && g != h)
  {
  }

  /** Clearing the map leaves no session mapped, and dispose has then been called on every runtime, once. */
  lemma ClearOutcome(events: seq<Event>, w: World, w': World)
    requires Steps(events, w, CloseClears, w')
    ensures w'.liveSessions == map[] && w'.runtimes.Keys == w.runtimes.Keys
    ensures forall h :: h in w'.runtimes ==> w'.runtimes[h].disposeCalls == 1
  {
    StepIs(events, w, CloseClears, w');
    assert w' == ClearSessions(w);
    hide Inv, Linked, Steps, Apply, Enabled, Possible;
    ClearedIsGivenUp(w');
  }

  // ---------------------------------------------------------------------------
  // Who is disposed
  // ---------------------------------------------------------------------------

  /**
   A session begins to be disposed only if nobody is attached to it, no operation is in flight, the server
   is not closing, and it has failed or its runtime is idle.
   */
  predicate SparesOne(w: World, w': World, h: Handle)
    requires h in w.sessions && h in w'.sessions && h in w'.runtimes
  {
    w.sessions[h].disposing == NotDisposing && w'.sessions[h].disposing != NotDisposing ==>
      && w'.sessions[h].connections == {} && w'.sessions[h].operationCount == 0 && !w.IsClosing()
      && (w'.sessions[h].terminal || w'.runtimes[h].idle)
  }

  ghost predicate Spares(w: World, w': World) {
    forall h :: h in w.sessions && h in w'.sessions && h in w'.runtimes ==> SparesOne(w, w', h)
  }

  /** A change that begins no disposal, perhaps followed by maybeDispose. */
  lemma ChangeSpares(w: World, w1: World, h: Handle)
    requires w1.closing == w.closing
    requires forall g :: g in w.sessions && g in w1.sessions ==>
               w1.sessions[g].disposing == w.sessions[g].disposing || w.sessions[g].disposing != NotDisposing
    ensures Spares(w, w1)
    ensures h in w1.sessions && h in w1.runtimes ==> Spares(w, MaybeDispose(w1, h))
  {
  }

  lemma DisconnectSpares(w: World, c: ConnectionId)
    requires Linked(w) && c in w.connections
    ensures Spares(w, Disconnect(w, c))
  {
    hide TasksLinked;
    var w' := Disconnect(w, c);
    if w' != w {
      var lives := MappedSessions(w, c);
      assert w'.sessions == RemoveFromAll(w, c, lives).sessions && w'.runtimes == RemoveFromAll(w, c, lives).runtimes;
      forall h | h in w.sessions && h in w'.sessions && h in w'.runtimes ensures SparesOne(w, w', h) {
        RemoveSparesOne(w, c, lives, h);
      }
      hide RemoveFromAll, MappedSessions, SparesOne;
    }
  }

  lemma RemoveSparesOne(w: World, c: ConnectionId, lives: set<Handle>, h: Handle)
    requires lives <= w.sessions.Keys <= w.runtimes.Keys && h in w.sessions
    ensures SparesOne(w, RemoveFromAll(w, c, lives), h)
  {
  }

  lemma DetachSpares(w: World, t: TaskId, c: ConnectionId, id: SessionId)
    requires Linked(w) && c in w.connections
    ensures Spares(w, Detach(w, t, c, id))
  {
    hide TasksLinked;
    var k := w.connections[c];
    if id in k.sessionIds && id in w.liveSessions {
      var h := w.liveSessions[id];
      var w1 := w.(connections := w.connections[c := k.(sessionIds := k.sessionIds - {id})]).SetSession(h,
        Less(w.sessions[h], c));
      ChangeSpares(w, w1, h);
      ChangeSpares(w, w1.SetTask(t, DetachBroadcast(h)), h);
      hide MaybeDispose, Spares;
    } else {
      hide MaybeDispose;
    }
  }

  lemma AttachSpares(w: World, c: ConnectionId, h: Handle)
    requires c in w.connections && h in w.sessions && h in w.runtimes
    ensures Spares(w, Attach(w, c, h))
  {
    ChangeSpares(w, w, h);
    hide MaybeDispose;
  }

  lemma StepSpares(w: World, e: Event)
    requires Possible(w, e)
    ensures Spares(w, Apply(w, e))
  {
    hide Spares, TasksLinked, MaybeDispose, Disconnect, Detach, Attach, Acquire;
    match e {
      case Disconnects(c) => DisconnectSpares(w, c);
      case DetachCommand(t, c, id) => DetachSpares(w, t, c, id);
      case AttachResumes(t) => AttachResumeSpares(w, t);
      case TerminateDisconnects(t, c) => TerminateSpares(w, t, c);
      case _ => { hide Apply, Enabled, Linked; OtherSpares(w, e); }
    }
  }

  lemma AttachResumeSpares(w: World, t: TaskId)
    requires Possible(w, AttachResumes(t))
    ensures Spares(w, Apply(w, AttachResumes(t)))
  {
    assert TaskLinked(t, w.tasks[t], w.promises, w.sessions, w.runtimes, w.connections.Keys);
    hide TasksLinked, Attach;
    AttachSpares(w.EndTask(t), w.tasks[t].connection, w.tasks[t].live);
  }

  lemma TerminateSpares(w: World, t: TaskId, c: ConnectionId)
    requires Possible(w, TerminateDisconnects(t, c))
    ensures Spares(w, Apply(w, TerminateDisconnects(t, c)))
  {
    assert TaskLinked(t, w.tasks[t], w.promises, w.sessions, w.runtimes, w.connections.Keys);
    var w1 := w.SetTask(t, Terminating(w.tasks[t].live, w.tasks[t].connections - {c}));
    assert TasksLinked(w1.tasks, w1.promises, w1.sessions, w1.runtimes, w1.connections.Keys);
    hide TasksLinked, Disconnect;
    DisconnectSpares(w1, c);
  }

  /** Steps that change one task or session, and may call maybeDispose on it. */
  lemma OtherSpares(w: World, e: Event)
    requires Possible(w, e)
    requires !e.Disconnects? && !e.DetachCommand? && !e.AttachResumes? && !e.TerminateDisconnects?
    ensures Spares(w, Apply(w, e))
  {
    hide Spares, TasksLinked, MaybeDispose;
    match e {
      case OperationEnds(t) =>
        var h := w.tasks[t].live;
        ChangeSpares(w, w.EndTask(t).SetSession(h, w.sessions[h].(operationCount := w.sessions[h].operationCount - 1)),
            h);
      case DetachResumes(t, ok) => ResumedSpares(w, t);
      case TerminateResumes(t) => ResumedSpares(w, t);
      case RuntimeEvent(h) => ChangeSpares(w, w.(idleEvents := w.idleEvents - {h}), h);
      case _ => PlainSpares(w, e);
    }
  }

  lemma ResumedSpares(w: World, t: TaskId)
    requires Linked(w) && t in w.tasks && (w.tasks[t].DetachBroadcast? || w.tasks[t].Terminating?)
    ensures w.tasks[t].live in w.sessions && w.tasks[t].live in w.runtimes
    ensures Spares(w, w.EndTask(t)) && Spares(w, MaybeDispose(w.EndTask(t), w.tasks[t].live))
  {
    assert TaskLinked(t, w.tasks[t], w.promises, w.sessions, w.runtimes, w.connections.Keys);
    hide TasksLinked, MaybeDispose;
    ChangeSpares(w, w.EndTask(t), w.tasks[t].live);
  }

  lemma PlainSpares(w: World, e: Event)
    requires Possible(w, e)
    requires !e.Disconnects? && !e.DetachCommand? && !e.AttachResumes? && !e.TerminateDisconnects?
    requires !e.OperationEnds? && !e.DetachResumes? && !e.TerminateResumes? && !e.RuntimeEvent?
    ensures Spares(w, Apply(w, e))
  {
    hide TasksLinked, MaybeDispose, MappedSessions, Without, RemoveFromAll, Acquire, ResumeOpening,
      OpenRuntime, ResumeCreate, Attach, Disconnect, Detach, EndOperation;
    match e {
      case AttachCommand(t, c, id) => AcquireMoves(w, t, c, id);
      case DisposingResumes(t) => AcquireMoves(w, t, w.tasks[t].connection, w.tasks[t].id);
      case _ => { hide ResumeDisposing; PlainerSpares(w, e); }
    }
  }

  lemma PlainerSpares(w: World, e: Event)
    requires Possible(w, e)
    requires !e.Disconnects? && !e.DetachCommand? && !e.AttachResumes? && !e.TerminateDisconnects?
    requires !e.OperationEnds? && !e.DetachResumes? && !e.TerminateResumes? && !e.RuntimeEvent?
    requires !e.AttachCommand? && !e.DisposingResumes?
    ensures Spares(w, Apply(w, e))
  {
    hide TasksLinked, MaybeDispose, MappedSessions, Without, RemoveFromAll, Acquire, Attach, Disconnect,
      Detach, EndOperation, ResumeDisposing;
  }

  /** No step of any run disposes a session that is listed, in use, or at work. */
  lemma DisposalsSpare(events: seq<Event>, w: World, e: Event, w': World)
    requires Steps(events, w, e, w')
    ensures Spares(w, w')
  {
    StepIs(events, w, e, w');
    StepSpares(w, e);
    hide Inv, Spares, Possible, Apply;
  }

  // ---------------------------------------------------------------------------
  // A client that asks is served
  // ---------------------------------------------------------------------------

  /** The connection may use the session, which is the one mapped under the id. */
  predicate ServedBy(w: World, c: ConnectionId, id: SessionId, h: Handle) {
    LiveAs(w, id, h) && c in w.connections && RequireAttached(w, c, id)
  }

  /** An id that nobody holds: a client that can be reached is served once the service has opened the session. */
  lemma NewSessionServes(events: seq<Event>, w: World, t: TaskId, c: ConnectionId, id: SessionId, h: Handle, idle: bool)
    requires Run(events) == Some(w) && !w.IsClosing() && c in w.connections && Here(w.connections[c])
    requires id !in w.liveSessions && (forall u :: !Creates(w, u, id)) && Fresh(w, t)
    requires h !in w.runtimes && h !in w.sessions
    ensures var script := [AttachCommand(t, c, id), RuntimeOpened(t, h, idle), SnapshotReturns(t, true),
                           CreateResumes(t), AttachResumes(t)];
            && Run(events + script).Some?
            && ServedBy(Run(events + script).value, c, id, h)
  {
    var e1, e2, e3, e4 := AttachCommand(t, c, id), RuntimeOpened(t, h, idle), SnapshotReturns(t, true),
      CreateResumes(t);
    RunInv(events);
    NobodyOpens(w, id);
    hide Inv, Run, Linked, CountedEnd, Creates;
    var w1 := Asked(events, w, t, c, id);
    var w2 := Opened(events + [e1], w1, t, h, idle);
    var w3 := Accepted(events + [e1] + [e2], w2, t);
    var w4 := Delivered(events + [e1] + [e2] + [e3], w3, t);
    AttachServes(events + [e1] + [e2] + [e3] + [e4], w4, t);
    InOneGo(events, e1, e2, e3, e4, AttachResumes(t));
    hide Enabled, ServedBy, LiveAs, Usable;
  }

  lemma NobodyOpens(w: World, id: SessionId)
    requires Inv(w, {})
    ensures id in w.openingSessions ==> Creates(w, w.openingSessions[id], id)
  {
    hide Owned, Kept, Held, Counted, Mapped, Obliged, TasksLinked;
    CreatorIsOpening(w, id);
    hide Opening, Creates;
  }

  lemma InOneGo(events: seq<Event>, e1: Event, e2: Event, e3: Event, e4: Event, e5: Event)
    ensures events + [e1] + [e2] + [e3] + [e4] + [e5] == events + [e1, e2, e3, e4, e5]
  {
  }

  lemma Asked(events: seq<Event>, w: World, t: TaskId, c: ConnectionId, id: SessionId) returns (w': World)
    requires Run(events) == Some(w) && Fresh(w, t) && c in w.connections
             && id !in w.liveSessions && id !in w.openingSessions
    ensures Run(events + [AttachCommand(t, c, id)]) == Some(w') && Waits(w', t, AwaitRuntime(c, id))
    ensures id in w'.openingSessions && w'.openingSessions[id] == t
    ensures w' == w.(tasks := w'.tasks, openingSessions := w'.openingSessions, promises := w'.promises)
  {
    hide Run, Linked, CountedEnd;
    w' := Acquire(w, t, c, id);
    RunOn(events, w, AttachCommand(t, c, id), w');
  }

  lemma Opened(events: seq<Event>, w: World, t: TaskId, h: Handle, idle: bool) returns (w': World)
    requires Run(events) == Some(w) && t in w.tasks && w.tasks[t].AwaitRuntime? && !w.IsClosing()
    requires h !in w.runtimes && h !in w.sessions
    ensures Run(events + [RuntimeOpened(t, h, idle)]) == Some(w') && h in w'.runtimes
    ensures Waits(w', t, AwaitSnapshot(w.tasks[t].connection, w.tasks[t].id, h))
    ensures w' == w.(tasks := w'.tasks, runtimes := w'.runtimes)
  {
    hide Run, Linked, CountedEnd;
    w' := OpenRuntime(w, t, h, idle);
    RunOn(events, w, RuntimeOpened(t, h, idle), w');
  }

  lemma Accepted(events: seq<Event>, w: World, t: TaskId) returns (w': World)
    requires Run(events) == Some(w) && t in w.tasks && w.tasks[t].AwaitSnapshot? && w.tasks[t].live in w.runtimes
    ensures Run(events + [SnapshotReturns(t, true)]) == Some(w')
    ensures Waits(w', t, CreateSettled(w.tasks[t].connection, w.tasks[t].id))
    ensures LiveAs(w', w.tasks[t].id, w.tasks[t].live) && Usable(w'.sessions[w.tasks[t].live])
    ensures t in w'.promises && w'.promises[t] == Resolved(w.tasks[t].live)
    ensures w'.openingSessions == w.openingSessions && w'.connections == w.connections
  {
    hide Run, Linked, CountedEnd;
    w' := ReturnSnapshot(w, t, true);
    RunOn(events, w, SnapshotReturns(t, true), w');
  }

  lemma Delivered(events: seq<Event>, w: World, t: TaskId) returns (w': World)
    requires Run(events) == Some(w) && t in w.tasks && w.tasks[t].CreateSettled?
    requires t in w.promises && w.promises[t].Resolved?
    ensures Run(events + [CreateResumes(t)]) == Some(w')
    ensures Waits(w', t, Acquired(w.tasks[t].connection, w.tasks[t].id, w.promises[t].live))
    ensures w'.sessions == w.sessions && w'.liveSessions == w.liveSessions && w'.connections == w.connections
  {
    hide Run, Linked, CountedEnd;
    w' := ResumeCreate(w, t);
    RunOn(events, w, CreateResumes(t), w');
  }

  /** A session in use: another client that can be reached is served by the same one. */
  lemma LiveSessionServes(events: seq<Event>, w: World, t: TaskId, c: ConnectionId, id: SessionId, h: Handle)
    requires Run(events) == Some(w) && c in w.connections && Here(w.connections[c]) && Fresh(w, t)
    requires LiveAs(w, id, h) && Usable(w.sessions[h])
    ensures var script := [AttachCommand(t, c, id), AttachResumes(t)];
            && Run(events + script).Some?
            && ServedBy(Run(events + script).value, c, id, h)
  {
    var w1 := w.SetTask(t, Acquired(c, id, h));
    RunInv(events);
    assert Acquire(w, t, c, id) == w1;
    hide Inv, Run, Linked, CountedEnd;
    RunOn(events, w, AttachCommand(t, c, id), w1);
    AttachServes(events + [AttachCommand(t, c, id)], w1, t);
    assert events + [AttachCommand(t, c, id)] + [AttachResumes(t)] ==
           events + [AttachCommand(t, c, id), AttachResumes(t)];
  }

  lemma AttachServes(events: seq<Event>, w: World, t: TaskId)
    requires Run(events) == Some(w) && t in w.tasks && w.tasks[t].Acquired? && w.tasks[t].connection in w.connections
    requires LiveAs(w, w.tasks[t].id, w.tasks[t].live) && Usable(w.sessions[w.tasks[t].live])
    requires Here(w.connections[w.tasks[t].connection])
    ensures Run(events + [AttachResumes(t)]).Some?
    ensures ServedBy(Run(events + [AttachResumes(t)]).value, w.tasks[t].connection, w.tasks[t].id, w.tasks[t].live)
  {
    EnabledIsPossible(events, AttachResumes(t));
    hide Run, TasksLinked;
  }
}
