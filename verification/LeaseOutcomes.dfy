/**
 What the calls on leases bring about, in every reachable state: who is granted a lease and who is not,
 how an acquisition goes on, and what a release does.
 */
module LeaseOutcomes {
  import opened Wrappers
  import opened Leases

  /** A step of a run. */
  ghost predicate Steps(events: seq<Event>, w: World, e: Event, w': World) {
    Run(events) == Some(w) && Enabled(w, e) && Run(events + [e]) == Some(w')
  }

  lemma StepIs(events: seq<Event>, w: World, e: Event, w': World)
    requires Steps(events, w, e, w')
    ensures Inv(w) && Inv(w') && Settled(w, {}) && Settled(w', {}) && w' == Apply(w, e)
  {
    hide Inv, Enabled, Apply, Settled;
    RunKeeps(events);
    RunKeeps(events + [e]);
    RunSettled(events);
    RunSettled(events + [e]);
    assert (events + [e])[..|events|] == events;
  }

  /**
   The exclusive token is one reserved as exclusive, and every token, apart from some, is being acquired, or
   held by a handle, or released.
   */
  ghost predicate Settled(w: World, but: set<Token>) {
    && Marked(w.row, w.tokens)
    && (forall t :: t in w.tokens && t !in but ==> t in w.acquiring || t in w.handles || w.tokens[t].released)
  }

  predicate Marked(row: Row, tokens: map<Token, Reserved>) {
    row.exclusive.Some? ==> row.exclusive.value in tokens && tokens[row.exclusive.value].mode == Exclusive
  }

  lemma {:induction false} RunSettled(events: seq<Event>)
    requires Run(events).Some?
    ensures Settled(Run(events).value, {})
    decreases |events|
  {
    if events != [] {
      hide Apply, Enabled, Settled;
      RunSettled(events[..|events| - 1]);
      StepSettled(Run(events[..|events| - 1]).value, events[|events| - 1]);
    }
  }

  lemma StepSettled(w: World, e: Event)
    requires Settled(w, {}) && Enabled(w, e)
    ensures Settled(Apply(w, e), {})
  {
    match e {
      case Acquires(t, mode, next) => AcquireSettled(w, t, mode, next); hide Acquire, Settled;
      case AcquireResumes(t, next) => ResumeSettled(w, t, next); hide Resume, Settled;
      case ReleaseCalled(t, relinquish, next) => StartSettled(w, t, relinquish, next); hide StartRelease, Settled;
      case ReleaseResumes(t) => FinishSettled(w, t); hide FinishRelease, Settled;
      case _ => hide Acquire, Resume, StartRelease, FinishRelease;
    }
  }

  lemma AttachSettled(w: World, t: Token, reconciled: bool, next: RequestId)
    requires Settled(w, {t}) && t in w.tokens
    ensures Settled(Attach(w, t, reconciled, next), {})
  {
  }

  lemma ProceedSettled(w: World, t: Token, next: RequestId)
    requires Settled(w, {t}) && t in w.tokens
    ensures Settled(Proceed(w, t, next), {})
  {
    AttachSettled(w, t, false, next);
    WaitIs(w, t, next);
    hide Attach, Marked, Proceed;
  }

  lemma WaitIs(w: World, t: Token, next: RequestId)
    requires t in w.tokens
    ensures var w' := Proceed(w, t, next);
            if !w.row.cleanup then w' == Attach(w, t, false, next)
            else
              && t in w'.acquiring && w' == w.(requests := w'.requests, reconciliation := w'.reconciliation,
                                              acquiring := w.acquiring[t := w'.acquiring[t]])
  {
    hide Attach;
  }

  lemma AcquireSettled(w: World, t: Token, mode: Mode, next: RequestId)
    requires Settled(w, {}) && t !in w.tokens
    ensures Settled(Acquire(w, t, mode, next), {})
  {
    if MayReserve(w.row, mode) {
      var w1 := AddToken(w, t, mode);
      assert Settled(w1, {t});
      ProceedSettled(w1, t, next);
      hide AddToken, Proceed;
    }
  }

  lemma ReleaseSettled(w: World, t: Token)
    requires Settled(w, {t}) && t in w.tokens
    ensures Settled(ReleaseToken(w, t), {})
  {
  }

  lemma ResumeSettled(w: World, t: Token, next: RequestId)
    requires Settled(w, {}) && Enabled(w, AcquireResumes(t, next))
    ensures Settled(Resume(w, t, next), {})
  {
    hide Attach, Proceed;
    match w.acquiring[t] {
      case ForDetachment(_) => ProceedSettled(w, t, next); hide Settled;
      case ForCleanup(_) =>
        AttachSettled(w, t, true, next);
        GiveUpSettled(w, t);
        hide Settled, GiveUp;
      case ForAttachment(r) =>
        GiveUpSettled(w.(attachment := if w.attachment == Some(r) then None else w.attachment), t);
        hide GiveUp;
    }
  }

  lemma GiveUpSettled(w: World, t: Token)
    requires Settled(w, {}) && t in w.tokens
    ensures Settled(GiveUp(w, t), {})
  {
    hide Release;
    ReleaseMarked(w.row, w.tokens, t);
  }

  lemma ReleaseMarked(row: Row, tokens: map<Token, Reserved>, t: Token)
    requires Marked(row, tokens) && t in tokens
    ensures Marked(Release(row, t), tokens[t := tokens[t].(released := true)])
  {
  }

  /** A handle gives its token back, or not. */
  lemma HandSettled(w: World, t: Token, state: HandleState)
    requires Settled(w, {}) && t in w.handles && t in w.tokens
    ensures Settled(SetState(ReleaseToken(w, t), t, state), {}) && Settled(SetState(w, t, state), {})
  {
    ReleaseMarked(w.row, w.tokens, t);
    hide Release, Marked;
  }

  lemma StartSettled(w: World, t: Token, relinquish: bool, next: RequestId)
    requires Settled(w, {}) && Enabled(w, ReleaseCalled(t, relinquish, next))
    ensures Settled(StartRelease(w, t, relinquish, next), {})
  {
    var w1 := Send(w, next).(detachment := Some(next));
    assert Settled(w1, {});
    HandSettled(w1, t, Releasing(relinquish, next));
    HandSettled(w, t, Released);
    HandSettled(w, t, Refreshed(w.handles[t], w.row.generation));
    hide SetState, ReleaseToken, Settled, Send;
  }

  lemma FinishSettled(w: World, t: Token)
    requires Settled(w, {}) && Enabled(w, ReleaseResumes(t))
    ensures Settled(FinishRelease(w, t), {})
  {
    var h := w.handles[t];
    var w1 := w.(detachment := if w.detachment == Some(h.state.request) then None else w.detachment);
    assert Settled(w1, {});
    HandSettled(w1, t, Released);
    FailSettled(w1, t);
    hide ReleaseToken, Settled, SetState, FailRelease;
  }

  lemma FailSettled(w: World, t: Token)
    requires Settled(w, {}) && t in w.handles && t in w.tokens && w.handles[t].state.Releasing?
    ensures Settled(FailRelease(w, t), {})
  {
    HandSettled(w, t, Released);
    HandSettled(w, t, Active);
    HandSettled(w, t, Invalidated);
    CleanupSettled(SetState(ReleaseToken(w, t), t, Released));
    hide ReleaseToken, Settled, SetState;
  }

  lemma CleanupSettled(w: World)
    requires Settled(w, {})
    ensures Settled(w.(row := w.row.(cleanup := true)), {})
  {
  }

  // ---------------------------------------------------------------------------
  // Who is granted a lease
  // ---------------------------------------------------------------------------

  /** Nothing that is live stands in the way. */
  ghost predicate Allowed(w: World, mode: Mode) {
    var live := Live(w.tokens, w.row.generation);
    if mode == Exclusive then live == {} else forall u :: u in live ==> w.tokens[u].mode == Shared
  }

  /**
   In a run in which no token of an earlier generation was released into a positive count, a lease is granted
   exactly if it may be: an exclusive one if no token is live, a shared one if no live token is exclusive.
   A refused call changes nothing.
   */
  lemma GrantOutcome(events: seq<Event>, w: World, e: Event, w': World)
    requires Steps(events, w, e, w') && (e.Acquires? || e.Creates?) && !w.stale
    ensures var mode := if e.Acquires? then e.mode else Exclusive;
            && (e.t in Live(w'.tokens, w'.row.generation) <==> Allowed(w, mode))
            && (!Allowed(w, mode) ==> w' == w)
            && (Allowed(w, mode) ==> w'.tokens == w.tokens[e.t := Reserved(mode, w.row.generation, false)])
  {
    StepIs(events, w, e, w');
    var mode := if e.Acquires? then e.mode else Exclusive;
    AllowedIsMay(w, mode);
    hide Counted, Settled, Steps, Placed, Allowed;
    if MayReserve(w.row, mode) {
      Reserves(w, e);
      LiveMeans(w'.tokens, w'.row.generation, e.t);
    } else {
      LiveMeans(w.tokens, w.row.generation, e.t);
    }
    hide Live, Acquire, Apply, Enabled;
  }

  lemma AllowedIsMay(w: World, mode: Mode)
    requires Counted(w.row, w.tokens) && Marked(w.row, w.tokens)
    ensures MayReserve(w.row, mode) <==> Allowed(w, mode)
  {
    var live := Live(w.tokens, w.row.generation);
    if w.row.exclusive.Some? { assert w.row.exclusive.value in live; }
    hide Live;
  }

  lemma Reserves(w: World, e: Event)
    requires (e.Acquires? || e.Creates?) && Enabled(w, e)
    requires MayReserve(w.row, if e.Acquires? then e.mode else Exclusive)
    ensures var w' := Apply(w, e);
            && w'.tokens == w.tokens[e.t :=
               Reserved(if e.Acquires? then e.mode else Exclusive, w.row.generation, false)]
            && w'.row.generation == w.row.generation
  {
    if e.Acquires? { GoesOnAs(AddToken(w, e.t, e.mode), e.t, e.next); }
    hide Proceed, Reserve;
  }

  /** What goes on with an acquisition leaves its reservation alone. */
  lemma GoesOnAs(w: World, t: Token, next: RequestId)
    requires t in w.tokens
    ensures Proceed(w, t, next).row == w.row && Proceed(w, t, next).tokens == w.tokens
  {
    AttachesAs(w, t, false, next);
    hide Attach;
    if w.row.cleanup { assert Send(w, next).row == w.row; }
  }

  lemma AttachesAs(w: World, t: Token, reconciled: bool, next: RequestId)
    requires t in w.tokens
    ensures Attach(w, t, reconciled, next).row == w.row && Attach(w, t, reconciled, next).tokens == w.tokens
  {
  }

  /** Sharing works: two shared handles are in use at once. */
  lemma TwoSharedHandles() returns (events: seq<Event>, w: World)
    ensures Run(events) == Some(w) && Clean(w) && IsActive(w, 0) && IsActive(w, 1)
    ensures 0 in w.tokens && 1 in w.tokens && w.tokens[0].mode == w.tokens[1].mode == Shared
  {
    var w1;
    events, w1 := HeldShared();
    hide Run;
    w := w1.(row := Row(2, None, 0, false), handles := w1.handles[1 := Handle(0, Active)],
             tokens := w1.tokens[1 := Reserved(Shared, 0, false)]);
    assert w1.acquiring - {1} == map[];
    assert Run(events + [Acquires(1, Shared, 11)]) == Some(w) by { Goes(events, w1, Acquires(1, Shared, 11), w); }
    events := events + [Acquires(1, Shared, 11)];
  }

  // ---------------------------------------------------------------------------
  // How an acquisition goes on
  // ---------------------------------------------------------------------------

  predicate WaitsFor(w: World, t: Token, wait: Wait) { t in w.acquiring && w.acquiring[t] == wait }

  /** A request that a step sends: it is under way exactly if there is a connection, and fails at once otherwise. */
  predicate Sent(w: World, w': World, next: RequestId) {
    w'.requests == w.requests[next := if w.connected then Pending else Failed]
  }

  /**
   Where an acquisition stands that may go on to attach: it waits for the attach under way, or else for one
   of its own; unless it need not attach, when it has its handle.
   */
  predicate Attaching(w: World, w': World, t: Token, need: bool, next: RequestId) {
    if !need then t in w'.handles && w'.handles[t] == Handle(w.row.generation, Active) && w'.requests == w.requests
    else if w.attachment.Some? then WaitsFor(w', t, ForAttachment(w.attachment.value)) && w'.requests == w.requests
    else WaitsFor(w', t, ForAttachment(next)) && Sent(w, w', next) && w'.attachment == Some(next)
  }

  /**
   Or first for the cleanup under way, or else for one of its own, if a detach of the session is
   outstanding.
   */
  predicate CleaningUp(w: World, w': World, t: Token, next: RequestId) {
    if w.reconciliation.Some? then WaitsFor(w', t, ForCleanup(w.reconciliation.value)) && w'.requests == w.requests
    else WaitsFor(w', t, ForCleanup(next)) && Sent(w, w', next)
  }

  /**
   A granted acquisition has its handle at once exactly if the session is attached, no detach is under way
   and none is outstanding. Otherwise it waits, first for the detach under way, then for the outstanding
   one, then to be attached.
   */
  lemma AcquisitionBegins(events: seq<Event>, w: World, t: Token, mode: Mode, next: RequestId, w': World)
    requires Steps(events, w, Acquires(t, mode, next), w') && t in w'.tokens
    ensures IsActive(w', t) <==> w.attached && w.detachment == None && !w.row.cleanup
    ensures if w.detachment.Some? then WaitsFor(w', t, ForDetachment(w.detachment.value)) && w'.requests == w.requests
            else if w.row.cleanup then CleaningUp(w, w', t, next)
            else Attaching(w, w', t, !w.attached, next)
  {
    StepIs(events, w, Acquires(t, mode, next), w');
    Begins(w, t, mode, next);
    hide Inv, Settled, Steps, Acquire;
    assert Placed(w);
  }

  /** The handle that an acquisition makes, if it makes one now. */
  predicate Handed(w: World, w': World, t: Token, now: bool) {
    && w'.row.generation == w.row.generation && w'.attached == w.attached
    && (t in w'.handles <==> now) && (now ==> w'.handles[t] == Handle(w.row.generation, Active) && t !in w'.acquiring)
  }

  lemma AttachBegins(w: World, t: Token, reconciled: bool, next: RequestId)
    requires t in w.tokens && t !in w.handles
    ensures var w' := Attach(w, t, reconciled, next);
            && Handed(w, w', t, !reconciled && w.attached) && Attaching(w, w', t, reconciled || !w.attached, next)
  {
  }

  lemma ProceedBegins(w: World, t: Token, next: RequestId)
    requires t in w.tokens && t !in w.handles
    ensures var w' := Proceed(w, t, next);
            && Handed(w, w', t, w.attached && !w.row.cleanup)
            && if w.row.cleanup then CleaningUp(w, w', t, next) else Attaching(w, w', t, !w.attached, next)
  {
    AttachBegins(w, t, false, next);
    hide Attach;
    if !w.row.cleanup { hide Handed, Attaching; }
  }

  lemma Begins(w: World, t: Token, mode: Mode, next: RequestId)
    requires t !in w.tokens && t !in w.handles && MayReserve(w.row, mode)
    ensures var w' := Acquire(w, t, mode, next);
            && Handed(w, w', t, w.attached && w.detachment == None && !w.row.cleanup)
            && if w.detachment.Some?
               then WaitsFor(w', t, ForDetachment(w.detachment.value)) && w'.requests == w.requests
               else if w.row.cleanup then CleaningUp(w, w', t, next)
               else Attaching(w, w', t, !w.attached, next)
  {
    var w1 := AddToken(w, t, mode);
    if w.detachment.None? {
      ProceedBegins(w1, t, next);
      hide Proceed;
      Reserved1(w, w1, Proceed(w1, t, next), t, next);
      hide Handed, Attaching, CleaningUp, AddToken;
    }
  }

  /** A reservation changes nothing that the rest of the acquisition looks at. */
  lemma Reserved1(w: World, w1: World, w': World, t: Token, next: RequestId)
    requires w1 == w.(row := w1.row, tokens := w1.tokens)
    requires w1.row.generation == w.row.generation && w1.row.cleanup == w.row.cleanup
    ensures forall now :: Handed(w1, w', t, now) == Handed(w, w', t, now)
    ensures forall need :: Attaching(w1, w', t, need, next) == Attaching(w, w', t, need, next)
    ensures CleaningUp(w1, w', t, next) == CleaningUp(w, w', t, next)
  {
  }

  /**
   An acquisition whose request has settled. After a detach it goes on whatever became of that; after a
   cleanup it is attached anew; once attached it has its handle. If the cleanup or the attach failed, it
   gives its token back and has no handle.
   */
  lemma AcquisitionGoesOn(events: seq<Event>, w: World, t: Token, next: RequestId, w': World)
    requires Steps(events, w, AcquireResumes(t, next), w')
    ensures t in w.tokens && t in w'.tokens && w.acquiring[t].request in w.requests
    ensures var ok, wait := w.requests[w.acquiring[t].request] == Succeeded, w.acquiring[t];
            && (t in w'.handles <==>
               (wait.ForAttachment? && ok) || (wait.ForDetachment? && w.attached && !w.row.cleanup))
            && (t in w'.handles ==> w'.handles[t] == Handle(w.row.generation, Active) && t !in w'.acquiring)
            && (w'.tokens[t].released <==> !wait.ForDetachment? && !ok)
            && (w'.tokens[t].released ==> t !in w'.acquiring)
            && (wait.ForDetachment? && w.row.cleanup ==> CleaningUp(w, w', t, next))
            && (wait.ForDetachment? && !w.row.cleanup ==> Attaching(w, w', t, !w.attached, next))
            && (wait.ForCleanup? && ok ==> Attaching(w, w', t, true, next))
  {
    StepIs(events, w, AcquireResumes(t, next), w');
    assert Placed(w);
    GoesOn(w, t, next);
    hide Inv, Settled, Steps, Resume;
  }

  lemma GoesOn(w: World, t: Token, next: RequestId)
    requires Placed(w) && Enabled(w, AcquireResumes(t, next))
    ensures var w' := Resume(w, t, next);
            var ok, wait := w.requests[w.acquiring[t].request] == Succeeded, w.acquiring[t];
            && t in w'.tokens
            && (t in w'.handles <==>
               (wait.ForAttachment? && ok) || (wait.ForDetachment? && w.attached && !w.row.cleanup))
            && (t in w'.handles ==> w'.handles[t] == Handle(w.row.generation, Active) && t !in w'.acquiring)
            && (w'.tokens[t].released <==> !wait.ForDetachment? && !ok)
            && (w'.tokens[t].released ==> t !in w'.acquiring)
            && (wait.ForDetachment? && w.row.cleanup ==> CleaningUp(w, w', t, next))
            && (wait.ForDetachment? && !w.row.cleanup ==> Attaching(w, w', t, !w.attached, next))
            && (wait.ForCleanup? && ok ==> Attaching(w, w', t, true, next))
  {
    assert !w.tokens[t].released && t !in w.handles;
    hide Placed, Proceed, Attach, Attaching, CleaningUp, Release;
    match w.acquiring[t] {
      case ForDetachment(_) => ProceedBegins(w, t, next); GoesOnAs(w, t, next);
      case ForCleanup(_) => AttachBegins(w, t, true, next); AttachesAs(w, t, true, next);
      case ForAttachment(_) =>
    }
  }

  /** Every token is being acquired, or held by a handle, or released; one being acquired waits for a request. */
  lemma NoTokenIsLost(events: seq<Event>, t: Token)
    requires Run(events).Some? && t in Run(events).value.tokens
    ensures var w := Run(events).value;
            && (t in w.acquiring || t in w.handles || w.tokens[t].released)
            && (t in w.acquiring ==> t !in w.handles && !w.tokens[t].released && w.acquiring[t].request in w.requests)
  {
    RunKeeps(events);
    RunSettled(events);
    hide Counted;
  }

  /**
   Nobody waits for ever: a request under way can settle, and once it has, whoever waits for it goes on.
   */
  lemma AcquisitionsCanGoOn(events: seq<Event>, w: World, t: Token, ok: bool, next: RequestId)
    requires Run(events) == Some(w) && t in w.acquiring && next !in w.requests
    ensures w.acquiring[t].request in w.requests
    ensures Enabled(w, Settles(w.acquiring[t].request, ok)) <==> w.requests[w.acquiring[t].request] == Pending
    ensures Enabled(w, AcquireResumes(t, next)) <==> w.requests[w.acquiring[t].request] != Pending
  {
    RunKeeps(events);
    hide Counted;
  }

  // ---------------------------------------------------------------------------
  // Releases
  // ---------------------------------------------------------------------------

  /**
   A release of a handle in use gives its token back at once if others hold the session, and first asks for a
   detach if it is the last. A handle that is not in use, or a release without a connection, changes neither
   books nor requests.
   */
  lemma ReleaseBegins(events: seq<Event>, w: World, t: Token, relinquish: bool, next: RequestId, w': World)
    requires Steps(events, w, ReleaseCalled(t, relinquish, next), w') && Clean(w)
    ensures var use, live := IsActive(w, t) && w.connected, Live(w.tokens, w.row.generation);
            && (Detaches(w, w', t, relinquish, next) <==> use && live == {t})
            && (t in w'.tokens && w'.tokens[t].released && !w.tokens[t].released <==> use && live != {t})
            && (!use ==> w' == w.(handles := w'.handles))
  {
    StepIs(events, w, ReleaseCalled(t, relinquish, next), w');
    assert Placed(w);
    CleanIsRight(w);
    hide Settled, Steps;
    if IsActive(w, t) && w.connected {
      assert InUse(w, t);
      Counts(Live(w.tokens, w.row.generation), t);
      hide Live;
    }
    Released1(w, t, relinquish, next);
    hide StartRelease, Live, Inv, BooksRight, Placed;
  }

  /** The handle waits for a detach that has just been asked for. */
  predicate Detaches(w: World, w': World, t: Token, relinquish: bool, next: RequestId) {
    && w'.detachment == Some(next) && Sent(w, w', next)
    && t in w'.handles && w'.handles[t].state == Releasing(relinquish, next)
  }

  lemma Counts(live: set<Token>, t: Token)
    requires t in live
    ensures |live| <= 1 <==> live == {t}
  {
    assert |live - {t}| == |live| - 1;
  }

  lemma Released1(w: World, t: Token, relinquish: bool, next: RequestId)
    requires Placed(w) && Enabled(w, ReleaseCalled(t, relinquish, next))
    ensures var w' := StartRelease(w, t, relinquish, next);
            var use := IsActive(w, t) && w.connected;
            && (Detaches(w, w', t, relinquish, next) <==> use && w.row.count <= 1)
            && t in w'.tokens && (w'.tokens[t].released && !w.tokens[t].released <==> use && w.row.count > 1)
            && (!use ==> w' == w.(handles := w'.handles))
  {
    hide Release;
    assert w.detachment != Some(next);
  }

  /**
   The detach has succeeded: the token is given back. If it failed, a handle of an earlier generation is
   invalid; detach() keeps the lease, which is in use again; and dispose() gives it up all the same and
   leaves the detach outstanding.
   */
  lemma ReleaseEnds(events: seq<Event>, w: World, t: Token, w': World)
    requires Steps(events, w, ReleaseResumes(t), w')
    ensures t in w'.handles && t in w'.tokens && w.handles[t].state.request in w.requests
    ensures var ok, h := w.requests[w.handles[t].state.request] == Succeeded, w.handles[t];
            var stale := h.generation != w.row.generation;
            && w'.handles[t].generation == h.generation
            && w'.handles[t].state == (if ok then Released else if stale then Invalidated
                                       else if h.state.relinquish then Released else Active)
            && (w'.tokens[t].released <==> ok || (!stale && h.state.relinquish))
            && (w'.row.cleanup <==> w.row.cleanup || (!ok && !stale && h.state.relinquish))
            && w'.detachment != Some(h.state.request)
  {
    StepIs(events, w, ReleaseResumes(t), w');
    assert Placed(w);
    Ends(w, t);
    hide Settled, Steps, FinishRelease, Inv;
  }

  lemma Ends(w: World, t: Token)
    requires Placed(w) && Enabled(w, ReleaseResumes(t))
    ensures var w' := FinishRelease(w, t);
            var ok, h := w.requests[w.handles[t].state.request] == Succeeded, w.handles[t];
            var stale := h.generation != w.row.generation;
            && t in w'.handles && t in w'.tokens && w'.handles[t].generation == h.generation
            && w'.handles[t].state == (if ok then Released else if stale then Invalidated
                                       else if h.state.relinquish then Released else Active)
            && (w'.tokens[t].released <==> ok || (!stale && h.state.relinquish))
            && (w'.row.cleanup <==> w.row.cleanup || (!ok && !stale && h.state.relinquish))
            && w'.detachment != Some(h.state.request)
  {
    assert !w.tokens[t].released;
    hide Placed, Release;
    var h := w.handles[t];
    var w1 := w.(detachment := if w.detachment == Some(h.state.request) then None else w.detachment);
    Failing(w1, t);
    hide FailRelease;
  }

  lemma Failing(w: World, t: Token)
    requires t in w.handles && t in w.tokens && w.handles[t].state.Releasing? && !w.tokens[t].released
    ensures var w', h := FailRelease(w, t), w.handles[t];
            var stale := h.generation != w.row.generation;
            && t in w'.handles && t in w'.tokens && w'.handles[t].generation == h.generation
            && w'.handles[t].state == (if stale then Invalidated else if h.state.relinquish then Released else Active)
            && (w'.tokens[t].released <==> !stale && h.state.relinquish)
            && (w'.row.cleanup <==> w.row.cleanup || (!stale && h.state.relinquish))
            && w'.detachment == w.detachment
  {
    GivesBack(w, t);
    hide ReleaseToken;
  }

  lemma GivesBack(w: World, t: Token)
    requires t in w.tokens
    ensures var w' := ReleaseToken(w, t);
            && w' == w.(row := w'.row, tokens := w.tokens[t := w.tokens[t].(released := true)], stale := w'.stale)
            && w'.row.generation == w.row.generation && w'.row.cleanup == w.row.cleanup
  {
  }

  // ---------------------------------------------------------------------------
  // Requests, and what becomes of the session
  // ---------------------------------------------------------------------------

  /** The outstanding detach is settled exactly if the cleanup that asked for it succeeds. */
  lemma SettleOutcome(events: seq<Event>, w: World, r: RequestId, ok: bool, w': World)
    requires Steps(events, w, Settles(r, ok), w')
    ensures w'.requests == w.requests[r := if ok then Succeeded else Failed]
    ensures w'.row == w.row.(cleanup := w.row.cleanup && !(ok && w.reconciliation == Some(r)))
    ensures w'.reconciliation == if w.reconciliation == Some(r) then None else w.reconciliation
    ensures w'.tokens == w.tokens && w'.handles == w.handles && w'.acquiring == w.acquiring
  {
    StepIs(events, w, Settles(r, ok), w');
    hide Inv, Settled, Steps;
  }

  /**
   A disconnect or the removal of the session leaves no token live, no handle in use and no detach
   outstanding, but for what waits for a request; a disconnect fails every request under way.
   */
  lemma LossOutcome(events: seq<Event>, w: World, e: Event, w': World)
    requires Steps(events, w, e, w') && (e.Disconnects? || e.SessionRemoved?) && Clean(w)
    ensures Live(w'.tokens, w'.row.generation) == {} && !w'.row.cleanup && (forall t :: !IsActive(w', t))
    ensures w'.tokens == w.tokens && w'.handles == w.handles && w'.acquiring == w.acquiring
    ensures e.Disconnects? ==> !w'.connected && forall r :: r in w'.requests ==> w'.requests[r] != Pending
    ensures e.SessionRemoved? ==> w'.requests == w.requests && w'.connected
  {
    StepIs(events, w, e, w');
    assert Counted(w.row, w.tokens);
    hide Settled, Steps;
    NoneLiveYet(w.tokens, w.row.generation);
  }

  /** A session that is not attached: a granted lease is in use once the server has attached the session. */
  lemma AcquisitionServes(events: seq<Event>, w: World, t: Token, mode: Mode, r: RequestId, next: RequestId)
    requires Run(events) == Some(w) && !w.stale && t !in w.tokens && r !in w.requests && next !in w.requests
             && r != next
    requires Allowed(w, mode) && w.connected && !w.attached && !w.row.cleanup
    requires w.detachment.None? && w.attachment.None?
    ensures var script := [Acquires(t, mode, r), AttachmentChanges(true), Settles(r, true), AcquireResumes(t, next)];
            && Run(events + script).Some?
            && var w' := Run(events + script).value; IsActive(w', t) && t in w'.tokens && w'.tokens[t].mode == mode
  {
    RunKeeps(events);
    RunSettled(events);
    AllowedIsMay(w, mode);
    assert t !in w.handles;
    hide Run, Inv, Settled, Allowed, Release;
    var w1 := Acquire(w, t, mode, r);
    Asks(w, t, mode, r);
    Goes(events, w, Acquires(t, mode, r), w1);
    var w2 := w1.(attached := true);
    Goes(events + [Acquires(t, mode, r)], w1, AttachmentChanges(true), w2);
    var to3 := events + [Acquires(t, mode, r)] + [AttachmentChanges(true)];
    hide Acquire;
    Arrives(to3, w2, t, r, next);
    hide Apply, Enabled, Reserve, Send;
    assert to3 + [Settles(r, true)] + [AcquireResumes(t, next)] ==
           events + [Acquires(t, mode, r), AttachmentChanges(true), Settles(r, true), AcquireResumes(t, next)];
  }

  lemma Arrives(events: seq<Event>, w: World, t: Token, r: RequestId, next: RequestId)
    requires Run(events) == Some(w) && WaitsFor(w, t, ForAttachment(r)) && t in w.tokens && w.attached
    requires r in w.requests && w.requests[r] == Pending && next !in w.requests
    ensures Run(events + [Settles(r, true)] + [AcquireResumes(t, next)]).Some?
    ensures var w' := Run(events + [Settles(r, true)] + [AcquireResumes(t, next)]).value;
            IsActive(w', t) && t in w'.tokens && w'.tokens[t].mode == w.tokens[t].mode
  {
    hide Run, Release;
    var w3 := Settle(w, r, true);
    Goes(events, w, Settles(r, true), w3);
    Goes(events + [Settles(r, true)], w3, AcquireResumes(t, next), Resume(w3, t, next));
  }

  lemma Asks(w: World, t: Token, mode: Mode, r: RequestId)
    requires MayReserve(w.row, mode) && t !in w.tokens && t !in w.handles && r !in w.requests
    requires w.connected && !w.attached && !w.row.cleanup && w.detachment.None? && w.attachment.None?
    ensures var w' := Acquire(w, t, mode, r);
            && w' == w.(row := w'.row, tokens := w.tokens[t := Reserved(mode, w.row.generation, false)],
                        requests := w.requests[r := Pending], attachment := Some(r),
                        acquiring := w.acquiring[t := ForAttachment(r)])
            && w'.row.generation == w.row.generation
  {
  }
}
