/**
 Session leases of the client, for one session. A lease is reserved as a token, handed out as a handle
 once the session is attached, and given back by a detach. Counts, the exclusive token and a generation
 arbitrate; a disconnect or a removal of the session starts a new generation. Each step is one stretch
 of code between two awaits, and the environment chooses which step comes next.
 */
module Leases {
  import opened Wrappers

  type Token = nat
  type RequestId = nat

  datatype Mode = Shared | Exclusive

  /** The bookkeeping for one session id; a missing count reads as 0. */
  datatype Row = Row(count: nat, exclusive: Option<Token>, generation: nat, cleanup: bool)

  predicate MayReserve(row: Row, mode: Mode) {
    if mode == Exclusive then row.count == 0 else row.exclusive == None
  }

  /** #reserveSessionLease, unless it throws. */
  function Reserve(row: Row, mode: Mode, t: Token): Row {
    row.(count := row.count + 1, exclusive := if mode == Exclusive then Some(t) else row.exclusive)
  }

  /** #releaseSessionLease. */
  function Release(row: Row, t: Token): (row': Row)
    ensures row'.generation == row.generation && row'.cleanup == row.cleanup
  {
    row.(count := if row.count <= 1 then 0 else row.count - 1,
        exclusive := if row.exclusive == Some(t) then None else row.exclusive)
  }

  /** #invalidateSessionLeases. */
  function Invalidate(row: Row): Row {
    Row(0, None, row.generation + 1, false)
  }

  datatype HandleState = Active | Releasing(relinquish: bool, request: RequestId) | Released | Invalidated

  /** What #createSessionLease closes over. */
  datatype Handle = Handle(generation: nat, state: HandleState)

  /** A token, and the generation in which it was reserved. */
  datatype Reserved = Reserved(mode: Mode, generation: nat, released: bool)

  /** Where an acquisition waits. */
  datatype Wait = ForDetachment(request: RequestId) | ForCleanup(request: RequestId) | ForAttachment(request: RequestId)

  datatype Status = Pending | Succeeded | Failed

  /**
   `stale` records that a token of an earlier generation was released while the count was positive,
   `crossed` that a handle was made for a token of an earlier generation.
   */
  datatype World = World(
    row: Row,
    attached: bool,
    connected: bool,
    detachment: Option<RequestId>,
    reconciliation: Option<RequestId>,
    attachment: Option<RequestId>,
    requests: map<RequestId, Status>,
    acquiring: map<Token, Wait>,
    handles: map<Token, Handle>,
    tokens: map<Token, Reserved>,
    stale: bool,
    crossed: bool)

  const Init := World(Row(0, None, 0, false), false, false, None, None, None, map[], map[], map[], map[], false, false)

  datatype Event =
    | Acquires(t: Token, mode: Mode, next: RequestId)
    | Creates(t: Token)
    | AcquireResumes(t: Token, next: RequestId)
    | ReleaseCalled(t: Token, relinquish: bool, next: RequestId)
    | ReleaseResumes(t: Token)
    | Settles(r: RequestId, ok: bool)
    | AttachmentChanges(attached: bool)
    | SessionRemoved
    | Connects
    | Disconnects

  function AddToken(w: World, t: Token, mode: Mode): World {
    w.(row := Reserve(w.row, mode, t), tokens := w.tokens[t := Reserved(mode, w.row.generation, false)])
  }

  function ReleaseToken(w: World, t: Token): (w': World)
    requires t in w.tokens
    ensures w' == w.(row := w'.row, tokens := w'.tokens, stale := w'.stale)
    ensures w'.row.generation == w.row.generation
  {
    w.(row := Release(w.row, t), tokens := w.tokens[t := w.tokens[t].(released := true)],
       stale := w.stale || (w.tokens[t].generation != w.row.generation && w.row.count > 0))
  }

  /** #createSessionLease. */
  function MakeHandle(w: World, t: Token): World
    requires t in w.tokens
  {
    w.(handles := w.handles[t := Handle(w.row.generation, Active)], acquiring := w.acquiring - {t},
       crossed := w.crossed || w.tokens[t].generation != w.row.generation)
  }

  /** #request; without a connection it is rejected at once. */
  function Send(w: World, next: RequestId): World {
    w.(requests := w.requests[next := if w.connected then Pending else Failed])
  }

  /** acquireSession, from the check whether the session is attached. */
  function Attach(w: World, t: Token, reconciled: bool, next: RequestId): World
    requires t in w.tokens
  {
    if !reconciled && w.attached then MakeHandle(w, t)
    else if w.attachment.Some? then w.(acquiring := w.acquiring[t := ForAttachment(w.attachment.value)])
    else Send(w, next).(attachment := Some(next), acquiring := w.acquiring[t := ForAttachment(next)])
  }

  /** acquireSession, once no detach is under way. */
  function Proceed(w: World, t: Token, next: RequestId): World
    requires t in w.tokens
  {
    if !w.row.cleanup then Attach(w, t, false, next)
    else if w.reconciliation.Some? then w.(acquiring := w.acquiring[t := ForCleanup(w.reconciliation.value)])
    else Send(w, next).(reconciliation := if w.connected then Some(next) else None,
        acquiring := w.acquiring[t := ForCleanup(next)])
  }

  function Acquire(w: World, t: Token, mode: Mode, next: RequestId): World {
    if !MayReserve(w.row, mode) then w
    else
      var w1 := AddToken(w, t, mode);
      if w.detachment.Some? then w1.(acquiring := w1.acquiring[t := ForDetachment(w.detachment.value)])
      else Proceed(w1, t, next)
  }

  function Resume(w: World, t: Token, next: RequestId): World
    requires t in w.acquiring && t in w.tokens && w.acquiring[t].request in w.requests
  {
    var r := w.acquiring[t].request;
    var ok := w.requests[r] == Succeeded;
    match w.acquiring[t]
    case ForDetachment(_) => Proceed(w, t, next)
    case ForCleanup(_) => if ok then Attach(w, t, true, next) else GiveUp(w, t)
    case ForAttachment(_) =>
      var w1 := w.(attachment := if w.attachment == Some(r) then None else w.attachment);
      if ok then MakeHandle(w1, t) else GiveUp(w1, t)
  }

  /** The acquisition has failed. */
  function GiveUp(w: World, t: Token): World
    requires t in w.tokens
  {
    ReleaseToken(w, t).(acquiring := w.acquiring - {t})
  }

  /** The state of a handle as refreshState leaves it. */
  function Refreshed(h: Handle, generation: nat): HandleState {
    if (h.state.Active? || h.state.Releasing?) && h.generation != generation then Invalidated else h.state
  }

  predicate IsActive(w: World, t: Token) {
    t in w.handles && Refreshed(w.handles[t], w.row.generation) == Active && w.attached
  }

  function SetState(w: World, t: Token, state: HandleState): World
    requires t in w.handles
  {
    w.(handles := w.handles[t := w.handles[t].(state := state)])
  }

  /** detach() or dispose() on a handle. */
  function StartRelease(w: World, t: Token, relinquish: bool, next: RequestId): World
    requires t in w.handles && t in w.tokens
  {
    var state := Refreshed(w.handles[t], w.row.generation);
    if state != Active || !w.connected || !w.attached then SetState(w, t, state)
    else if w.row.count <= 1 then
      SetState(Send(w, next).(detachment := Some(next)), t, Releasing(relinquish, next))
    else SetState(ReleaseToken(w, t), t, Released)
  }

  /** release, after its detach request has settled. */
  function FinishRelease(w: World, t: Token): World
    requires t in w.handles && t in w.tokens && w.handles[t].state.Releasing?
             && w.handles[t].state.request in w.requests
  {
    var h := w.handles[t];
    var w1 := w.(detachment := if w.detachment == Some(h.state.request) then None else w.detachment);
    if w.requests[h.state.request] == Succeeded then SetState(ReleaseToken(w1, t), t, Released) else FailRelease(w1, t)
  }

  /** The detach request has failed: dispose() gives the lease up all the same, detach() keeps it. */
  function FailRelease(w: World, t: Token): World
    requires t in w.handles && t in w.tokens && w.handles[t].state.Releasing?
  {
    var h := w.handles[t];
    if Refreshed(h, w.row.generation) == Invalidated then SetState(w, t, Invalidated)
    else if h.state.relinquish then
      var w1 := ReleaseToken(w, t);
      SetState(w1.(row := w1.row.(cleanup := true)), t, Released)
    else SetState(w, t, Active)
  }

  /** A request settles; the reconciliation settles its own bookkeeping. */
  function Settle(w: World, r: RequestId, ok: bool): World {
    var reconciles := w.reconciliation == Some(r);
    w.(requests := w.requests[r := if ok then Succeeded else Failed],
       reconciliation := if reconciles then None else w.reconciliation,
       row := if reconciles && ok then w.row.(cleanup := false) else w.row)
  }

  function Disconnect(w: World): World {
    w.(connected := false, attached := false,
       row := if w.row.count > 0 then Invalidate(w.row) else w.row.(cleanup := false),
       requests := map r | r in w.requests :: if w.requests[r] == Pending then Failed else w.requests[r],
       reconciliation := None)
  }

  predicate Enabled(w: World, e: Event) {
    match e
    case Acquires(t, _, next) => t !in w.tokens && next !in w.requests
    case Creates(t) => t !in w.tokens
    case AcquireResumes(t, next) =>
      t in w.acquiring && t in w.tokens && w.acquiring[t].request in w.requests
          && w.requests[w.acquiring[t].request] != Pending
      && next !in w.requests
    case ReleaseCalled(t, _, next) => t in w.handles && t in w.tokens && next !in w.requests
    case ReleaseResumes(t) =>
      t in w.handles && t in w.tokens && w.handles[t].state.Releasing? && w.handles[t].state.request in w.requests
      && w.requests[w.handles[t].state.request] != Pending
    case Settles(r, _) => r in w.requests && w.requests[r] == Pending
    case AttachmentChanges(_) => w.connected
    case SessionRemoved => w.connected
    case Connects => !w.connected
    case Disconnects => w.connected
  }

  function Apply(w: World, e: Event): World
    requires Enabled(w, e)
  {
    match e
    case Acquires(t, mode, next) => Acquire(w, t, mode, next)
    case Creates(t) => if MayReserve(w.row, Exclusive) then MakeHandle(AddToken(w, t, Exclusive), t) else w
    case AcquireResumes(t, next) => Resume(w, t, next)
    case ReleaseCalled(t, relinquish, next) => StartRelease(w, t, relinquish, next)
    case ReleaseResumes(t) => FinishRelease(w, t)
    case Settles(r, ok) => Settle(w, r, ok)
    case AttachmentChanges(attached) => w.(attached := attached)
    case SessionRemoved => w.(row := Invalidate(w.row), attached := false)
    case Connects => w.(connected := true)
    case Disconnects => Disconnect(w)
  }

  function Run(events: seq<Event>): Option<World> {
    if events == [] then Some(Init)
    else
      var before := Run(events[..|events| - 1]);
      var e := events[|events| - 1];
      if before.Some? && Enabled(before.value, e) then Some(Apply(before.value, e)) else None
  }

  // ---------------------------------------------------------------------------
  // Invariant
  // ---------------------------------------------------------------------------

  /** The tokens reserved in the current generation and not yet released. */
  function Live(tokens: map<Token, Reserved>, generation: nat): set<Token> {
    set t | t in tokens && !tokens[t].released && tokens[t].generation == generation
  }

  /** Nothing has gone behind the back of the books. */
  predicate Clean(w: World) { !w.stale && !w.crossed }

  /** The count is the number of live tokens, and an exclusive token is the only one. */
  ghost predicate Counted(row: Row, tokens: map<Token, Reserved>) {
    var live := Live(tokens, row.generation);
    && row.count == |live|
    && (row.exclusive.Some? ==> live == {row.exclusive.value})
    && (forall t :: t in live && tokens[t].mode == Exclusive ==> row.exclusive == Some(t))
  }

  /**
   A token is acquired, or held by a handle, or released; handles and tokens are of no later generation
   than the books.
   */
  ghost predicate Placed(w: World) {
    && w.acquiring.Keys !! w.handles.Keys && w.acquiring.Keys <= w.tokens.Keys && w.handles.Keys <= w.tokens.Keys
    && (forall t :: t in w.acquiring ==> !w.tokens[t].released && w.acquiring[t].request in w.requests)
    && (forall t :: t in w.tokens ==> w.tokens[t].generation <= w.row.generation)
    && (forall t :: t in w.handles ==>
          && w.handles[t].generation <= w.row.generation
          && (!w.crossed ==> w.handles[t].generation == w.tokens[t].generation)
          && (w.handles[t].state.Active? || w.handles[t].state.Releasing? ==> !w.tokens[t].released)
          && (w.handles[t].state.Releasing? ==> w.handles[t].state.request in w.requests))
    && (w.detachment.Some? ==> w.detachment.value in w.requests)
    && (w.reconciliation.Some? ==> w.reconciliation.value in w.requests)
    && (w.attachment.Some? ==> w.attachment.value in w.requests)
  }

  ghost predicate Inv(w: World) {
    Placed(w) && (!w.stale ==> Counted(w.row, w.tokens))
  }

  lemma LiveAfterReserve(tokens: map<Token, Reserved>, generation: nat, t: Token, mode: Mode)
    requires t !in tokens
    ensures Live(tokens[t := Reserved(mode, generation, false)], generation) == Live(tokens, generation) + {t}
  {
  }

  lemma LiveAfterRelease(tokens: map<Token, Reserved>, generation: nat, t: Token)
    requires t in tokens
    ensures Live(tokens[t := tokens[t].(released := true)], generation) == Live(tokens, generation) - {t}
  {
  }

  lemma NoneLiveYet(tokens: map<Token, Reserved>, generation: nat)
    requires forall t :: t in tokens ==> tokens[t].generation <= generation
    ensures Live(tokens, generation + 1) == {}
  {
  }

  lemma ReserveCounts(row: Row, tokens: map<Token, Reserved>, t: Token, mode: Mode)
    requires Counted(row, tokens) && MayReserve(row, mode) && t !in tokens
    ensures Counted(Reserve(row, mode, t), tokens[t := Reserved(mode, row.generation, false)])
  {
    LiveAfterReserve(tokens, row.generation, t, mode);
  }

  /**
   Releasing a token keeps the count right exactly unless the token is of an earlier generation and others
   are counted.
   */
  lemma ReleaseCounts(w: World, t: Token)
    requires Counted(w.row, w.tokens) && t in w.tokens && !w.tokens[t].released
    ensures var w' := ReleaseToken(w, t);
            Counted(w'.row, w'.tokens) <==> w.tokens[t].generation == w.row.generation || w.row.count == 0
  {
    if w.tokens[t].generation == w.row.generation { CurrentCounts(w, t); } else { StaleMiscounts(w, t); }
    hide Counted, Release;
  }

  lemma CurrentCounts(w: World, t: Token)
    requires Counted(w.row, w.tokens) && t in w.tokens && !w.tokens[t].released
             && w.tokens[t].generation == w.row.generation
    ensures Counted(ReleaseToken(w, t).row, ReleaseToken(w, t).tokens)
  {
    LiveAfterRelease(w.tokens, w.row.generation, t);
    var live := Live(w.tokens, w.row.generation);
    assert t in live;
    hide Live;
    assert |live - {t}| == |live| - 1;
  }

  lemma StaleMiscounts(w: World, t: Token)
    requires Counted(w.row, w.tokens) && t in w.tokens && w.tokens[t].generation != w.row.generation
    ensures Counted(ReleaseToken(w, t).row, ReleaseToken(w, t).tokens) <==> w.row.count == 0
  {
    hide Live;
    var live := Live(w.tokens, w.row.generation);
    LiveAfterRelease(w.tokens, w.row.generation, t);
    LiveMeans(w.tokens, w.row.generation, t);
    assert live - {t} == live;
    assert w.row.count == 0 ==> live == {};
    assert w.row.count > 0 ==> ReleaseToken(w, t).row.count != |live|;
  }

  lemma LiveMeans(tokens: map<Token, Reserved>, generation: nat, t: Token)
    ensures t in Live(tokens, generation) <==> t in tokens && !tokens[t].released && tokens[t].generation == generation
  {
  }

  lemma InvalidateCounts(row: Row, tokens: map<Token, Reserved>)
    requires forall t :: t in tokens ==> tokens[t].generation <= row.generation
    ensures Counted(Invalidate(row), tokens)
  {
    NoneLiveYet(tokens, row.generation);
  }

  // ---------------------------------------------------------------------------
  // Every step keeps it
  // ---------------------------------------------------------------------------

  lemma ReserveKeeps(w: World, t: Token, mode: Mode)
    requires Inv(w) && MayReserve(w.row, mode) && t !in w.tokens
    ensures Inv(AddToken(w, t, mode))
  {
    if !w.stale { ReserveCounts(w.row, w.tokens, t, mode); }
    hide Counted;
  }

  lemma MakeHandleKeeps(w: World, t: Token)
    requires Inv(w) && t in w.tokens && t !in w.handles && !w.tokens[t].released
    ensures Inv(MakeHandle(w, t))
  {
    hide Counted;
  }

  lemma AttachKeeps(w: World, t: Token, reconciled: bool, next: RequestId)
    requires Inv(w) && t in w.tokens && t !in w.handles && !w.tokens[t].released && next !in w.requests
    ensures Inv(Attach(w, t, reconciled, next))
  {
    hide Counted;
    if !reconciled && w.attached {
      MakeHandleKeeps(w, t);
    } else if w.attachment.Some? {
      WaitKeeps(w, t, ForAttachment(w.attachment.value));
    } else {
      SendKeeps(w, next);
      WaitKeeps(Send(w, next), t, ForAttachment(next));
      hide Send;
    }
  }

  lemma SendKeeps(w: World, next: RequestId)
    requires Inv(w) && next !in w.requests
    ensures Inv(Send(w, next)) && next in Send(w, next).requests
            && Send(w, next) == w.(requests := Send(w, next).requests)
  {
    hide Counted;
  }

  lemma WaitKeeps(w: World, t: Token, wait: Wait)
    requires Inv(w) && t in w.tokens && t !in w.handles && !w.tokens[t].released && wait.request in w.requests
    ensures Inv(w.(acquiring := w.acquiring[t := wait]))
  {
    hide Counted;
  }

  lemma ProceedKeeps(w: World, t: Token, next: RequestId)
    requires Inv(w) && t in w.tokens && t !in w.handles && !w.tokens[t].released && next !in w.requests
    ensures Inv(Proceed(w, t, next))
  {
    hide Counted, Attach;
    if !w.row.cleanup {
      AttachKeeps(w, t, false, next);
      hide Inv;
    } else if w.reconciliation.Some? {
      WaitKeeps(w, t, ForCleanup(w.reconciliation.value));
    } else {
      SendKeeps(w, next);
      WaitKeeps(Send(w, next), t, ForCleanup(next));
      hide Send;
    }
  }

  lemma AcquireKeeps(w: World, t: Token, mode: Mode, next: RequestId)
    requires Inv(w) && t !in w.tokens && next !in w.requests
    ensures Inv(Acquire(w, t, mode, next))
  {
    hide Counted, Proceed, Reserve;
    if MayReserve(w.row, mode) {
      ReserveKeeps(w, t, mode);
      var w1 := AddToken(w, t, mode);
      if w.detachment.Some? {
        WaitKeeps(w1, t, ForDetachment(w.detachment.value));
      } else {
        ProceedKeeps(w1, t, next);
        hide Inv;
      }
    }
  }

  lemma GiveUpKeeps(w: World, t: Token)
    requires Inv(w) && t in w.acquiring
    ensures Inv(GiveUp(w, t))
  {
    if !w.stale { ReleaseCounts(w, t); }
    hide Counted, Release;
    assert Release(w.row, t).generation == w.row.generation;
  }

  lemma ResumeKeeps(w: World, t: Token, next: RequestId)
    requires Inv(w) && Enabled(w, AcquireResumes(t, next))
    ensures Inv(Resume(w, t, next))
  {
    hide Counted, Proceed, Attach, GiveUp, MakeHandle;
    match w.acquiring[t] {
      case ForDetachment(_) => ProceedKeeps(w, t, next);
      case ForCleanup(r) => if w.requests[r] == Succeeded { AttachKeeps(w, t, true, next); } else { GiveUpKeeps(w, t); }
      case ForAttachment(r) =>
        var w1 := w.(attachment := if w.attachment == Some(r) then None else w.attachment);
        if w.requests[r] == Succeeded { MakeHandleKeeps(w1, t); } else { GiveUpKeeps(w1, t); }
    }
  }

  /** A handle gives its token back. */
  lemma HandReleaseKeeps(w: World, t: Token)
    requires Inv(w) && t in w.handles && (w.handles[t].state.Active? || w.handles[t].state.Releasing?)
    ensures Inv(SetState(ReleaseToken(w, t), t, Released))
  {
    if !w.stale { ReleaseCounts(w, t); }
    assert Release(w.row, t).generation == w.row.generation;
    hide Counted, Release;
  }

  lemma StartReleaseKeeps(w: World, t: Token, relinquish: bool, next: RequestId)
    requires Inv(w) && Enabled(w, ReleaseCalled(t, relinquish, next))
    ensures Inv(StartRelease(w, t, relinquish, next))
  {
    hide Counted;
    var state := Refreshed(w.handles[t], w.row.generation);
    if state != Active || !w.connected || !w.attached {
      SetStateKeeps(w, t, state);
    } else if w.row.count > 1 {
      HandReleaseKeeps(w, t);
    } else {
      SendKeeps(w, next);
      SetStateKeeps(Send(w, next).(detachment := Some(next)), t, Releasing(relinquish, next));
      hide Send;
    }
  }

  lemma SetStateKeeps(w: World, t: Token, state: HandleState)
    requires Inv(w) && t in w.handles
    requires state.Active? || state.Releasing? ==> !w.tokens[t].released
    requires state.Releasing? ==> state.request in w.requests
    ensures Inv(SetState(w, t, state))
  {
    hide Counted;
  }

  lemma FinishReleaseKeeps(w: World, t: Token)
    requires Inv(w) && Enabled(w, ReleaseResumes(t))
    ensures Inv(FinishRelease(w, t))
  {
    hide Counted, Release, FailRelease;
    var h := w.handles[t];
    var w1 := w.(detachment := if w.detachment == Some(h.state.request) then None else w.detachment);
    assert Inv(w1);
    if w.requests[h.state.request] == Succeeded { HandReleaseKeeps(w1, t); } else { FailReleaseKeeps(w1, t); }
    hide Inv, ReleaseToken;
  }

  lemma FailReleaseKeeps(w: World, t: Token)
    requires Inv(w) && t in w.handles && w.handles[t].state.Releasing?
    ensures Inv(FailRelease(w, t))
  {
    hide Counted, Release;
    if Refreshed(w.handles[t], w.row.generation) == Invalidated {
      SetStateKeeps(w, t, Invalidated);
    } else if w.handles[t].state.relinquish {
      HandReleaseKeeps(w, t);
      CleanupKeeps(SetState(ReleaseToken(w, t), t, Released));
    } else {
      SetStateKeeps(w, t, Active);
    }
    hide Inv;
  }

  lemma CleanupKeeps(w: World)
    requires Inv(w)
    ensures Inv(w.(row := w.row.(cleanup := true)))
  {
    hide Live;
  }

  lemma SettleKeeps(w: World, r: RequestId, ok: bool)
    requires Inv(w) && Enabled(w, Settles(r, ok))
    ensures Inv(Settle(w, r, ok))
  {
    hide Live;
    var w' := Settle(w, r, ok);
    assert w' == w.(requests := w'.requests, reconciliation := w'.reconciliation, row := w'.row);
    assert Counted(w.row, w.tokens) ==> Counted(w'.row, w'.tokens);
    hide Counted;
  }

  lemma BooksClose(w: World)
    requires Inv(w)
    ensures Inv(w.(row := Invalidate(w.row)))
  {
    InvalidateCounts(w.row, w.tokens);
    hide Counted;
  }

  lemma DisconnectKeeps(w: World)
    requires Inv(w)
    ensures Inv(Disconnect(w))
  {
    BooksClose(w);
    hide Live;
  }

  lemma StepKeeps(w: World, e: Event)
    requires Inv(w) && Enabled(w, e)
    ensures Inv(Apply(w, e))
  {
    match e {
      case Acquires(t, mode, next) => { AcquireKeeps(w, t, mode, next); hide Inv; }
      case Creates(t) =>
        if MayReserve(w.row, Exclusive) {
          ReserveKeeps(w, t, Exclusive);
          MakeHandleKeeps(AddToken(w, t, Exclusive), t);
        }
      case AcquireResumes(t, next) => { ResumeKeeps(w, t, next); hide Inv; }
      case ReleaseCalled(t, relinquish, next) => { StartReleaseKeeps(w, t, relinquish, next); hide Inv; }
      case ReleaseResumes(t) => { FinishReleaseKeeps(w, t); hide Inv; }
      case Settles(r, ok) => { SettleKeeps(w, r, ok); hide Inv; }
      case AttachmentChanges(_) => hide Counted;
      case SessionRemoved => { BooksClose(w); hide Counted; }
      case Connects => hide Counted;
      case Disconnects => { DisconnectKeeps(w); hide Inv; }
    }
  }

  lemma {:induction false} RunKeeps(events: seq<Event>)
    requires Run(events).Some?
    ensures Inv(Run(events).value)
    decreases |events|
  {
    if events == [] {
      assert Live(Init.tokens, 0) == {};
    } else {
      RunKeeps(events[..|events| - 1]);
      StepKeeps(Run(events[..|events| - 1]).value, events[|events| - 1]);
      hide Inv, Apply, Enabled;
    }
  }

  // ---------------------------------------------------------------------------
  // Main results
  // ---------------------------------------------------------------------------

  /** In every run in which no token of an earlier generation is released into a positive count, the books are right. */
  lemma LeaseAccounting(events: seq<Event>)
    requires Run(events).Some? && !Run(events).value.stale
    ensures var w := Run(events).value;
            var live := Live(w.tokens, w.row.generation);
            && w.row.count == |live|
            && (forall t, u :: t in live && u in live && w.tokens[t].mode == Exclusive ==> t == u)
  {
    RunKeeps(events);
    hide Live;
  }

  /**
   If moreover no handle is made for a token of an earlier generation, an exclusive handle in use is the
   only one in use.
   */
  lemma MutualExclusion(events: seq<Event>, t: Token, u: Token)
    requires Run(events).Some? && Clean(Run(events).value)
    requires IsActive(Run(events).value, t) && IsActive(Run(events).value, u)
    ensures var w := Run(events).value; t in w.tokens && (w.tokens[t].mode == Exclusive ==> t == u)
  {
    RunKeeps(events);
    var w := Run(events).value;
    assert t in Live(w.tokens, w.row.generation) && u in Live(w.tokens, w.row.generation);
  }

  /** A handle that its generation does not invalidate. */
  predicate InUse(w: World, t: Token) {
    t in w.handles && w.handles[t].generation == w.row.generation
        && (w.handles[t].state.Active? || w.handles[t].state.Releasing?)
  }

  /** Every handle in use holds a token that the books count. */
  ghost predicate Backed(w: World) {
    forall t :: InUse(w, t) ==> t in Live(w.tokens, w.row.generation)
  }

  /** The books count every live token and every handle in use holds one of them: then exclusion holds. */
  ghost predicate BooksRight(w: World) {
    Counted(w.row, w.tokens) && Backed(w)
  }

  lemma RightBooksExclude(w: World, t: Token, u: Token)
    requires BooksRight(w) && InUse(w, t) && InUse(w, u)
    ensures t in w.tokens && (w.tokens[t].mode == Exclusive ==> t == u)
  {
    assert t in Live(w.tokens, w.row.generation) && u in Live(w.tokens, w.row.generation);
  }

  /** Making a handle keeps every handle backed exactly if its token is of the current generation. */
  lemma HandleIsBacked(w: World, t: Token)
    requires Backed(w) && t in w.tokens && !w.tokens[t].released
    ensures Backed(MakeHandle(w, t)) <==> w.tokens[t].generation == w.row.generation
  {
    var w' := MakeHandle(w, t);
    assert InUse(w', t);
    forall u | u != t && InUse(w', u) ensures u in Live(w'.tokens, w'.row.generation) { assert InUse(w, u); }
  }

  lemma CleanIsRight(w: World)
    requires Inv(w) && Clean(w)
    ensures BooksRight(w)
  {
    hide Counted;
  }

  /** The first late release or late handle puts the books wrong at once. */
  lemma FirstWrong(w: World, e: Event)
    requires Inv(w) && Clean(w) && Enabled(w, e) && !Clean(Apply(w, e))
    ensures !BooksRight(Apply(w, e))
  {
    CleanIsRight(w);
    hide Counted, Backed;
    match e {
      case Acquires(t, mode, next) => AcquireWrong(w, t, mode, next);
      case AcquireResumes(t, next) => { ResumeWrong(w, t, next); hide Resume; }
      case ReleaseCalled(t, relinquish, next) => hide Live;
      case ReleaseResumes(t) => { FinishWrong(w, t); hide FinishRelease; }
      case _ =>
    }
  }

  lemma AcquireWrong(w: World, t: Token, mode: Mode, next: RequestId)
    requires t !in w.tokens && Clean(w)
    ensures Clean(Acquire(w, t, mode, next))
  {
    if MayReserve(w.row, mode) && w.detachment.None? { ProceedFlags(AddToken(w, t, mode), t, next); }
    hide Proceed, Attach;
  }

  /** What going on with an acquisition does to the flags. */
  lemma ProceedFlags(w: World, t: Token, next: RequestId)
    requires t in w.tokens
    ensures Proceed(w, t, next).stale == w.stale && (w.crossed ==> Proceed(w, t, next).crossed)
    ensures w.tokens[t].generation == w.row.generation ==> Proceed(w, t, next).crossed == w.crossed
  {
    AttachFlags(w, t, next);
    hide Attach;
  }

  lemma AttachFlags(w: World, t: Token, next: RequestId)
    requires t in w.tokens
    ensures var w' := Attach(w, t, false, next);
            && w'.stale == w.stale && (w.crossed ==> w'.crossed)
            && (w.tokens[t].generation == w.row.generation ==> w'.crossed == w.crossed)
  {
  }

  lemma ResumeWrong(w: World, t: Token, next: RequestId)
    requires Inv(w) && Clean(w) && Enabled(w, AcquireResumes(t, next)) && !Clean(Resume(w, t, next))
    ensures !BooksRight(Resume(w, t, next))
  {
    CleanIsRight(w);
    ReleaseCounts(w, t);
    HandleIsBacked(w, t);
    hide Counted, Release;
    match w.acquiring[t] {
      case ForDetachment(_) => assert Resume(w, t, next) == MakeHandle(w, t);
      case ForCleanup(_) => assert Resume(w, t, next) == GiveUp(w, t);
      case ForAttachment(_) =>
        var w1 := w.(attachment := if w.attachment == Some(w.acquiring[t].request) then None else w.attachment);
        ReleaseCounts(w1, t);
        assert Backed(w1);
        HandleIsBacked(w1, t);
    }
  }

  lemma FinishWrong(w: World, t: Token)
    requires Inv(w) && Clean(w) && Enabled(w, ReleaseResumes(t)) && !Clean(FinishRelease(w, t))
    ensures !BooksRight(FinishRelease(w, t))
  {
    ReleaseCounts(w, t);
    hide Live, Backed, Release;
    var w1 := w.(detachment := if w.detachment == Some(w.handles[t].state.request) then None else w.detachment);
    assert ReleaseToken(w1, t).row == ReleaseToken(w, t).row && ReleaseToken(w1, t).tokens == ReleaseToken(w, t).tokens;
  }

  /** In every state of the run the books were right. */
  ghost predicate AlwaysRight(events: seq<Event>)
    requires Run(events).Some?
  {
    BooksRight(Run(events).value) && (events == [] || AlwaysRight(events[..|events| - 1]))
  }

  /**
   The books, and with them exclusion, are right all through a run exactly if no token of an earlier
   generation was released into a positive count and no handle was made for one.
   */
  lemma {:induction false} AlwaysRightIffClean(events: seq<Event>)
    requires Run(events).Some?
    ensures AlwaysRight(events) <==> Clean(Run(events).value)
    decreases |events|
  {
    RunKeeps(events);
    if events == [] {
      CleanIsRight(Init);
    } else {
      hide Inv, Enabled, Apply, BooksRight, Clean;
      AlwaysRightIffClean(events[..|events| - 1]);
      RunKeeps(events[..|events| - 1]);
      RightIffClean(Run(events[..|events| - 1]).value, events[|events| - 1]);
    }
  }

  lemma RightIffClean(w: World, e: Event)
    requires Inv(w) && Enabled(w, e)
    ensures Clean(w) && BooksRight(w) ==> (BooksRight(Apply(w, e)) <==> Clean(Apply(w, e)))
    ensures !Clean(w) ==> !Clean(Apply(w, e))
  {
    StepKeeps(w, e);
    if !Clean(w) { StaysUnclean(w, e); }
    hide Inv, Enabled, Apply, BooksRight, Clean;
    if Clean(Apply(w, e)) {
      CleanIsRight(Apply(w, e));
    } else if Clean(w) {
      FirstWrong(w, e);
    }
  }

  lemma ResumeUnclean(w: World, t: Token, next: RequestId)
    requires Enabled(w, AcquireResumes(t, next)) && !Clean(w)
    ensures !Clean(Resume(w, t, next))
  {
    ProceedFlags(w, t, next);
    hide Proceed;
  }

  lemma StaysUnclean(w: World, e: Event)
    requires Enabled(w, e) && !Clean(w)
    ensures !Clean(Apply(w, e))
  {
    match e {
      case Acquires(t, mode, next) =>
        if MayReserve(w.row, mode)
            && w.detachment.None? { ProceedFlags(AddToken(w, t, mode), t, next); } hide Proceed, Attach;
      case AcquireResumes(t, next) => ResumeUnclean(w, t, next); hide Resume;
      case _ => hide Proceed, Attach, Acquire, Resume;
    }
  }

  /** A detach is requested only by the last holder: nobody else has the session reserved. */
  lemma DetachOnlyByLast(events: seq<Event>, t: Token, relinquish: bool, next: RequestId)
    requires Run(events).Some? && Clean(Run(events).value)
             && Enabled(Run(events).value, ReleaseCalled(t, relinquish, next))
    requires Apply(Run(events).value, ReleaseCalled(t, relinquish, next)).detachment == Some(next)
    ensures Live(Run(events).value.tokens, Run(events).value.row.generation) == {t}
  {
    RunKeeps(events);
    LastDetaches(Run(events).value, t, relinquish, next);
    hide Inv, Apply, Enabled, Live;
  }

  lemma LastDetaches(w: World, t: Token, relinquish: bool, next: RequestId)
    requires Inv(w) && Clean(w) && Enabled(w, ReleaseCalled(t, relinquish, next))
    requires Apply(w, ReleaseCalled(t, relinquish, next)).detachment == Some(next)
    ensures Live(w.tokens, w.row.generation) == {t}
  {
    hide Live;
    LiveMeans(w.tokens, w.row.generation, t);
    OnlyOne(Live(w.tokens, w.row.generation), t);
    hide ReleaseToken, Send;
  }

  lemma OnlyOne(live: set<Token>, t: Token)
    ensures t in live && |live| <= 1 ==> live == {t}
  {
    if t in live && |live| <= 1 { assert |live - {t}| == |live| - 1; }
  }

  /** A handle that can never be used again. */
  predicate Dead(w: World, t: Token) {
    t in w.handles && (w.handles[t].generation < w.row.generation || w.handles[t].state.Released?
        || w.handles[t].state.Invalidated?)
  }

  lemma DeadStaysDead(w: World, e: Event, t: Token)
    requires Placed(w) && Enabled(w, e) && Dead(w, t)
    ensures Dead(Apply(w, e), t)
  {
    match e {
      case Acquires(u, mode, next) => if w.detachment.None? {
        ProceedLeaves(AddToken(w, u, mode), u, next);
        hide Placed, Proceed;
      }
      case AcquireResumes(u, next) => {
        assert u !in w.handles;
        ResumeLeaves(w, u, next);
        hide Resume, Placed, Enabled;
      }
      case ReleaseResumes(u) => { hide Placed; FinishLeaves(w, u, t); hide FinishRelease; }
      case ReleaseCalled(u, relinquish, next) => {
        hide Placed;
        StartLeaves(w, u, relinquish, next, t);
        hide StartRelease;
      }
      case Creates(u) => hide Proceed, Resume, FinishRelease, StartRelease;
      case Settles(_, _) => hide Proceed, Resume, FinishRelease, StartRelease, Placed;
      case AttachmentChanges(_) => hide Placed;
      case SessionRemoved => hide Placed;
      case Connects => hide Placed;
      case Disconnects => hide Placed;
    }
  }

  /** No handle is touched and no generation is taken back. */
  ghost predicate Leaves(w: World, w': World) {
    && w'.row.generation >= w.row.generation
    && forall u :: u in w.handles ==> u in w'.handles && w'.handles[u] == w.handles[u]
  }

  lemma AttachLeaves(w: World, u: Token, reconciled: bool, next: RequestId)
    requires u in w.tokens && u !in w.handles
    ensures Leaves(w, Attach(w, u, reconciled, next))
  {
  }

  lemma ProceedLeaves(w: World, u: Token, next: RequestId)
    requires u in w.tokens && u !in w.handles
    ensures Leaves(w, Proceed(w, u, next))
  {
    AttachLeaves(w, u, false, next);
    hide Attach;
  }

  lemma ResumeLeaves(w: World, u: Token, next: RequestId)
    requires u in w.tokens && u !in w.handles && Enabled(w, AcquireResumes(u, next))
    ensures Leaves(w, Resume(w, u, next))
  {
    hide Attach, Proceed;
    match w.acquiring[u] {
      case ForDetachment(_) => ProceedLeaves(w, u, next);
      case ForCleanup(_) => AttachLeaves(w, u, true, next);
      case ForAttachment(_) =>
    }
  }

  lemma StartLeaves(w: World, u: Token, relinquish: bool, next: RequestId, t: Token)
    requires Enabled(w, ReleaseCalled(u, relinquish, next)) && Dead(w, t)
    ensures Dead(StartRelease(w, u, relinquish, next), t)
  {
  }

  lemma FinishLeaves(w: World, u: Token, t: Token)
    requires Enabled(w, ReleaseResumes(u)) && Dead(w, t)
    ensures Dead(FinishRelease(w, u), t)
  {
    hide Release, ReleaseToken, FailRelease;
    var w1 := w.(detachment := if w.detachment == Some(w.handles[u].state.request) then None else w.detachment);
    FailLeaves(w1, u, t);
  }

  lemma FailLeaves(w: World, u: Token, t: Token)
    requires u in w.handles && u in w.tokens && w.handles[u].state.Releasing? && Dead(w, t)
    ensures Dead(FailRelease(w, u), t)
  {
    hide Release, ReleaseToken;
  }

  /**
   Once invalidated or released, a handle is never active again, whatever happens: not even if the session
   is attached again.
   */
  lemma {:induction false} NeverActiveAgain(events: seq<Event>, more: seq<Event>, t: Token)
    requires Run(events).Some? && Dead(Run(events).value, t) && Run(events + more).Some?
    ensures Dead(Run(events + more).value, t) && !IsActive(Run(events + more).value, t)
    decreases |more|
  {
    if more == [] {
      assert events + more == events;
    } else {
      hide Inv, Apply, Enabled;
      var front, last := more[..|more| - 1], more[|more| - 1];
      assert events + more == (events + front) + [last];
      RunStep(events + front, last, events + more);
      hide Run;
      NeverActiveAgain(events, front, t);
      RunKeeps(events + front);
      DeadStep(Run(events + front).value, last, t);
    }
  }

  lemma RunStep(front: seq<Event>, last: Event, events: seq<Event>)
    requires events == front + [last] && Run(events).Some?
    ensures Run(front).Some? && Enabled(Run(front).value, last) && Run(events) == Some(Apply(Run(front).value, last))
  {
    assert events[..|events| - 1] == front;
    hide Apply, Enabled;
  }

  lemma DeadStep(w: World, e: Event, t: Token)
    requires Inv(w) && Enabled(w, e) && Dead(w, t)
    ensures Dead(Apply(w, e), t) && !IsActive(Apply(w, e), t)
  {
    DeadStaysDead(w, e, t);
    hide Apply, Enabled, Placed, Counted;
  }

  /** A disconnect or the removal of the session kills every handle there is, in a clean run. */
  lemma InvalidationIsFinal(events: seq<Event>, e: Event, t: Token)
    requires Run(events).Some? && Clean(Run(events).value) && (e.SessionRemoved? || e.Disconnects?)
             && Enabled(Run(events).value, e)
    requires t in Run(events).value.handles
    ensures Dead(Apply(Run(events).value, e), t)
  {
    RunKeeps(events);
    var w := Run(events).value;
    if w.handles[t].state.Active? || w.handles[t].state.Releasing? {
      if w.handles[t].generation == w.row.generation {
        assert t in Live(w.tokens, w.row.generation);
      }
    }
  }

  /** Nothing is being acquired or given back. */
  predicate Quiet(w: World) {
    w.acquiring == map[] && forall t :: t in w.handles ==> !w.handles[t].state.Releasing?
  }

  /** No invalidation of the run lands on an acquisition or a detach under way. */
  ghost predicate QuietlyInvalidated(events: seq<Event>) {
    forall k :: 0 <= k < |events| && (events[k].SessionRemoved? || events[k].Disconnects?) && Run(events[..k]).Some? ==>
        Quiet(Run(events[..k]).value)
  }

  /** What is under way is under way for the current generation. */
  ghost predicate Prompt(w: World) {
    && Clean(w)
    && (forall t :: t in w.acquiring && t in w.tokens ==> w.tokens[t].generation == w.row.generation)
    && (forall t :: t in w.handles && t in w.tokens && w.handles[t].state.Releasing? ==>
       w.tokens[t].generation == w.row.generation)
  }

  lemma AttachPrompt(w: World, t: Token, reconciled: bool, next: RequestId)
    requires Prompt(w) && t in w.tokens && w.tokens[t].generation == w.row.generation
    ensures Prompt(Attach(w, t, reconciled, next))
  {
  }

  lemma ProceedPrompt(w: World, t: Token, next: RequestId)
    requires Prompt(w) && t in w.tokens && w.tokens[t].generation == w.row.generation
    ensures Prompt(Proceed(w, t, next))
  {
    AttachPrompt(w, t, false, next);
    hide Attach;
  }

  lemma ResumePrompt(w: World, t: Token, next: RequestId)
    requires Prompt(w) && Enabled(w, AcquireResumes(t, next)) && w.tokens[t].generation == w.row.generation
    ensures Prompt(Resume(w, t, next))
  {
    hide Attach, Proceed;
    match w.acquiring[t] {
      case ForDetachment(_) => { ProceedPrompt(w, t, next); hide Prompt; }
      case ForCleanup(r) => if w.requests[r] == Succeeded {
        AttachPrompt(w, t, true, next);
        hide Prompt;
      } else {
        GiveUpPrompt(w, t);
        hide Prompt, GiveUp;
      }
      case ForAttachment(r) =>
        var w1 := w.(attachment := if w.attachment == Some(r) then None else w.attachment);
        assert Prompt(w1);
        if w.requests[r] == Succeeded {
          HandlePrompt(w1, t);
          hide Prompt, MakeHandle;
        } else {
          GiveUpPrompt(w1, t);
          hide Prompt, GiveUp;
        }
    }
  }

  lemma HandlePrompt(w: World, t: Token)
    requires Prompt(w) && t in w.tokens && w.tokens[t].generation == w.row.generation
    ensures Prompt(MakeHandle(w, t))
  {
  }

  lemma GiveUpPrompt(w: World, t: Token)
    requires Prompt(w) && t in w.tokens && w.tokens[t].generation == w.row.generation
    ensures Prompt(GiveUp(w, t))
  {
  }

  lemma ReleasePrompt(w: World, t: Token, relinquish: bool, next: RequestId)
    requires Placed(w) && Prompt(w) && Enabled(w, ReleaseCalled(t, relinquish, next))
    ensures Prompt(StartRelease(w, t, relinquish, next))
  {
  }

  lemma FinishPrompt(w: World, t: Token)
    requires Prompt(w) && Enabled(w, ReleaseResumes(t))
    ensures Prompt(FinishRelease(w, t))
  {
    hide Release, FailRelease;
    var w1 := w.(detachment := if w.detachment == Some(w.handles[t].state.request) then None else w.detachment);
    FailPrompt(w1, t);
  }

  lemma FailPrompt(w: World, t: Token)
    requires Prompt(w) && t in w.handles && t in w.tokens && w.handles[t].state.Releasing?
    ensures Prompt(FailRelease(w, t))
  {
    hide Release;
  }

  lemma StepPrompt(w: World, e: Event)
    requires Inv(w) && Prompt(w) && Enabled(w, e) && (e.SessionRemoved? || e.Disconnects? ==> Quiet(w))
    ensures Prompt(Apply(w, e))
  {
    hide Counted;
    match e {
      case Acquires(t, mode, next) => if w.detachment.None? {
        ProceedPrompt(AddToken(w, t, mode), t, next);
        hide Placed, Proceed;
      }
      case AcquireResumes(t, next) => {
        assert t in w.acquiring;
        ResumePrompt(w, t, next);
        hide Placed, Resume, Prompt;
      }
      case ReleaseCalled(t, relinquish, next) => {
        ReleasePrompt(w, t, relinquish, next);
        hide Placed, StartRelease, Prompt;
      }
      case ReleaseResumes(t) => { FinishPrompt(w, t); hide Placed, FinishRelease, Prompt; }
      case _ => hide Proceed, Resume, StartRelease, FinishRelease;
    }
  }

  /** A run whose invalidations all come while nothing is under way is clean. */
  lemma {:induction false} QuietRunsAreClean(events: seq<Event>)
    requires Run(events).Some? && QuietlyInvalidated(events)
    ensures Clean(Run(events).value) && Prompt(Run(events).value)
    decreases |events|
  {
    if events != [] {
      var front, e := events[..|events| - 1], events[|events| - 1];
      forall k | 0 <= k < |front| && (front[k].SessionRemoved? || front[k].Disconnects?) && Run(front[..k]).Some?
        ensures Quiet(Run(front[..k]).value)
      {
        assert front[..k] == events[..k];
      }
      QuietRunsAreClean(front);
      RunKeeps(front);
      StepPrompt(Run(front).value, e);
      hide Inv, Apply, Enabled;
    }
  }

  /** One more step of a run, which takes `w` to `w'`. */
  lemma Goes(events: seq<Event>, w: World, e: Event, w': World)
    requires Run(events) == Some(w) && Enabled(w, e) && Apply(w, e) == w'
    ensures Run(events + [e]) == Some(w')
  {
    assert (events + [e])[..|events|] == events;
    hide Apply, Enabled;
  }

  /**
   The session is removed while it is being attached: the handle that comes of it is not counted, and a
   second exclusive one is granted.
   */
  lemma TwoExclusiveHandles() returns (events: seq<Event>, w: World)
    ensures Run(events) == Some(w)
    ensures !w.stale && IsActive(w, 0) && IsActive(w, 1)
            && 0 in w.tokens && w.tokens[0].mode == Exclusive && 1 in w.tokens && w.tokens[1].mode == Exclusive
  {
    events, w := AttachedAcrossRemoval();
    hide Run;
    var w1 := w.(attachment := None, acquiring := map[], handles := map[0 := Handle(1, Active)], crossed := true);
    assert w.acquiring - {0} == map[];
    assert Run(events + [AcquireResumes(0, 11)]) == Some(w1) by { Goes(events, w, AcquireResumes(0, 11), w1); }
    events := events + [AcquireResumes(0, 11)];
    var w2 := w1.(row := Row(1, Some(1), 1, false), handles := w1.handles[1 := Handle(1, Active)],
                  tokens := w1.tokens[1 := Reserved(Exclusive, 1, false)]);
    assert w1.acquiring - {1} == map[];
    assert Run(events + [Acquires(1, Exclusive, 12)]) == Some(w2) by {
      Goes(events, w1, Acquires(1, Exclusive, 12), w2);
    }
    events, w := events + [Acquires(1, Exclusive, 12)], w2;
  }

  lemma AttachedAcrossRemoval() returns (events: seq<Event>, w: World)
    ensures Run(events) == Some(w)
    ensures w == Init.(row := Row(0, None, 1, false), attached := true, connected := true, attachment := Some(10),
                       requests := map[10 := Succeeded], acquiring := map[0 := ForAttachment(10)],
                       tokens := map[0 := Reserved(Exclusive, 0, false)])
  {
    events := [];
    assert Run(events) == Some(Init);
    hide Run;
    var w1 := Init.(connected := true);
    assert Run(events + [Connects]) == Some(w1) by { Goes(events, Init, Connects, w1); }
    events := events + [Connects];
    var w2 := w1.(row := Row(1, Some(0), 0, false), attachment := Some(10), requests := map[10 := Pending],
                  acquiring := map[0 := ForAttachment(10)], tokens := map[0 := Reserved(Exclusive, 0, false)]);
    assert Run(events + [Acquires(0, Exclusive, 10)]) == Some(w2) by {
      Goes(events, w1, Acquires(0, Exclusive, 10), w2);
    }
    events := events + [Acquires(0, Exclusive, 10)];
    var w3 := w2.(row := Row(0, None, 1, false));
    assert Run(events + [SessionRemoved]) == Some(w3) by { Goes(events, w2, SessionRemoved, w3); }
    events := events + [SessionRemoved];
    var w4 := w3.(attached := true);
    assert Run(events + [AttachmentChanges(true)]) == Some(w4) by { Goes(events, w3, AttachmentChanges(true), w4); }
    events := events + [AttachmentChanges(true)];
    w := w4.(requests := map[10 := Succeeded]);
    assert Run(events + [Settles(10, true)]) == Some(w) by { Goes(events, w4, Settles(10, true), w); }
    events := events + [Settles(10, true)];
  }

  /**
   The session is removed while it is being detached: the late release takes back the reservation of
   another token.
   */
  lemma TwoExclusiveReservations() returns (events: seq<Event>, w: World)
    ensures Run(events) == Some(w)
    ensures !w.crossed && {1, 2} <= Live(w.tokens, w.row.generation)
            && w.tokens[1].mode == Exclusive && w.tokens[2].mode == Exclusive
  {
    events, w := DetachedAcrossRemoval();
    hide Run;
    var w1 := w.(requests := map[11 := Succeeded]);
    assert Run(events + [Settles(11, true)]) == Some(w1) by { Goes(events, w, Settles(11, true), w1); }
    events := events + [Settles(11, true)];
    var w2 := w1.(row := Row(0, Some(1), 1, false), detachment := None, stale := true,
                  handles := map[0 := Handle(0, Released)], tokens := w1.tokens[0 := Reserved(Shared, 0, true)]);
    assert Run(events + [ReleaseResumes(0)]) == Some(w2) by { Goes(events, w1, ReleaseResumes(0), w2); }
    events := events + [ReleaseResumes(0)];
    var w3 := w2.(row := Row(1, Some(2), 1, false), attachment := Some(13), requests := w2.requests[13 := Pending],
                  acquiring := w2.acquiring[2 := ForAttachment(13)],
                      tokens := w2.tokens[2 := Reserved(Exclusive, 1, false)]);
    assert Run(events + [Acquires(2, Exclusive, 13)]) == Some(w3) by {
      Goes(events, w2, Acquires(2, Exclusive, 13), w3);
    }
    events, w := events + [Acquires(2, Exclusive, 13)], w3;
  }

  /** One shared handle is in use. */
  lemma HeldShared() returns (events: seq<Event>, w: World)
    ensures Run(events) == Some(w)
    ensures w == Init.(row := Row(1, None, 0, false), attached := true, connected := true,
                       handles := map[0 := Handle(0, Active)], tokens := map[0 := Reserved(Shared, 0, false)])
  {
    events := [];
    assert Run(events) == Some(Init);
    hide Run;
    var w1 := Init.(connected := true);
    assert Run(events + [Connects]) == Some(w1) by { Goes(events, Init, Connects, w1); }
    events := events + [Connects];
    var w2 := w1.(attached := true);
    assert Run(events + [AttachmentChanges(true)]) == Some(w2) by { Goes(events, w1, AttachmentChanges(true), w2); }
    events := events + [AttachmentChanges(true)];
    w := w2.(row := Row(1, None, 0, false), handles := map[0 := Handle(0, Active)],
      tokens := map[0 := Reserved(Shared, 0, false)]);
    assert w2.acquiring - {0} == map[];
    assert Run(events + [Acquires(0, Shared, 10)]) == Some(w) by { Goes(events, w2, Acquires(0, Shared, 10), w); }
    events := events + [Acquires(0, Shared, 10)];
  }

  lemma DetachedAcrossRemoval() returns (events: seq<Event>, w: World)
    ensures Run(events) == Some(w)
    ensures w == Init.(row := Row(1, Some(1), 1, false), connected := true, detachment := Some(11),
                       requests := map[11 := Pending], acquiring := map[1 := ForDetachment(11)],
                       handles := map[0 := Handle(0, Releasing(false, 11))],
                       tokens := map[0 := Reserved(Shared, 0, false), 1 := Reserved(Exclusive, 1, false)])
  {
    var w3;
    events, w3 := HeldShared();
    hide Run;
    var w4 := w3.(detachment := Some(11), requests := map[11 := Pending],
      handles := map[0 := Handle(0, Releasing(false, 11))]);
    assert Run(events + [ReleaseCalled(0, false, 11)]) == Some(w4) by {
      Goes(events, w3, ReleaseCalled(0, false, 11), w4);
    }
    events := events + [ReleaseCalled(0, false, 11)];
    var w5 := w4.(row := Row(0, None, 1, false), attached := false);
    assert Run(events + [SessionRemoved]) == Some(w5) by { Goes(events, w4, SessionRemoved, w5); }
    events := events + [SessionRemoved];
    w := w5.(row := Row(1, Some(1), 1, false), acquiring := map[1 := ForDetachment(11)],
             tokens := map[0 := Reserved(Shared, 0, false), 1 := Reserved(Exclusive, 1, false)]);
    assert Run(events + [Acquires(1, Exclusive, 12)]) == Some(w) by { Goes(events, w5, Acquires(1, Exclusive, 12), w); }
    events := events + [Acquires(1, Exclusive, 12)];
  }

  // ---------------------------------------------------------------------------
  // The books of all sessions
  // ---------------------------------------------------------------------------

  type SessionId = string

  /** The client's maps over all session ids, changed in place. */
  class LeaseBooks {
    var counts: map<SessionId, nat>
    var exclusives: map<SessionId, Token>
    var generations: map<SessionId, nat>
    var cleanups: set<SessionId>

    /** A count is only kept while it is positive. */
    ghost predicate Valid()
      reads this
    {
      forall id :: id in counts ==> counts[id] > 0
    }

    function Of(id: SessionId): Row
      reads this
    {
      Row(if id in counts then counts[id] else 0, if id in exclusives then Some(exclusives[id]) else None,
          if id in generations then generations[id] else 0, id in cleanups)
    }

    constructor ()
      ensures Valid() && forall id :: Of(id) == Row(0, None, 0, false)
    {
      counts, exclusives, generations, cleanups := map[], map[], map[], {};
    }

    method ReserveLease(id: SessionId, mode: Mode, t: Token) returns (ok: bool)
      requires Valid()
      modifies this`counts, this`exclusives
      ensures Valid() && ok == MayReserve(old(Of(id)), mode)
      ensures ok <==> if mode == Exclusive then old(Of(id)).count == 0 else old(Of(id)).exclusive == None
      ensures forall other :: Of(other) == if ok && other == id then Reserve(old(Of(id)), mode, t) else old(Of(other))
    {
      var count := if id in counts then counts[id] else 0;
      if mode == Exclusive && count > 0 { return false; }
      if mode == Shared && id in exclusives { return false; }
      counts := counts[id := count + 1];
      if mode == Exclusive { exclusives := exclusives[id := t]; }
      ok := true;
    }

    method ReleaseLease(id: SessionId, t: Token)
      requires Valid()
      modifies this`counts, this`exclusives
      ensures Valid()
      ensures forall other :: Of(other) == if other == id then Release(old(Of(id)), t) else old(Of(other))
    {
      var count := if id in counts then counts[id] else 0;
      if count <= 1 {
        counts := counts - {id};
      } else {
        counts := counts[id := count - 1];
      }
      if id in exclusives && exclusives[id] == t { exclusives := exclusives - {id}; }
    }

    method InvalidateLeases(id: SessionId)
      requires Valid()
      modifies this
      ensures Valid() && counts == old(counts) - {id}
      ensures forall other :: Of(other) == if other == id then Invalidate(old(Of(id))) else old(Of(other))
    {
      counts := counts - {id};
      exclusives := exclusives - {id};
      cleanups := cleanups - {id};
      generations := generations[id := (if id in generations then generations[id] else 0) + 1];
    }

    /** Every session with a positive count starts a new generation; the others only forget their cleanup. */
    method InvalidateAllLeases()
      requires Valid()
      modifies this
      ensures Valid()
      ensures forall id :: Of(id) == if old(Of(id)).count > 0 then Invalidate(old(Of(id)))
        else old(Of(id)).(cleanup := false)
    {
      var rest := counts.Keys;
      while rest != {}
        invariant Valid() && rest <= old(counts.Keys) && counts.Keys == rest
        invariant forall id :: Of(id) == if id in old(counts.Keys) - rest then Invalidate(old(Of(id))) else old(Of(id))
      {
        var id :| id in rest;
        InvalidateLeases(id);
        rest := rest - {id};
      }
      cleanups := {};
    }
  }
}
