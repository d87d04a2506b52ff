/**
 The client's connection lifecycle. Callbacks run synchronously and may call back into the connection;
 a script holds what each callback in turn will do, so a run is determined by the calls from outside
 and the script, and every statement about all scripts is about every way the callbacks may behave.
 */
module Connection {
  import opened Wrappers

  type Id = nat

  datatype Message = Hello | HelloError | Other

  /** The promise of connect() is identified by the connection's id. */
  datatype Lifecycle =
    | Disconnected
    | Connecting(id: Id, transport: bool)
    | Connected(id: Id, pending: bool)   // pending: the handshake promise is not yet settled

  datatype Change = ToConnecting | ToConnected | ToDisconnected

  /** A call into the connection, from outside or from a callback. A chunk that the decoder rejects has no messages. */
  datatype Action =
    | Connect
    | Disconnect
    | Fail
    | TransportOpens(id: Id, ok: bool)
    | HelloFails(id: Id)
    | Data(id: Id, messages: Option<seq<Message>>)
    | Close(id: Id)
    | Error(id: Id)

  /** What a callback does, and whether it throws in the end; only onHandshake is guarded against that. */
  datatype Callback = Callback(actions: seq<Action>, throws: bool)

  /**
   `changes` is the trace of state changes, `settled` the settled handshake promises, `resolved` those of
   them that were resolved and not rejected; `twice` records a promise settled again,
       `strayed` a message that acted on a connection it did not come from.
   */
  datatype State = State(
    lifecycle: Lifecycle, sequence: nat, changes: seq<Change>, settled: set<Id>, resolved: set<Id>,
    twice: bool, strayed: bool,
    script: seq<Callback>)

  function Init(script: seq<Callback>): State {
    State(Disconnected, 0, [], {}, {}, false, false, script)
  }

  predicate IsCurrent(s: State, id: Id) { !s.lifecycle.Disconnected? && s.lifecycle.id == id }

  predicate Pending(s: State, id: Id) {
    (s.lifecycle.Connecting? || (s.lifecycle.Connected? && s.lifecycle.pending)) && s.lifecycle.id == id
  }

  /** The handshake promise resolves or rejects. */
  function SettlePromise(s: State, id: Id, ok: bool): State {
    s.(settled := s.settled + {id}, resolved := if ok then s.resolved + {id} else s.resolved,
       twice := s.twice || id in s.settled)
  }

  /** A callback of the application, as the script has it; the flag says whether it threw. */
  function Call(s: State): (r: (State, bool))
    ensures |r.0.script| <= |s.script|
    decreases |s.script|, 0, 0
  {
    if s.script == [] then (s, false)
      else (Perform(s.(script := s.script[1..]), s.script[0].actions), s.script[0].throws)
  }

  /** onStateChange. */
  function Notify(s: State, change: Change): (r: State)
    ensures |r.script| <= |s.script|
    decreases |s.script|, 1, 0
  {
    Call(s.(changes := s.changes + [change])).0
  }

  /** #fail and #failAndClose; closing the transport calls nothing that is still current. */
  function FailConnection(s: State): (r: State)
    ensures |r.script| <= |s.script|
    decreases |s.script|, 2, 0
  {
    if s.lifecycle.Disconnected? then s
    else
      var s1 := s.(lifecycle := Disconnected);
      Notify(if Pending(s, s.lifecycle.id) then SettlePromise(s1, s.lifecycle.id, false) else s1, ToDisconnected)
  }

  /** connect(), whose promise rejects at once unless the lifecycle is disconnected. */
  function Open(s: State): (r: State)
    ensures |r.script| <= |s.script|
    decreases |s.script|, 2, 0
  {
    if !s.lifecycle.Disconnected? then s
    else Notify(s.(sequence := s.sequence + 1, lifecycle := Connecting(s.sequence + 1, false)), ToConnecting)
  }

  /** #handleMessage for the hello of a connecting client. */
  function Greet(s: State): (r: State)
    requires s.lifecycle.Connecting?
    ensures |r.script| <= |s.script|
    decreases |s.script|, 3, 0
  {
    var connected := Connected(s.lifecycle.id, true);
    var (s1, threw) := Call(s.(lifecycle := connected));
    if threw then (if s1.lifecycle == connected then FailConnection(s1) else s1)
    else if s1.lifecycle != connected then s1
    else
      var s2 := Notify(s1, ToConnected);
      if s2.lifecycle != connected then s2
      else SettlePromise(s2.(lifecycle := Connected(connected.id, false)), connected.id, true)
  }

  /** #handleMessage. */
  function Handle(s: State, m: Message): (r: State)
    ensures |r.script| <= |s.script|
    decreases |s.script|, 4, 0
  {
    match s.lifecycle
    case Disconnected => s
    case Connecting(_, transport) => if m == Hello && transport then Greet(s) else FailConnection(s)
    case Connected(_, _) => if m == Other then Call(s).0 else FailConnection(s)
  }

  /** The message loop of #handleData, which looks only whether the lifecycle is disconnected. */
  function HandleAll(s: State, id: Id, messages: seq<Message>): (r: State)
    ensures |r.script| <= |s.script|
    decreases |s.script|, 5, |messages|
  {
    if messages == [] || s.lifecycle.Disconnected? then s
    else HandleAll(Handle(s.(strayed := s.strayed || s.lifecycle.id != id), messages[0]), id, messages[1..])
  }

  function Act(s: State, a: Action): (r: State)
    ensures |r.script| <= |s.script|
    decreases |s.script|, 6, 0
  {
    match a
    case Connect => Open(s)
    case Disconnect => FailConnection(s)
    case Fail => FailConnection(s)
    case TransportOpens(id, ok) =>
      if !ok then (if IsCurrent(s, id) then FailConnection(s) else s)
      else if !s.lifecycle.Connecting? || s.lifecycle.id != id then s
      else s.(lifecycle := Connecting(id, true))
    case HelloFails(id) => if IsCurrent(s, id) then FailConnection(s) else s
    case Data(id, messages) =>
      if !IsCurrent(s, id) then s
      else if (s.lifecycle.Connecting? && !s.lifecycle.transport) || messages.None? then FailConnection(s)
      else HandleAll(s, id, messages.value)
    case Close(id) => if IsCurrent(s, id) then FailConnection(s) else s
    case Error(id) => if IsCurrent(s, id) then FailConnection(s) else s
  }

  function Perform(s: State, actions: seq<Action>): (r: State)
    ensures |r.script| <= |s.script|
    decreases |s.script|, 7, |actions|
  {
    if actions == [] then s else Perform(Act(s, actions[0]), actions[1..])
  }

  // ---------------------------------------------------------------------------
  // Invariant
  // ---------------------------------------------------------------------------

  datatype Stage = Down | Opening | Up

  /** Reading the trace of state changes: (connecting, optional connected, disconnected) over and over. */
  function Read(changes: seq<Change>): Option<Stage> {
    if changes == [] then Some(Down)
    else
      match (Read(changes[..|changes| - 1]), changes[|changes| - 1])
      case (Some(Down), ToConnecting) => Some(Opening)
      case (Some(Opening), ToConnected) => Some(Up)
      case (Some(Opening), ToDisconnected) => Some(Down)
      case (Some(Up), ToDisconnected) => Some(Down)
      case _ => None
  }

  ghost predicate Good(s: State) {
    && !s.twice
    && (match s.lifecycle
        case Disconnected => Read(s.changes) == Some(Down)
        case Connecting(id, _) => Read(s.changes) == Some(Opening) && 1 <= id == s.sequence
        case Connected(id, pending) =>
          (if pending then Read(s.changes) == Some(Opening) || Read(s.changes) == Some(Up)
            else Read(s.changes) == Some(Up)) && 1 <= id == s.sequence)
    && (forall id: Id :: id in s.settled <==> 1 <= id <= s.sequence && !Pending(s, id))
    && s.resolved <= s.settled && (s.lifecycle.Connected? && !s.lifecycle.pending ==> s.lifecycle.id in s.resolved)
  }

  /**
   What any call leaves of the connection it found: ids only grow, a settled promise stays as it was settled,
       a connected connection that is still
   current is unchanged, and a message goes astray only if a connect was accepted meanwhile; what went
   astray before stays recorded.
   */
  ghost predicate Later(s: State, r: State) {
    && s.sequence <= r.sequence
    && (forall id: Id :: id <= s.sequence && IsCurrent(r, id) ==> IsCurrent(s, id))
    && (s.lifecycle.Connected? && IsCurrent(r, s.lifecycle.id) ==> r.lifecycle == s.lifecycle && r.changes == s.changes)
    && (forall id: Id :: id in s.settled ==> id in r.settled && (id in r.resolved <==> id in s.resolved))
    && s.changes <= r.changes
    && (r.strayed ==> s.strayed || s.sequence < r.sequence) && (s.strayed ==> r.strayed)
  }

  lemma ReadOn(changes: seq<Change>, change: Change)
    ensures Read(changes + [change]) ==
            match (Read(changes), change)
            case (Some(Down), ToConnecting) => Some(Opening)
            case (Some(Opening), ToConnected) => Some(Up)
            case (Some(Opening), ToDisconnected) => Some(Down)
            case (Some(Up), ToDisconnected) => Some(Down)
            case _ => None
  {
    assert (changes + [change])[..|changes|] == changes;
  }

  // ---------------------------------------------------------------------------
  // Every call keeps it, whatever the callbacks do
  // ---------------------------------------------------------------------------

  lemma {:induction false} CallKeeps(s: State)
    requires Good(s)
    ensures Good(Call(s).0) && Later(s, Call(s).0)
    decreases |s.script|, 0, 0
  {
    if s.script != [] { PerformKeeps(s.(script := s.script[1..]), s.script[0].actions); }
  }

  /** Announcing a change brings the trace in step again. */
  lemma {:induction false} NotifyKeeps(s: State, change: Change)
    requires Good(s.(changes := s.changes + [change]))
    ensures Good(Notify(s, change)) && Later(s.(changes := s.changes + [change]), Notify(s, change))
    decreases |s.script|, 1, 0
  {
    CallKeeps(s.(changes := s.changes + [change]));
  }

  lemma {:induction false} FailKeeps(s: State)
    requires Good(s)
    ensures Good(FailConnection(s)) && Later(s, FailConnection(s))
    decreases |s.script|, 2, 0
  {
    if !s.lifecycle.Disconnected? {
      ReadOn(s.changes, ToDisconnected);
      var s1 := s.(lifecycle := Disconnected);
      var s2 := if Pending(s, s.lifecycle.id) then SettlePromise(s1, s.lifecycle.id, false) else s1;
      NotifyKeeps(s2, ToDisconnected);
      hide Read;
    }
  }

  lemma {:induction false} OpenKeeps(s: State)
    requires Good(s)
    ensures Good(Open(s)) && Later(s, Open(s))
    decreases |s.script|, 2, 0
  {
    if s.lifecycle.Disconnected? {
      ReadOn(s.changes, ToConnecting);
      NotifyKeeps(s.(sequence := s.sequence + 1, lifecycle := Connecting(s.sequence + 1, false)), ToConnecting);
      hide Read;
    }
  }

  lemma {:induction false} GreetKeeps(s: State)
    requires Good(s) && s.lifecycle.Connecting?
    ensures Good(Greet(s)) && Later(s, Greet(s))
    decreases |s.script|, 3, 0
  {
    var connected := Connected(s.lifecycle.id, true);
    var s0 := s.(lifecycle := connected);
    CallKeeps(s0);
    var (s1, threw) := Call(s0);
    if threw {
      if s1.lifecycle == connected { FailKeeps(s1); }
    } else if s1.lifecycle == connected {
      ReadOn(s1.changes, ToConnected);
      NotifyKeeps(s1, ToConnected);
    }
    hide Read;
  }

  lemma {:induction false} HandleKeeps(s: State, m: Message)
    requires Good(s)
    ensures Good(Handle(s, m)) && Later(s, Handle(s, m))
    decreases |s.script|, 4, 0
  {
    if s.lifecycle.Connecting? && m == Hello && s.lifecycle.transport {
      GreetKeeps(s);
    } else if s.lifecycle.Connected? && m == Other {
      CallKeeps(s);
    } else {
      FailKeeps(s);
    }
    hide Good, Later;
  }

  lemma LaterThen(s: State, m: State, r: State)
    requires Good(s) && Good(m) && Later(s, m) && Later(m, r)
    ensures Later(s, r)
  {
    hide Read;
  }

  /** The message loop: if the data is not the current connection's, or stops being so, its messages go astray. */
  lemma {:induction false} HandleAllKeeps(s: State, id: Id, messages: seq<Message>)
    requires Good(s)
    ensures var r := HandleAll(s, id, messages);
            && Good(r)
            && Later(s.(strayed := r.strayed), r)
            && (r.strayed ==> s.strayed || s.sequence < r.sequence || (!s.lifecycle.Disconnected? && !IsCurrent(s, id)))
            && (s.strayed ==> r.strayed)
    decreases |s.script|, 5, |messages|
  {
    if messages != [] && !s.lifecycle.Disconnected? {
      var s1 := s.(strayed := s.strayed || s.lifecycle.id != id);
      var s2 := Handle(s1, messages[0]);
      HandleKeeps(s1, messages[0]);
      HandleAllKeeps(s2, id, messages[1..]);
      var r := HandleAll(s2, id, messages[1..]);
      LaterThen(s1.(strayed := true), s2.(strayed := true), r.(strayed := true));
      hide Read;
    }
  }

  lemma {:induction false} ActKeeps(s: State, a: Action)
    requires Good(s)
    ensures Good(Act(s, a)) && Later(s, Act(s, a))
    decreases |s.script|, 6, 0
  {
    FailKeeps(s);
    match a
    case Connect => OpenKeeps(s);
    case Data(id, messages) =>
      if messages.Some? { HandleAllKeeps(s, id, messages.value); }
    case _ =>
  }

  lemma {:induction false} PerformKeeps(s: State, actions: seq<Action>)
    requires Good(s)
    ensures Good(Perform(s, actions)) && Later(s, Perform(s, actions))
    decreases |s.script|, 7, |actions|
  {
    if actions != [] {
      ActKeeps(s, actions[0]);
      PerformKeeps(Act(s, actions[0]), actions[1..]);
      LaterThen(s, Act(s, actions[0]), Perform(Act(s, actions[0]), actions[1..]));
      hide Good, Later;
    }
  }

  // ---------------------------------------------------------------------------
  // Main results
  // ---------------------------------------------------------------------------

  /**
   For every sequence of calls and whatever the callbacks do in turn: the state changes announced are
   (connecting, optional connected, disconnected) over and over, no promise of connect() is settled
   twice, that of an established connection is resolved,
       and when the lifecycle is disconnected again every one of them is settled.
   */
  lemma Lifecycles(script: seq<Callback>, actions: seq<Action>)
    ensures var s := Perform(Init(script), actions);
            && Read(s.changes).Some? && !s.twice
            && (s.lifecycle.Disconnected? <==> Read(s.changes) == Some(Down))
            && (forall id: Id :: id in s.settled ==> 1 <= id <= s.sequence)
            && (s.lifecycle.Connected? && !s.lifecycle.pending ==> s.lifecycle.id in s.resolved)
            && (forall id: Id :: 1 <= id <= s.sequence && (s.lifecycle.Disconnected? || id < s.sequence) ==>
               id in s.settled)
  {
    PerformKeeps(Init(script), actions);
    hide Read;
  }

  /** A callback of the transport that was opened for the connection. */
  predicate OfTransport(a: Action, id: Id) {
    (a.TransportOpens? || a.HelloFails? || a.Data? || a.Close? || a.Error?) && a.id == id
  }

  /**
   Once a connection has ended or been superseded, nothing its transport does will ever change
   anything again, whatever else happens meanwhile.
   */
  lemma SupersededForever(script: seq<Callback>, before: seq<Action>, after: seq<Action>, id: Id, a: Action)
    requires var s := Perform(Init(script), before); id <= s.sequence && !IsCurrent(s, id) && OfTransport(a, id)
    ensures var r := Perform(Perform(Init(script), before), after); Act(r, a) == r
  {
    PerformKeeps(Init(script), before);
    PerformKeeps(Perform(Init(script), before), after);
    hide Perform, Good, HandleAll, FailConnection;
  }

  lemma {:induction false} HandleInTwo(s: State, id: Id, first: seq<Message>, second: seq<Message>)
    ensures HandleAll(s, id, first + second) == HandleAll(HandleAll(s, id, first), id, second)
    decreases |first|
  {
    if first == [] {
      assert first + second == second;
    } else if !s.lifecycle.Disconnected? {
      assert (first + second)[1..] == first[1..] + second;
      HandleInTwo(Handle(s.(strayed := s.strayed || s.lifecycle.id != id), first[0]), id, first[1..], second);
    }
  }

  /** The k-th message finds another connection up, or a callback that handles it delivers data that goes astray. */
  predicate Astray(s: State, id: Id, messages: seq<Message>, k: nat) {
    k < |messages| &&
    var r := HandleAll(s, id, messages[..k]);
    !r.lifecycle.Disconnected? && (r.lifecycle.id != id || Handle(r, messages[k]).strayed)
  }

  /** A message goes astray exactly if, when its turn comes, the lifecycle is that of another connection. */
  lemma {:induction false} StraysExactly(s: State, id: Id, messages: seq<Message>)
    requires Good(s) && !s.strayed
    ensures HandleAll(s, id, messages).strayed <==> exists k :: Astray(s, id, messages, k)
    decreases |messages|
  {
    if messages != [] {
      var n := |messages| - 1;
      var front, last := messages[..n], messages[n];
      assert messages == front + [last];
      StraysExactly(s, id, front);
      forall k: nat | k < n ensures Astray(s, id, messages, k) == Astray(s, id, front, k) {
        assert messages[..k] == front[..k] && messages[k] == front[k];
      }
      HandleInTwo(s, id, front, [last]);
      HandleAllKeeps(s, id, front);
      LastStrays(HandleAll(s, id, front), id, last);
      hide Handle, HandleAll, Good, Later;
      assert Astray(s, id, messages, n) <==>
             var r := HandleAll(s, id, front);
             !r.lifecycle.Disconnected? && (r.lifecycle.id != id || Handle(r, last).strayed);
    }
  }

  lemma LastStrays(r: State, id: Id, last: Message)
    requires Good(r)
    ensures HandleAll(r, id, [last]).strayed <==>
            r.strayed || (!r.lifecycle.Disconnected? && (r.lifecycle.id != id || Handle(r, last).strayed))
  {
    if !r.lifecycle.Disconnected? {
      var r' := r.(strayed := r.strayed || r.lifecycle.id != id);
      HandleKeeps(r', last);
      assert [last][1..] == [];
      assert HandleAll(r, id, [last]) == HandleAll(Handle(r', last), id, []) == Handle(r', last);
    }
  }

  // ---------------------------------------------------------------------------
  // Callbacks that deliver no data themselves
  // ---------------------------------------------------------------------------

  /** The callbacks left deliver no data of a transport from within. */
  predicate NoData(script: seq<Callback>) {
    forall i, j :: 0 <= i < |script| && 0 <= j < |script[i].actions| ==> !script[i].actions[j].Data?
  }

  /** What is left of the script still delivers no data, and nothing has gone astray. */
  predicate Straight(s: State, r: State) { NoData(r.script) && r.strayed == s.strayed }

  lemma {:induction false} CallStraight(s: State)
    requires NoData(s.script)
    ensures Straight(s, Call(s).0)
    decreases |s.script|, 0, 0
  {
    if s.script != [] {
      PerformStraight(s.(script := s.script[1..]), s.script[0].actions);
    }
  }

  lemma {:induction false} FailStraight(s: State)
    requires NoData(s.script)
    ensures Straight(s, FailConnection(s))
    decreases |s.script|, 2, 0
  {
    if !s.lifecycle.Disconnected? {
      var s1 := s.(lifecycle := Disconnected);
      var s2 := if Pending(s, s.lifecycle.id) then SettlePromise(s1, s.lifecycle.id, false) else s1;
      CallStraight(s2.(changes := s2.changes + [ToDisconnected]));
    }
  }

  lemma {:induction false} OpenStraight(s: State)
    requires NoData(s.script)
    ensures Straight(s, Open(s))
    decreases |s.script|, 2, 0
  {
    if s.lifecycle.Disconnected? {
      CallStraight(s.(sequence := s.sequence + 1, lifecycle := Connecting(s.sequence + 1, false),
          changes := s.changes + [ToConnecting]));
    }
  }

  lemma {:induction false} GreetStraight(s: State)
    requires NoData(s.script) && s.lifecycle.Connecting?
    ensures Straight(s, Greet(s))
    decreases |s.script|, 3, 0
  {
    hide NoData;
    var s0 := s.(lifecycle := Connected(s.lifecycle.id, true));
    CallStraight(s0);
    var (s1, threw) := Call(s0);
    FailStraight(s1);
    CallStraight(s1.(changes := s1.changes + [ToConnected]));
  }

  lemma {:induction false} HandleStraight(s: State, m: Message)
    requires NoData(s.script)
    ensures Straight(s, Handle(s, m))
    decreases |s.script|, 4, 0
  {
    hide NoData;
    FailStraight(s);
    CallStraight(s);
    if s.lifecycle.Connecting? { GreetStraight(s); }
  }

  lemma {:induction false} PerformStraight(s: State, actions: seq<Action>)
    requires NoData(s.script) && forall j :: 0 <= j < |actions| ==> !actions[j].Data?
    ensures Straight(s, Perform(s, actions))
    decreases |s.script|, 7, |actions|
  {
    if actions != [] {
      FailStraight(s);
      OpenStraight(s);
      assert Straight(s, Act(s, actions[0]));
      PerformStraight(Act(s, actions[0]), actions[1..]);
    }
  }

  lemma {:induction false} HandleAllStraight(s: State, id: Id, messages: seq<Message>)
    requires NoData(s.script)
    ensures NoData(HandleAll(s, id, messages).script)
    decreases |messages|
  {
    if messages != [] && !s.lifecycle.Disconnected? {
      var s1 := s.(strayed := s.strayed || s.lifecycle.id != id);
      HandleStraight(s1, messages[0]);
      HandleAllStraight(Handle(s1, messages[0]), id, messages[1..]);
    }
  }

  /** The callback has the connection ended. */
  predicate Ends(callback: Callback, id: Id) {
    exists j :: 0 <= j < |callback.actions| && EndsIt(callback.actions[j], id)
  }

  predicate EndsIt(a: Action, id: Id) {
    a.Disconnect? || a.Fail? || ((a.HelloFails? || a.Close? || a.Error?) && a.id == id)
        || (a.TransportOpens? && a.id == id && !a.ok)
  }

  /** An established connection survives a callback exactly if that does not end it, and then nothing changes. */
  lemma {:induction false} Survives(s: State, actions: seq<Action>)
    requires Good(s) && s.lifecycle.Connected? && forall j :: 0 <= j < |actions| ==> !actions[j].Data?
    ensures if exists j :: 0 <= j < |actions| && EndsIt(actions[j], s.lifecycle.id)
            then !IsCurrent(Perform(s, actions), s.lifecycle.id)
            else Perform(s, actions) == s
    decreases |actions|
  {
    if actions != [] {
      var id, a, rest := s.lifecycle.id, actions[0], actions[1..];
      assert forall j :: 1 <= j < |actions| ==> actions[j] == rest[j - 1];
      if EndsIt(a, id) {
        FailKeeps(s);
        Ended(s);
        PerformKeeps(Act(s, a), rest);
        hide Good, Act;
      } else {
        assert Act(s, a) == s;
        Survives(s, rest);
      }
    }
  }

  /** A connection that has failed is not current again. */
  lemma Ended(s: State)
    requires Good(s) && !s.lifecycle.Disconnected?
    ensures !IsCurrent(FailConnection(s), s.lifecycle.id)
    ensures s.sequence <= FailConnection(s).sequence
  {
    ReadOn(s.changes, ToDisconnected);
    var s1 := s.(lifecycle := Disconnected);
    var s2 := if Pending(s, s.lifecycle.id) then SettlePromise(s1, s.lifecycle.id, false) else s1;
    NotifyKeeps(s2, ToDisconnected);
    hide Read;
  }

  /**
   The callbacks of messages before the j-th leave the connection alone, and that of the j-th leaves
   another one up.
   */
  predicate ReplacedAt(s: State, id: Id, j: nat) {
    && j < |s.script| && (forall i :: 0 <= i < j ==> !Ends(s.script[i], id))
    && var r := Call(s.(script := s.script[j..])).0; !r.lifecycle.Disconnected? && r.lifecycle.id != id
  }

  lemma {:induction false} ReplacedExactly(s: State, id: Id, messages: seq<Message>)
    requires Good(s) && !s.strayed && s.lifecycle.Connected? && s.lifecycle.id == id && NoData(s.script)
    requires forall k :: 0 <= k < |messages| ==> messages[k] == Other
    ensures HandleAll(s, id, messages).strayed <==> exists j: nat :: j + 1 < |messages| && ReplacedAt(s, id, j)
    decreases |messages|
  {
    if messages != [] {
      var rest, next := messages[1..], Call(s).0;
      assert s.(strayed := false) == s && Handle(s, messages[0]) == next;
      CallKeeps(s);
      CallStraight(s);
      if s.script == [] {
        ReplacedExactly(next, id, rest);
      } else {
        assert s.script[0..] == s.script && s.(script := s.script) == s;
        var s0 := s.(script := s.script[1..]);
        Survives(s0, s.script[0].actions);
        if Ends(s.script[0], id) {
          assert ReplacedAt(s, id, 0) <==> !next.lifecycle.Disconnected?;
          assert forall j: nat :: ReplacedAt(s, id, j) ==> j == 0;
          if rest != [] && !next.lifecycle.Disconnected? { HandleAllKeeps(next.(strayed := true), id, rest); }
          hide Good, Later, Call, NoData, ReplacedAt;
        } else {
          assert next == s0 && !ReplacedAt(s, id, 0);
          ReplacedExactly(s0, id, rest);
          ReplacedLater(s, id, |rest|);
          hide Call, NoData, Good, Later, ReplacedAt;
        }
      }
    }
  }

  lemma ReplacedLater(s: State, id: Id, n: nat)
    requires s.script != [] && !Ends(s.script[0], id) && !ReplacedAt(s, id, 0)
    ensures (exists j: nat :: j < n && ReplacedAt(s, id, j))
            <==> (exists j: nat :: j + 1 < n && ReplacedAt(s.(script := s.script[1..]), id, j))
  {
    var s0 := s.(script := s.script[1..]);
    forall j: nat ensures ReplacedAt(s, id, j + 1) == ReplacedAt(s0, id, j) { ReplacedNext(s, id, j); }
    hide ReplacedAt, Ends;
    if j: nat :| j < n && ReplacedAt(s, id, j) {
      assert ReplacedAt(s, id, (j - 1) + 1) == ReplacedAt(s0, id, j - 1);
    }
  }

  lemma ReplacedNext(s: State, id: Id, j: nat)
    requires s.script != [] && !Ends(s.script[0], id)
    ensures ReplacedAt(s, id, j + 1) == ReplacedAt(s.(script := s.script[1..]), id, j)
  {
    var s0 := s.(script := s.script[1..]);
    if j < |s0.script| {
      assert s.script[j + 1..] == s0.script[j..];
      assert s.(script := s.script[j + 1..]) == s0.(script := s0.script[j..]);
      assert forall i :: 0 <= i < j ==> s0.script[i] == s.script[i + 1];
      assert forall i :: 1 <= i < j + 1 ==> s.script[i] == s0.script[i - 1];
    }
  }

  /**
   Messages of an established connection act on another one exactly if the callback of a message before
   the last leaves another connection up, for all callbacks that deliver no data themselves.
   */
  lemma StraysOnlyOnReconnect(script: seq<Callback>, before: seq<Action>, id: Id, messages: seq<Message>)
    requires var s := Perform(Init(script), before);
             && !s.strayed && s.lifecycle.Connected? && s.lifecycle.id == id && NoData(s.script)
             && forall k :: 0 <= k < |messages| ==> messages[k] == Other
    ensures var s := Perform(Init(script), before);
            Act(s, Data(id, Some(messages))).strayed <==> exists j: nat :: j + 1 < |messages| && ReplacedAt(s, id, j)
  {
    PerformKeeps(Init(script), before);
    ReplacedExactly(Perform(Init(script), before), id, messages);
    hide Perform, Good, HandleAll, ReplacedAt;
  }

  /**
   In any state and whatever the messages, one of them acts on another connection exactly if one is up
   when its turn comes, for all callbacks that deliver no data themselves.
   */
  lemma StraysOnOtherConnection(script: seq<Callback>, before: seq<Action>, id: Id, messages: seq<Message>)
    requires var s := Perform(Init(script), before); !s.strayed && NoData(s.script)
    ensures var s := Perform(Init(script), before);
            HandleAll(s, id, messages).strayed <==>
            exists k: nat :: k < |messages| && OtherUp(HandleAll(s, id, messages[..k]), id)
  {
    PerformKeeps(Init(script), before);
    OtherUpExactly(Perform(Init(script), before), id, messages);
    hide Perform, Good, HandleAll;
  }

  lemma {:induction false} OtherUpExactly(s: State, id: Id, messages: seq<Message>)
    requires Good(s) && !s.strayed && NoData(s.script)
    ensures HandleAll(s, id, messages).strayed <==>
            exists k: nat :: k < |messages| && OtherUp(HandleAll(s, id, messages[..k]), id)
    decreases |messages|
  {
    if messages != [] {
      var n := |messages| - 1;
      var front, last := messages[..n], messages[n];
      assert messages == front + [last];
      OtherUpExactly(s, id, front);
      forall k: nat | k < n ensures messages[..k] == front[..k] { }
      HandleInTwo(s, id, front, [last]);
      HandleAllKeeps(s, id, front);
      HandleAllStraight(s, id, front);
      var r := HandleAll(s, id, front);
      LastStrays(r, id, last);
      HandleStraight(r, last);
      hide Handle, HandleAll, Good, Later, NoData;
    }
  }

  predicate OtherUp(s: State, id: Id) { !s.lifecycle.Disconnected? && s.lifecycle.id != id }

  /**
   A message callback that reconnects: the next message of the old connection ends the new one before it
   could open.
   */
  lemma ReconnectInMessageCallback() returns (script: seq<Callback>, s: State)
    ensures s == Perform(Init(script),
            [Connect, TransportOpens(1, true), Data(1, Some([Hello])), Data(1, Some([Other, Other]))])
    ensures s.strayed && s.sequence == 2 && s.lifecycle == Disconnected && 2 in s.settled
    ensures s.changes == [ToConnecting, ToConnected, ToDisconnected, ToConnecting, ToDisconnected]
  {
    var quiet, reconnect := Callback([], false), Callback([Disconnect, Connect], false);
    script := [quiet, quiet, quiet, reconnect];
    var begun := State(Connecting(1, true), 1, [ToConnecting], {}, {}, false, false, [quiet, quiet, reconnect]);
    var greeted := State(Connected(1, false), 1, [ToConnecting, ToConnected], {1}, {1}, false, false, [reconnect]);
    var again := State(Connecting(2, false), 2, [ToConnecting, ToConnected, ToDisconnected, ToConnecting], {1}, {1},
      false, false, []);
    s := State(Disconnected, 2, again.changes + [ToDisconnected], {1, 2}, {1}, false, true, []);
    hide HandleAll, Open, FailConnection, Act;
    OpensQuietly(script, begun);
    DataActs(begun, 1, [Hello]);
    DataActs(greeted, 1, [Other, Other]);
    Greets(begun);
    OtherEndsIt(greeted, again);
    assert HandleAll(begun, 1, [Hello]) == greeted && HandleAll(greeted, 1, [Other, Other]) == s;
    FourCalls(Init(script), Connect, TransportOpens(1, true), Data(1, Some([Hello])), Data(1, Some([Other, Other])));
    hide Perform, Init;
  }

  lemma FourCalls(s: State, a: Action, b: Action, c: Action, d: Action)
    ensures Perform(s, [a, b, c, d]) == Act(Act(Act(Act(s, a), b), c), d)
  {
    hide Act;
    assert [a, b, c, d][1..] == [b, c, d] && [b, c, d][1..] == [c, d] && [c, d][1..] == [d] && [d][1..] == [];
    FirstOf(s, [a, b, c, d]);
    FirstOf(Act(s, a), [b, c, d]);
    FirstOf(Act(Act(s, a), b), [c, d]);
    FirstOf(Act(Act(Act(s, a), b), c), [d]);
  }

  lemma OpensQuietly(script: seq<Callback>, begun: State)
    requires script != [] && script[0] == Callback([], false)
    requires begun == State(Connecting(1, true), 1, [ToConnecting], {}, {}, false, false, script[1..])
    ensures Act(Act(Init(script), Connect), TransportOpens(1, true)) == begun
  {
    QuietOpen(Init(script));
  }

  lemma DataActs(s: State, id: Id, messages: seq<Message>)
    requires IsCurrent(s, id) && (s.lifecycle.Connecting? ==> s.lifecycle.transport)
    ensures Act(s, Data(id, Some(messages))) == HandleAll(s, id, messages)
  {
    hide HandleAll;
  }

  lemma FirstOf(s: State, actions: seq<Action>)
    requires actions != []
    ensures Perform(s, actions) == Perform(Act(s, actions[0]), actions[1..])
  {
    hide Act;
  }

  lemma OtherEndsIt(greeted: State, again: State)
    requires greeted == State(Connected(1, false), 1, [ToConnecting, ToConnected], {1}, {1}, false, false,
             [Callback([Disconnect, Connect], false)])
    requires again == State(Connecting(2, false), 2, [ToConnecting, ToConnected, ToDisconnected, ToConnecting], {1},
             {1}, false, false, [])
    ensures HandleAll(greeted, 1, [Other, Other]) ==
            State(Disconnected, 2, again.changes + [ToDisconnected], {1, 2}, {1}, false, true, [])
  {
    var s := State(Disconnected, 2, again.changes + [ToDisconnected], {1, 2}, {1}, false, true, []);
    assert Handle(greeted, Other) == again by { Reconnects(greeted); }
    QuietFail(again.(strayed := true));
    assert Handle(again.(strayed := true), Other) == s;
    assert [Other, Other][1..] == [Other] && [Other][1..] == [];
    assert HandleAll(again, 1, [Other]) == HandleAll(s, 1, []) == s;
  }

  /** A callback that does nothing. */
  lemma QuietCall(s: State)
    requires s.script == [] || s.script[0] == Callback([], false)
    ensures Call(s) == (s.(script := if s.script == [] then [] else s.script[1..]), false)
  {
    if s.script != [] { assert Perform(s.(script := s.script[1..]), []) == s.(script := s.script[1..]); }
  }

  lemma QuietFail(s: State)
    requires s.script == [] && !s.lifecycle.Disconnected?
    ensures FailConnection(s) == (
              var s1 := s.(lifecycle := Disconnected, changes := s.changes + [ToDisconnected]);
              if Pending(s, s.lifecycle.id) then SettlePromise(s1, s.lifecycle.id, false) else s1)
  {
    var s1 := s.(lifecycle := Disconnected);
    var s2 := if Pending(s, s.lifecycle.id) then SettlePromise(s1, s.lifecycle.id, false) else s1;
    QuietCall(s2.(changes := s.changes + [ToDisconnected]));
  }

  lemma QuietOpen(s: State)
    requires (s.script == [] || s.script[0] == Callback([], false)) && s.lifecycle.Disconnected?
    ensures Open(s) == s.(sequence := s.sequence + 1, lifecycle := Connecting(s.sequence + 1, false),
                          changes := s.changes + [ToConnecting], script := if s.script == [] then [] else s.script[1..])
  {
    QuietCall(s.(sequence := s.sequence + 1, lifecycle := Connecting(s.sequence + 1, false),
        changes := s.changes + [ToConnecting]));
  }

  lemma Greets(s: State)
    requires s.lifecycle == Connecting(1, true) && |s.script| >= 2 && s.script[0] == s.script[1] == Callback([], false)
    ensures HandleAll(s, 1, [Hello]) ==
            SettlePromise(s.(lifecycle := Connected(1, false), changes := s.changes + [ToConnected],
                script := s.script[2..]), 1, true)
  {
    var s0 := s.(lifecycle := Connected(1, true));
    QuietCall(s0);
    assert s.script[1..][1..] == s.script[2..];
    QuietCall(s0.(script := s.script[1..], changes := s.changes + [ToConnected]));
    var greeted := SettlePromise(s.(lifecycle := Connected(1, false), changes := s.changes + [ToConnected],
      script := s.script[2..]), 1, true);
    assert Handle(s, Hello) == Greet(s) == greeted;
    assert [Hello][1..] == [];
    assert HandleAll(greeted, 1, []) == greeted;
  }

  lemma Reconnects(s: State)
    requires s.lifecycle == Connected(1, false) && s.script == [Callback([Disconnect, Connect], false)]
    ensures Handle(s, Other) ==
            s.(lifecycle := Connecting(s.sequence + 1, false), sequence := s.sequence + 1,
               changes := s.changes + [ToDisconnected] + [ToConnecting], script := [])
  {
    var s0 := s.(script := []);
    assert s.script[1..] == [];
    QuietFail(s0);
    var s1 := s0.(lifecycle := Disconnected, changes := s.changes + [ToDisconnected]);
    QuietOpen(s1);
    assert [Disconnect, Connect][1..] == [Connect] && [Connect][1..] == [];
    assert Perform(s1, [Connect]) == Perform(Open(s1), []) == Open(s1);
    assert Perform(s0, [Disconnect, Connect]) == Perform(s1, [Connect]);
  }

  // ---------------------------------------------------------------------------
  // The connection as an object
  // ---------------------------------------------------------------------------

  /** The lifecycle and the sequence number, reassigned in place; the rest is what callers and the transport observe. */
  class ClientConnection {
    var lifecycle: Lifecycle
    var sequence: nat
    var script: seq<Callback>
    ghost var changes: seq<Change>
    ghost var settled: set<Id>
    ghost var resolved: set<Id>
    ghost var twice: bool
    ghost var strayed: bool

    ghost function Now(): State
      reads this
    {
      State(lifecycle, sequence, changes, settled, resolved, twice, strayed, script)
    }

    constructor (script: seq<Callback>)
      ensures Now() == Init(script)
    {
      lifecycle, sequence, this.script := Disconnected, 0, script;
      changes, settled, resolved, twice, strayed := [], {}, {}, false, false;
    }

    method CallBack() returns (threw: bool)
      modifies this
      ensures (Now(), threw) == Call(old(Now()))
      decreases |script|, 0, 0
    {
      threw := false;
      if script != [] {
        var callback := script[0];
        script := script[1..];
        PerformAll(callback.actions);
        threw := callback.throws;
      }
    }

    method OnStateChange(change: Change)
      modifies this
      ensures Now() == Notify(old(Now()), change)
      decreases |script|, 1, 0
    {
      changes := changes + [change];
      var _ := CallBack();
    }

    method FailAndClose()
      modifies this
      ensures Now() == FailConnection(old(Now()))
      decreases |script|, 2, 0
    {
      var before := lifecycle;
      if before.Disconnected? { return; }
      lifecycle := Disconnected;
      if before.Connecting? || before.pending {
        Settle(before.id, false);
      }
      OnStateChange(ToDisconnected);
    }

    ghost method Settle(id: Id, ok: bool)
      modifies this`settled, this`resolved, this`twice
      ensures Now() == SettlePromise(old(Now()), id, ok)
    {
      twice := twice || id in settled;
      settled := settled + {id};
      if ok { resolved := resolved + {id}; }
    }

    method ConnectNow()
      modifies this
      ensures Now() == Open(old(Now()))
      decreases |script|, 2, 0
    {
      if !lifecycle.Disconnected? { return; }
      sequence := sequence + 1;
      lifecycle := Connecting(sequence, false);
      OnStateChange(ToConnecting);
    }

    method HandleHello()
      requires lifecycle.Connecting?
      modifies this
      ensures Now() == Greet(old(Now()))
      decreases |script|, 3, 0
    {
      var connected := Connected(lifecycle.id, true);
      lifecycle := connected;
      var threw := CallBack();
      if threw {
        if lifecycle == connected { FailAndClose(); }
        return;
      }
      if lifecycle != connected { return; }
      OnStateChange(ToConnected);
      if lifecycle != connected { return; }
      lifecycle := Connected(connected.id, false);
      Settle(connected.id, true);
    }

    method HandleMessage(m: Message)
      modifies this
      ensures Now() == Handle(old(Now()), m)
      decreases |script|, 4, 0
    {
      match lifecycle {
        case Disconnected =>
        case Connecting(_, transport) =>
          if m == Hello && transport { HandleHello(); } else { FailAndClose(); }
        case Connected(_, _) =>
          if m == Other { var _ := CallBack(); } else { FailAndClose(); }
      }
    }

    method HandleMessages(id: Id, messages: seq<Message>)
      modifies this
      ensures Now() == HandleAll(old(Now()), id, messages)
      decreases |script|, 5, |messages|
    {
      var i := 0;
      while i < |messages| && !lifecycle.Disconnected?
        invariant i <= |messages| && |script| <= old(|script|)
        invariant HandleAll(Now(), id, messages[i..]) == HandleAll(old(Now()), id, messages)
      {
        strayed := strayed || lifecycle.id != id;
        assert messages[i..][1..] == messages[i + 1..];
        HandleMessage(messages[i]);
        i := i + 1;
      }
    }

    method Invoke(a: Action)
      modifies this
      ensures Now() == Act(old(Now()), a)
      decreases |script|, 6, 0
    {
      match a {
        case Connect => ConnectNow();
        case Disconnect => FailAndClose();
        case Fail => FailAndClose();
        case TransportOpens(id, ok) =>
          if !ok {
            if !lifecycle.Disconnected? && lifecycle.id == id { FailAndClose(); }
          } else if lifecycle.Connecting? && lifecycle.id == id {
            lifecycle := Connecting(id, true);
          }
        case HelloFails(id) => if !lifecycle.Disconnected? && lifecycle.id == id { FailAndClose(); }
        case Data(id, messages) =>
          if lifecycle.Disconnected? || lifecycle.id != id { return; }
          if (lifecycle.Connecting? && !lifecycle.transport) || messages.None? {
            FailAndClose();
          } else {
            HandleMessages(id, messages.value);
          }
        case Close(id) => if !lifecycle.Disconnected? && lifecycle.id == id { FailAndClose(); }
        case Error(id) => if !lifecycle.Disconnected? && lifecycle.id == id { FailAndClose(); }
      }
    }

    /** Calls into the connection, one after the other. */
    method PerformAll(actions: seq<Action>)
      modifies this
      ensures Now() == Perform(old(Now()), actions)
      decreases |script|, 7, |actions|
    {
      var i := 0;
      while i < |actions|
        invariant i <= |actions| && |script| <= old(|script|)
        invariant Perform(Now(), actions[i..]) == Perform(old(Now()), actions)
      {
        assert actions[i..][1..] == actions[i + 1..];
        Invoke(actions[i]);
        i := i + 1;
      }
    }
  }
}
