/**
 What each call on the connection brings about, in every reachable state and whatever the callbacks do:
 which calls end a connection, which establish one, and which change nothing.
 */
module ConnectionOutcomes {
  import opened Wrappers
  import opened Connection

  ghost function Reached(script: seq<Callback>, before: seq<Action>): (s: State)
    ensures Good(s)
  {
    PerformKeeps(Init(script), before);
    assert Good(Init(script)) by { hide Perform; }
    Perform(Init(script), before)
  }

  // ---------------------------------------------------------------------------
  // Calls that end a connection
  // ---------------------------------------------------------------------------

  /** The connection, whether established or not, is over: its promise is settled, and the end was announced. */
  predicate Over(s: State, r: State, id: Id) {
    && !IsCurrent(r, id) && id in r.settled
    && s.changes + [ToDisconnected] <= r.changes
  }

  /** Calls that end the connection with the id whatever its state. */
  predicate AlwaysEnds(a: Action, id: Id) {
    || a.Disconnect? || a.Fail? || ((a.HelloFails? || a.Close? || a.Error?) && a.id == id)
    || (a.TransportOpens? && a.id == id && !a.ok) || (a.Data? && a.id == id && a.messages.None?)
  }

  /** Data that a connecting client takes as an offence: before its transport is open, or not beginning with a hello. */
  predicate OffendsConnecting(a: Action, id: Id, transport: bool) {
    a.Data? && a.id == id && a.messages.Some? &&
    (!transport || (a.messages.value != [] && a.messages.value[0] != Hello))
  }

  /** Data that an established connection takes as an offence: a message of the handshake. */
  predicate OffendsConnected(a: Action, id: Id) {
    a.Data? && a.id == id && a.messages.Some? && a.messages.value != [] && a.messages.value[0] != Other
  }

  /** The connection, established or not, is over, and its promise is rejected unless it was settled before. */
  lemma FailureEnds(s: State)
    requires Good(s) && !s.lifecycle.Disconnected?
    ensures var id, r := s.lifecycle.id, FailConnection(s);
            Over(s, r, id) && (Pending(s, id) ==> id !in r.resolved) && Good(r) && Later(s, r)
  {
    FailKeeps(s);
    Ended(s);
    var s1 := s.(lifecycle := Disconnected);
    var s2 := if Pending(s, s.lifecycle.id) then SettlePromise(s1, s.lifecycle.id, false) else s1;
    ReadOn(s.changes, ToDisconnected);
    NotifyKeeps(s2, ToDisconnected);
    hide Read, Call;
  }

  /** What has ended stays so, whatever is called after it. */
  lemma StaysOver(s: State, m: State, r: State, id: Id)
    requires Over(s, m, id) && Good(m) && Later(m, r) && 1 <= id <= m.sequence
    ensures Over(s, r, id) && (id in r.resolved <==> id in m.resolved)
  {
  }

  /** After a first message that offends, nothing brings the connection back. */
  lemma OffenceEnds(s: State, id: Id, messages: seq<Message>)
    requires Good(s) && !s.lifecycle.Disconnected? && s.lifecycle.id == id && messages != []
    requires if s.lifecycle.Connecting? then messages[0] != Hello || !s.lifecycle.transport else messages[0] != Other
    ensures var r := HandleAll(s, id, messages); Over(s, r, id) && (Pending(s, id) ==> id !in r.resolved)
  {
    assert s.(strayed := s.strayed || s.lifecycle.id != id) == s;
    FailureEnds(s);
    var m := FailConnection(s);
    assert HandleAll(s, id, messages) == HandleAll(m, id, messages[1..]);
    HandleAllKeeps(m, id, messages[1..]);
    var r := HandleAll(m, id, messages[1..]);
    StaysOver(s, m.(strayed := r.strayed), r, id);
    hide Good, Later, HandleAll, FailConnection;
  }

  /**
   Which calls end a connection that is being established: its promise is rejected and the end announced by
   any of them, in every reachable state and whatever the callbacks do.
   */
  lemma ConnectingEnds(script: seq<Callback>, before: seq<Action>, a: Action)
    requires Reached(script, before).lifecycle.Connecting?
    requires var s := Reached(script, before);
             AlwaysEnds(a, s.lifecycle.id) || OffendsConnecting(a, s.lifecycle.id, s.lifecycle.transport)
    ensures var s := Reached(script, before);
            var r := Act(s, a);
            Over(s, r, s.lifecycle.id) && s.lifecycle.id !in r.resolved
  {
    var s := Reached(script, before);
    FailureEnds(s);
    if OffendsConnecting(a, s.lifecycle.id, s.lifecycle.transport) && a.messages.value != [] {
      OffenceEnds(s, s.lifecycle.id, a.messages.value);
    }
    hide Good, HandleAll, FailConnection, Reached;
  }

  /** Which calls end an established connection: the same, and any message of the handshake. */
  lemma ConnectedEnds(script: seq<Callback>, before: seq<Action>, a: Action)
    requires Reached(script, before).lifecycle.Connected?
    requires var id := Reached(script, before).lifecycle.id; AlwaysEnds(a, id) || OffendsConnected(a, id)
    ensures var s := Reached(script, before); Over(s, Act(s, a), s.lifecycle.id)
  {
    var s := Reached(script, before);
    FailureEnds(s);
    if OffendsConnected(a, s.lifecycle.id) { OffenceEnds(s, s.lifecycle.id, a.messages.value); }
    hide Good, HandleAll, FailConnection, Reached;
  }

  // ---------------------------------------------------------------------------
  // Calls that change nothing
  // ---------------------------------------------------------------------------

  /** The call is about another connection than the current one, or has nothing to say to it. */
  predicate Idle(s: State, a: Action) {
    match a
    case Connect => !s.lifecycle.Disconnected?
    case Disconnect => s.lifecycle.Disconnected?
    case Fail => s.lifecycle.Disconnected?
    case TransportOpens(id, ok) => !IsCurrent(s, id) || (ok && s.lifecycle.Connected?)
    case HelloFails(id) => !IsCurrent(s, id)
    case Data(id, messages) =>
      !IsCurrent(s, id) || (messages == Some([]) && !(s.lifecycle.Connecting? && !s.lifecycle.transport))
    case Close(id) => !IsCurrent(s, id)
    case Error(id) => !IsCurrent(s, id)
  }

  /**
   A connect while there is a connection, a disconnect while there is none, whatever concerns another
   connection, and empty data change nothing at all.
   */
  lemma IdleCalls(s: State, a: Action)
    requires Idle(s, a)
    ensures Act(s, a) == s
  {
  }

  /** The opened transport is noted on the connection that waits for it. */
  lemma TransportArrives(s: State, id: Id)
    requires s.lifecycle.Connecting? && s.lifecycle.id == id
    ensures Act(s, TransportOpens(id, true)) == s.(lifecycle := Connecting(id, true))
  {
  }

  // ---------------------------------------------------------------------------
  // Calls that establish a connection
  // ---------------------------------------------------------------------------

  /** What calls without data, made by a callback, do to the connection that is up, established or not. */
  lemma {:induction false} UpSurvives(s: State, actions: seq<Action>)
    requires Good(s) && !s.lifecycle.Disconnected? && forall j :: 0 <= j < |actions| ==> !actions[j].Data?
    ensures var id, r := s.lifecycle.id, Perform(s, actions);
            if exists j :: 0 <= j < |actions| && EndsIt(actions[j], id)
            then Over(s, r, id) && (Pending(s, id) ==> id !in r.resolved)
            else r == s.(lifecycle := r.lifecycle) && IsCurrent(r, id)
                 && (s.lifecycle.Connected? ==> r == s)
                 && (s.lifecycle.Connecting? ==> r.lifecycle.Connecting?)
    decreases |actions|
  {
    if actions != [] {
      var id, a, rest := s.lifecycle.id, actions[0], actions[1..];
      assert forall j :: 1 <= j < |actions| ==> actions[j] == rest[j - 1];
      var m := Act(s, a);
      if EndsIt(a, id) {
        FailureEnds(s);
        assert m == FailConnection(s);
        PerformKeeps(m, rest);
        StaysOver(s, m, Perform(m, rest), id);
        hide Good, Later, Act, FailConnection;
      } else {
        assert !actions[0].Data?;
        if Idle(s, a) { IdleCalls(s, a); } else { TransportArrives(s, id); }
        hide Act, Idle;
        UpSurvives(m, rest);
      }
    }
  }

  /** The same for the whole callback. */
  lemma CallSurvives(s: State)
    requires Good(s) && !s.lifecycle.Disconnected? && NoData(s.script)
    ensures var id, r := s.lifecycle.id, Call(s).0;
            if s.script != [] && Ends(s.script[0], id)
            then Over(s, r, id) && (Pending(s, id) ==> id !in r.resolved) && Good(r)
            else r == s.(lifecycle := r.lifecycle, script := if s.script == [] then [] else s.script[1..])
                 && IsCurrent(r, id) && Good(r) && (s.lifecycle.Connected? ==> r.lifecycle == s.lifecycle)
                 && (s.lifecycle.Connecting? ==> r.lifecycle.Connecting?)
  {
    CallKeeps(s);
    if s.script != [] {
      var s0 := s.(script := s.script[1..]);
      assert forall j :: 0 <= j < |s.script[0].actions| ==> !s.script[0].actions[j].Data?;
      UpSurvives(s0, s.script[0].actions);
    }
    hide Good, Perform, EndsIt;
  }

  /**
   connect() without a connection begins the next one and announces it. It then waits for its transport,
   exactly if the callback has not ended it, for callbacks that deliver no data.
   */
  lemma ConnectBegins(script: seq<Callback>, before: seq<Action>)
    requires Reached(script, before).lifecycle.Disconnected?
    ensures var s := Reached(script, before);
            var id, r := s.sequence + 1, Act(s, Connect);
            && id <= r.sequence && s.changes + [ToConnecting] <= r.changes
            && (NoData(s.script) ==>
                 (IsCurrent(r, id) && r.lifecycle.Connecting? <==> s.script == [] || !Ends(s.script[0], id)))
  {
    var s := Reached(script, before);
    ReadOn(s.changes, ToConnecting);
    var s1 := s.(sequence := s.sequence + 1, lifecycle := Connecting(s.sequence + 1, false),
                 changes := s.changes + [ToConnecting]);
    assert Good(s1);
    CallKeeps(s1);
    if NoData(s.script) { CallSurvives(s1); }
    assert Act(s, Connect) == Open(s) == Notify(s1.(changes := s.changes), ToConnecting) == Call(s1).0;
    hide Read, Good, Ends, Reached, NoData, Call;
  }

  /**
   The hello of a server that a connecting client with an open transport receives. The connection is
   established, announced, and its promise resolved, exactly if the handshake callback neither throws nor ends
   it and the announcement does not end it; otherwise it is over and its promise rejected. This is for
   callbacks that deliver no data.
   */
  lemma HelloEstablishes(script: seq<Callback>, before: seq<Action>)
    requires var s := Reached(script, before); s.lifecycle.Connecting? && s.lifecycle.transport && NoData(s.script)
    ensures var s := Reached(script, before);
            var id, r := s.lifecycle.id, Act(s, Data(s.lifecycle.id, Some([Hello])));
            if Refused(s.script, id)
            then (Over(s, r, id) || Over(Announced(s), r, id)) && id !in r.resolved
            else r.lifecycle == Connected(id, false) && id in r.resolved && r.changes == s.changes + [ToConnected]
  {
    var s := Reached(script, before);
    assert [Hello][1..] == [];
    assert s.(strayed := s.strayed || s.lifecycle.id != s.lifecycle.id) == s;
    assert Act(s, Data(s.lifecycle.id, Some([Hello]))) == HandleAll(s, s.lifecycle.id, [Hello]) == Greet(s);
    GreetOutcome(s);
    hide Reached, Greet, Good, HandleAll;
  }

  /** The connection has been announced. */
  function Announced(s: State): State { s.(changes := s.changes + [ToConnected]) }

  /** The callbacks of the handshake refuse the connection. */
  predicate Refused(script: seq<Callback>, id: Id) {
    || (script != [] && (script[0].throws || Ends(script[0], id)))
    || (|script| > 1 && Ends(script[1], id))
  }

  lemma GreetOutcome(s: State)
    requires Good(s) && s.lifecycle.Connecting? && NoData(s.script)
    ensures var id, r := s.lifecycle.id, Greet(s);
            if Refused(s.script, id)
            then (Over(s, r, id) || Over(Announced(s), r, id)) && id !in r.resolved
            else r.lifecycle == Connected(id, false) && id in r.resolved && r.changes == s.changes + [ToConnected]
  {
    var id := s.lifecycle.id;
    var s0 := s.(lifecycle := Connected(id, true));
    assert Good(s0);
    GreetCases(s);
    CallSurvives(s0);
    Throws(s0);
    var (s1, threw) := Call(s0);
    if s.script != [] && Ends(s.script[0], id) {
      assert !IsCurrent(s1, id);
      hide Good, Greet, Ends, Call, NoData;
    } else if threw {
      FailureEnds(s1);
      hide Good, Greet, Ends, Call, NoData, FailConnection;
    } else {
      hide Greet, Ends, Call, FailConnection;
      AnnounceOutcome(s1);
      hide Good, NoData;
    }
  }

  /** The announcement of a connection whose handshake callback has returned. */
  lemma AnnounceOutcome(s: State)
    requires Good(s) && s.lifecycle.Connected? && s.lifecycle.pending && NoData(s.script)
             && Read(s.changes) == Some(Opening)
    ensures var s', id := s.(changes := s.changes + [ToConnected]), s.lifecycle.id;
            var r := Call(s').0;
            if s.script != [] && Ends(s.script[0], id)
            then r.lifecycle != s.lifecycle && Over(s', r, id) && id !in r.resolved
            else r.lifecycle == s.lifecycle && r.changes == s.changes + [ToConnected]
  {
    ReadOn(s.changes, ToConnected);
    var s' := s.(changes := s.changes + [ToConnected]);
    CallSurvives(s');
    hide Good, Ends, Call, NoData, Read;
    assert s.script == s'.script;
  }

  lemma Throws(s: State)
    ensures Call(s).1 <==> s.script != [] && s.script[0].throws
  {
  }

  /** The exits of the handshake. */
  lemma GreetCases(s: State)
    requires s.lifecycle.Connecting?
    ensures var connected := Connected(s.lifecycle.id, true);
            var (s1, threw) := Call(s.(lifecycle := connected));
            && (s1.lifecycle != connected ==> Greet(s) == s1)
            && (s1.lifecycle == connected && threw ==> Greet(s) == FailConnection(s1))
            && (s1.lifecycle == connected && !threw ==>
                  var s2 := Call(s1.(changes := s1.changes + [ToConnected])).0;
                  Greet(s) == if s2.lifecycle != connected then s2
                              else SettlePromise(s2.(lifecycle := Connected(connected.id, false)), connected.id, true))
  {
    var connected := Connected(s.lifecycle.id, true);
    var (s1, threw) := Call(s.(lifecycle := connected));
    assert Notify(s1, ToConnected) == Call(s1.(changes := s1.changes + [ToConnected])).0;
    hide Call, FailConnection;
  }

  // ---------------------------------------------------------------------------
  // Messages
  // ---------------------------------------------------------------------------

  /** Every message of an established connection is given to the application, once, unless a callback ends it. */
  lemma {:induction false} MessagesDelivered(s: State, id: Id, messages: seq<Message>)
    requires Good(s) && s.lifecycle.Connected? && s.lifecycle.id == id && NoData(s.script)
    requires forall k :: 0 <= k < |messages| ==> messages[k] == Other
    requires forall k :: 0 <= k < |messages| && k < |s.script| ==> !Ends(s.script[k], id)
    ensures HandleAll(s, id, messages) ==
            s.(script := if |messages| <= |s.script| then s.script[|messages|..] else [])
    decreases |messages|
  {
    if messages != [] {
      assert s.(strayed := s.strayed || s.lifecycle.id != id) == s;
      CallSurvives(s);
      var next := Call(s).0;
      assert next == s.(script := if s.script == [] then [] else s.script[1..]);
      assert HandleAll(s, id, messages) == HandleAll(next, id, messages[1..]);
      assert forall k :: 0 <= k < |next.script| ==> next.script[k] == s.script[k + 1];
      MessagesDelivered(next, id, messages[1..]);
    }
  }
}
