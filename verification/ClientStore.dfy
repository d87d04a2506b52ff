/** The client's cache of server and session snapshots, which arrive over one connection but may be stale. */
module ClientStore {
  import opened Wrappers
  import Snapshots

  type SessionId = string

  datatype SessionSnapshot = SessionSnapshot(id: SessionId, revision: nat, attached: bool, content: nat)

  datatype Cache = Cache(snapshots: map<SessionId, SessionSnapshot>, attached: set<SessionId>)

  /** #applySessionSnapshot. */
  function ApplySnapshot(cache: Cache, s: SessionSnapshot, force: bool): Cache {
    if !force && s.id in cache.snapshots && s.revision < cache.snapshots[s.id].revision then cache
    else Cache(cache.snapshots[s.id := s], if s.attached then cache.attached + {s.id} else cache.attached - {s.id})
  }

  datatype Message =
    // session_snapshot events, and results of every command but list and detach
    | SessionArrives(snapshot: SessionSnapshot)
    | SessionRemoved(id: SessionId)
    | Detached(id: SessionId)                     // the result of detach

  function Receive(cache: Cache, m: Message): Cache {
    match m
    case SessionArrives(s) => ApplySnapshot(cache, s, false)
    case SessionRemoved(id) => Cache(cache.snapshots - {id}, cache.attached - {id})
    case Detached(id) =>
      var without := cache.(attached := cache.attached - {id});
      if id in cache.snapshots then ApplySnapshot(without, cache.snapshots[id].(attached := false), true) else without
  }

  const Empty := Cache(map[], {})

  function Received(messages: seq<Message>): Cache {
    if messages == [] then Empty else Receive(Received(messages[..|messages| - 1]), messages[|messages| - 1])
  }

  /** The session a message is about. */
  function About(m: Message): SessionId {
    match m case SessionArrives(s) => s.id case SessionRemoved(id) => id case Detached(id) => id
  }

  /** The snapshots of one session received since it was last removed. */
  function Since(messages: seq<Message>, id: SessionId): seq<Snapshots.Snapshot> {
    if messages == [] then []
    else
      var m := messages[|messages| - 1];
      var before := Since(messages[..|messages| - 1], id);
      if About(m) != id then before
      else match m
        case SessionArrives(s) => before + [Snapshots.Snapshot(s.revision, s.content)]
        case SessionRemoved(_) => []
        case Detached(_) => before
  }

  /** Whether a snapshot comes too late to be taken in. */
  predicate Stale(before: seq<Message>, s: SessionSnapshot) {
    Snapshots.Stored(Since(before, s.id)).Some? && s.revision < Snapshots.Stored(Since(before, s.id)).value.revision
  }

  /** Whether the client is attached: what the last snapshot taken in says, unless it has detached since. */
  predicate AttachedAfter(messages: seq<Message>, id: SessionId) {
    messages != [] &&
    var m, before := messages[|messages| - 1], messages[..|messages| - 1];
    if About(m) == id && m.SessionArrives? && !Stale(before, m.snapshot) then m.snapshot.attached
    else !(About(m) == id && !m.SessionArrives?) && AttachedAfter(before, id)
  }

  /**
   For every session and every interleaving of messages about any sessions: the cache holds, of the
   snapshots received since the session was last removed, the last one of the highest revision; and
   the session counts as attached exactly if the last snapshot taken in says so and no detach or removal came
   since, and the cached snapshot says the same.
   */
  lemma {:induction false} CacheIsLatest(messages: seq<Message>, id: SessionId)
    ensures var cache := Received(messages);
            && (id in cache.snapshots ==>
                  && cache.snapshots[id].id == id
                  && Snapshots.Stored(Since(messages, id))
                     == Some(Snapshots.Snapshot(cache.snapshots[id].revision, cache.snapshots[id].content)))
            && (id !in cache.snapshots ==> Since(messages, id) == [])
            && (id in cache.attached <==> id in cache.snapshots && cache.snapshots[id].attached)
            && (id in cache.attached <==> AttachedAfter(messages, id))
  {
    if messages != [] {
      var m, before := messages[|messages| - 1], messages[..|messages| - 1];
      CacheIsLatest(before, id);
      CacheIsLatest(before, About(m));
      if About(m) == id && m.SessionArrives? {
        Snapshots.StoredAppend(Since(before, id), Snapshots.Snapshot(m.snapshot.revision, m.snapshot.content));
      }
    }
  }

  /** ClientState: its fields, changed in place. */
  class ClientState {
    var sessionSnapshots: map<SessionId, SessionSnapshot>
    var attachedSessionIds: set<SessionId>
    var snapshot: Option<Snapshots.Snapshot>

    function Sessions(): Cache
      reads this
    {
      Cache(sessionSnapshots, attachedSessionIds)
    }

    constructor ()
      ensures Sessions() == Empty && snapshot == None
    {
      sessionSnapshots, attachedSessionIds, snapshot := map[], {}, None;
    }

    method Reset()
      modifies this
      ensures Sessions() == Empty && snapshot == None
    {
      snapshot, sessionSnapshots, attachedSessionIds := None, map[], {};
    }

    method ApplyServerSnapshot(s: Snapshots.Snapshot)
      modifies this`snapshot
      ensures snapshot == Snapshots.Store(old(snapshot), s)
    {
      if snapshot.Some? && s.revision < snapshot.value.revision { return; }
      snapshot := Some(s);
    }

    method ApplySessionSnapshot(s: SessionSnapshot, force: bool)
      modifies this`sessionSnapshots, this`attachedSessionIds
      ensures Sessions() == ApplySnapshot(old(Sessions()), s, force)
    {
      if !force && s.id in sessionSnapshots && s.revision < sessionSnapshots[s.id].revision { return; }
      sessionSnapshots := sessionSnapshots[s.id := s];
      if s.attached {
        attachedSessionIds := attachedSessionIds + {s.id};
      } else {
        attachedSessionIds := attachedSessionIds - {s.id};
      }
    }

    /** The result of detach. */
    method ApplyDetach(id: SessionId)
      modifies this`sessionSnapshots, this`attachedSessionIds
      ensures Sessions() == Receive(old(Sessions()), Detached(id))
    {
      attachedSessionIds := attachedSessionIds - {id};
      if id in sessionSnapshots {
        ApplySessionSnapshot(sessionSnapshots[id].(attached := false), true);
      }
    }

    method ApplyRemoval(id: SessionId)
      modifies this`sessionSnapshots, this`attachedSessionIds
      ensures Sessions() == Receive(old(Sessions()), SessionRemoved(id))
    {
      sessionSnapshots := sessionSnapshots - {id};
      attachedSessionIds := attachedSessionIds - {id};
    }
  }
}
