/**
 Generation-checked publication of one provider's models. Refreshes supersede one another; each
 publication waits for the one queued before it, mutates the store if its generation is still current,
 and updates memory if it is current even then. Each step is one stretch of code between two awaits.
 */
module Publication {
  import opened Wrappers

  type Value = nat
  type RefreshId = nat

  datatype Persist = Keep | Delete | Write(value: Value)

  /** What the store holds once a publication has been persisted. */
  function Persisted(p: Persist, store: Option<Value>): Option<Value> {
    match p case Keep => store case Delete => None case Write(v) => Some(v)
  }

  /** A refresh of the provider and whether its signal is aborted. */
  datatype Refresh = Refresh(generation: nat, aborted: bool)

  datatype Phase =
    | Waiting(after: Option<nat>)   // for the publication queued before, if that had not been forgotten
    | Mutating(applied: bool)       // the store operation is under way, and may have taken effect
    | Settled(published: bool)

  datatype Publication = Publication(refresh: RefreshId, persist: Persist, phase: Phase)

  /** An update of memory: whose it was, and what it found. */
  datatype Update = Update(publication: nat, generation: nat, current: nat, aborted: bool, store: Option<Value>)

  /**
   `started` lists the publications whose store operation has begun, `changed` those whose operation has
   taken effect, `updates` what memory has seen.
   */
  datatype World = World(
    generation: nat,
    controller: Option<RefreshId>,
    refreshes: map<RefreshId, Refresh>,
    publications: seq<Publication>,
    chained: bool,                  // the last publication is still in publicationChains
    store: Option<Value>,
    started: seq<nat>,
    changed: seq<nat>,
    updates: seq<Update>)

  const Init := World(0, None, map[], [], false, None, [], [], [])

  datatype Event =
    | Superseded                    // setProvider, deleteProvider or clearProviders
    | RefreshBegins(r: RefreshId)
    | RefreshEnds(r: RefreshId)
    | CallerAborts(r: RefreshId)
    | Publishes(r: RefreshId, persist: Persist)
    | Wakes(i: nat)
    | StoreChanges(i: nat)
    | MutationReturns(i: nat, ok: bool)
    | TailForgotten

  /** supersedeProviderRefresh. */
  function Supersede(w: World): World {
    w.(generation := w.generation + 1, controller := None,
       refreshes := if w.controller.Some? && w.controller.value in w.refreshes
                    then w.refreshes[w.controller.value := w.refreshes[w.controller.value].(aborted := true)]
                      else w.refreshes)
  }

  function Begin(w: World, r: RefreshId): World {
    var w1 := Supersede(w);
    w1.(refreshes := w1.refreshes[r := Refresh(w1.generation, false)], controller := Some(r))
  }

  /** Whether a publication may go on. */
  predicate Current(w: World, p: Publication) {
    p.refresh in w.refreshes && !w.refreshes[p.refresh].aborted && w.refreshes[p.refresh].generation == w.generation
  }

  function SetPhase(w: World, i: nat, phase: Phase): World
    requires i < |w.publications|
  {
    w.(publications := w.publications[i := w.publications[i].(phase := phase)])
  }

  /** The second check of publishProviderModels, and the update behind it. */
  function Finish(w: World, i: nat): World
    requires i < |w.publications| && w.publications[i].refresh in w.refreshes
  {
    var p := w.publications[i];
    if !Current(w, p) then SetPhase(w, i, Settled(false))
    else
      var r := w.refreshes[p.refresh];
      SetPhase(w, i, Settled(true)).(updates := w.updates + [Update(i, r.generation, w.generation, r.aborted, w.store)])
  }

  /** publishProviderModels, once the publication before it has settled. */
  function Wake(w: World, i: nat): World
    requires i < |w.publications| && w.publications[i].refresh in w.refreshes
  {
    var p := w.publications[i];
    if !Current(w, p) then SetPhase(w, i, Settled(false))
    else if p.persist == Keep then Finish(w, i)
    else SetPhase(w, i, Mutating(false)).(started := w.started + [i])
  }

  predicate Enabled(w: World, e: Event) {
    match e
    case Superseded => true
    case RefreshBegins(r) => r !in w.refreshes
    case RefreshEnds(r) => r in w.refreshes
    case CallerAborts(r) => r in w.refreshes
    case Publishes(r, _) => r in w.refreshes
    case Wakes(i) =>
      i < |w.publications| && w.publications[i].refresh in w.refreshes && w.publications[i].phase.Waiting?
      && (w.publications[i].phase.after.Some? ==>
            w.publications[i].phase.after.value < |w.publications|
                && w.publications[w.publications[i].phase.after.value].phase.Settled?)
    case StoreChanges(i) => i < |w.publications| && w.publications[i].phase == Mutating(false)
    case MutationReturns(i, ok) =>
      i < |w.publications| && w.publications[i].refresh in w.refreshes && w.publications[i].phase.Mutating?
      && (ok ==> w.publications[i].phase.applied)
    case TailForgotten => w.chained && w.publications != [] && w.publications[|w.publications| - 1].phase.Settled?
  }

  function Apply(w: World, e: Event): World
    requires Enabled(w, e)
  {
    match e
    case Superseded => Supersede(w)
    case RefreshBegins(r) => Begin(w, r)
    case RefreshEnds(r) => if w.controller == Some(r) then w.(controller := None) else w
    case CallerAborts(r) => w.(refreshes := w.refreshes[r := w.refreshes[r].(aborted := true)])
    case Publishes(r, persist) =>
      var after := if w.chained && w.publications != [] then Some(|w.publications| - 1) else None;
      w.(publications := w.publications + [Publication(r, persist, Waiting(after))], chained := true)
    case Wakes(i) => Wake(w, i)
    case StoreChanges(i) =>
      SetPhase(w, i, Mutating(true)).(store := Persisted(w.publications[i].persist, w.store),
          changed := w.changed + [i])
    case MutationReturns(i, ok) => if ok then Finish(w, i) else SetPhase(w, i, Settled(false))
    case TailForgotten => w.(chained := false)
  }

  function Run(events: seq<Event>): Option<World> {
    if events == [] then Some(Init)
    else
      var before := Run(events[..|events| - 1]);
      var e := events[|events| - 1];
      if before.Some? && Enabled(before.value, e) then Some(Apply(before.value, e)) else None
  }

  // ---------------------------------------------------------------------------
  // Invariant
  // ---------------------------------------------------------------------------

  /** A publication waits for the one queued before it, unless that has settled. */
  ghost predicate WaitsItsTurn(publications: seq<Publication>, i: nat)
    requires i < |publications|
  {
    publications[i].phase.Waiting? ==>
      && (i > 0 && publications[i].phase.after != Some(i - 1) ==> publications[i - 1].phase.Settled?)
      && (publications[i].phase.after.Some? ==> publications[i].phase.after == Some(i - 1))
  }

  /** Publications take their turns in the order in which they were queued. */
  ghost predicate InOrder(publications: seq<Publication>, chained: bool) {
    && (forall i :: 0 <= i < |publications| ==> WaitsItsTurn(publications, i))
    && (forall i, j :: 0 <= i < j < |publications| && !publications[j].phase.Waiting? ==>
       publications[i].phase.Settled?)
    && (publications != [] && !chained ==> publications[|publications| - 1].phase.Settled?)
  }

  ghost predicate RefreshesSound(publications: seq<Publication>, refreshes: map<RefreshId, Refresh>, generation: nat) {
    && (forall i :: 0 <= i < |publications| ==> publications[i].refresh in refreshes)
    && (forall r :: r in refreshes ==> refreshes[r].generation <= generation)
  }

  /** The generation for which a publication was made. */
  function GenerationOf(p: Publication, refreshes: map<RefreshId, Refresh>): nat {
    if p.refresh in refreshes then refreshes[p.refresh].generation else 0
  }

  /** Store operations began in queue order, and for generations that never decrease. */
  ghost predicate StartedSound(publications: seq<Publication>, refreshes: map<RefreshId, Refresh>, started: seq<nat>) {
    && (forall k :: 0 <= k < |started| ==> started[k] < |publications| && !publications[started[k]].phase.Waiting?)
    && (forall k, l :: 0 <= k < l < |started| ==>
          started[k] < started[l]
              && GenerationOf(publications[started[k]], refreshes) <= GenerationOf(publications[started[l]], refreshes))
    && (forall i :: 0 <= i < |publications| && publications[i].phase.Mutating? ==>
       started != [] && started[|started| - 1] == i)
  }

  /** What an update found: its own generation current, its signal not aborted, and its own value in the store. */
  ghost predicate UpdateSound(u: Update, publications: seq<Publication>) {
    && u.publication < |publications| && publications[u.publication].phase == Settled(true)
    && u.generation == u.current && !u.aborted
    && u.store == Persisted(publications[u.publication].persist, u.store)
  }

  /** Once its operation has taken effect, the store holds the value of the publication that mutates it. */
  ghost predicate StoreSound(publications: seq<Publication>, store: Option<Value>) {
    forall i :: 0 <= i < |publications| && publications[i].phase == Mutating(true) ==>
        store == Persisted(publications[i].persist, store)
  }

  /** What the last store operation wrote for a publication that went through is still in the store. */
  ghost predicate PublishedStays(publications: seq<Publication>, started: seq<nat>, store: Option<Value>) {
    started != [] && started[|started| - 1] < |publications|
        && publications[started[|started| - 1]].phase == Settled(true) ==>
      store == Persisted(publications[started[|started| - 1]].persist, store)
  }

  ghost predicate UpdatesOrdered(updates: seq<Update>, generation: nat) {
    && (forall k :: 0 <= k < |updates| ==> updates[k].generation <= generation)
    && (forall k, l :: 0 <= k < l < |updates| ==> updates[k].generation <= updates[l].generation)
  }

  ghost predicate Inv(w: World) {
    && InOrder(w.publications, w.chained)
    && RefreshesSound(w.publications, w.refreshes, w.generation)
    && StartedSound(w.publications, w.refreshes, w.started)
    && StoreSound(w.publications, w.store) && PublishedStays(w.publications, w.started, w.store)
    && (forall k :: 0 <= k < |w.updates| ==> UpdateSound(w.updates[k], w.publications))
    && UpdatesOrdered(w.updates, w.generation)
  }

  // ---------------------------------------------------------------------------
  // Every step keeps it
  // ---------------------------------------------------------------------------

  /** The phases of publications only move on. */
  predicate MovesOn(phase: Phase, phase': Phase) {
    || phase == phase'
    || (phase.Waiting? && !phase'.Waiting?)
    || (phase.Mutating? && (phase'.Mutating? || phase'.Settled?))
  }

  lemma PhaseKeepsOrder(publications: seq<Publication>, chained: bool, i: nat, phase: Phase)
    requires InOrder(publications, chained) && i < |publications| && MovesOn(publications[i].phase, phase)
    requires forall k :: 0 <= k < i ==> publications[k].phase.Settled?
    ensures InOrder(publications[i := publications[i].(phase := phase)], chained)
  {
    var publications' := publications[i := publications[i].(phase := phase)];
    forall k | 0 <= k < |publications| ensures WaitsItsTurn(publications', k) {
      assert WaitsItsTurn(publications, k);
    }
  }

  lemma PhaseKeepsUpdates(w: World, i: nat, phase: Phase)
    requires i < |w.publications| && !w.publications[i].phase.Settled?
    requires forall k :: 0 <= k < |w.updates| ==> UpdateSound(w.updates[k], w.publications)
    ensures forall k :: 0 <= k < |w.updates| ==> UpdateSound(w.updates[k], SetPhase(w, i, phase).publications)
  {
  }

  /** The publication that takes its turn is preceded by settled ones only. */
  lemma TurnIsTaken(w: World, i: nat)
    requires InOrder(w.publications, w.chained) && i < |w.publications| && !w.publications[i].phase.Settled?
    requires Enabled(w, Wakes(i)) || w.publications[i].phase.Mutating?
    ensures forall k :: 0 <= k < i ==> w.publications[k].phase.Settled?
    ensures forall k :: i < k < |w.publications| ==> w.publications[k].phase.Waiting?
  {
    assert WaitsItsTurn(w.publications, i);
    if w.publications[i].phase.Waiting? && i > 0 {
      assert w.publications[i - 1].phase.Settled?;
      forall k | 0 <= k < i - 1 ensures w.publications[k].phase.Settled? { }
    }
  }

  lemma SettleKeeps(w: World, i: nat)
    requires Inv(w) && i < |w.publications| && !w.publications[i].phase.Settled?
    requires forall k :: 0 <= k < i ==> w.publications[k].phase.Settled?
    ensures Inv(SetPhase(w, i, Settled(false)))
  {
    PhaseKeepsOrder(w.publications, w.chained, i, Settled(false));
    PhaseKeepsUpdates(w, i, Settled(false));
    hide InOrder, UpdateSound;
  }

  lemma FinishKeeps(w: World, i: nat)
    requires Inv(w) && i < |w.publications| && !w.publications[i].phase.Settled?
    requires forall k :: 0 <= k < i ==> w.publications[k].phase.Settled?
    requires w.store == Persisted(w.publications[i].persist, w.store)
    ensures Inv(Finish(w, i))
  {
    if Current(w, w.publications[i]) {
      PhaseKeepsOrder(w.publications, w.chained, i, Settled(true));
      PhaseKeepsUpdates(w, i, Settled(true));
      hide InOrder;
      var w' := Finish(w, i);
      assert UpdateSound(w'.updates[|w.updates|], w'.publications);
      hide UpdateSound;
    } else {
      SettleKeeps(w, i);
    }
  }

  lemma WakeKeeps(w: World, i: nat)
    requires Inv(w) && Enabled(w, Wakes(i))
    ensures Inv(Wake(w, i))
  {
    TurnIsTaken(w, i);
    var p := w.publications[i];
    if !Current(w, p) {
      SettleKeeps(w, i);
    } else if p.persist == Keep {
      FinishKeeps(w, i);
    } else {
      PhaseKeepsOrder(w.publications, w.chained, i, Mutating(false));
      PhaseKeepsUpdates(w, i, Mutating(false));
      hide InOrder, UpdateSound;
      StartKeeps(w, i);
      hide StartedSound;
    }
  }

  lemma StartKeeps(w: World, i: nat)
    requires RefreshesSound(w.publications, w.refreshes, w.generation)
             && StartedSound(w.publications, w.refreshes, w.started)
    requires i < |w.publications| && w.publications[i].phase.Waiting? && Current(w, w.publications[i])
    requires forall k :: 0 <= k < i ==> w.publications[k].phase.Settled?
    requires forall k :: i < k < |w.publications| ==> w.publications[k].phase.Waiting?
    ensures var w' := SetPhase(w, i, Mutating(false)).(started := w.started + [i]);
            RefreshesSound(w'.publications, w'.refreshes, w'.generation)
                && StartedSound(w'.publications, w'.refreshes, w'.started)
  {
  }

  lemma MutationKeeps(w: World, i: nat, ok: bool)
    requires Inv(w) && Enabled(w, MutationReturns(i, ok))
    ensures Inv(Apply(w, MutationReturns(i, ok)))
  {
    TurnIsTaken(w, i);
    if ok { FinishKeeps(w, i); } else { SettleKeeps(w, i); }
  }

  lemma StoreChangeKeeps(w: World, i: nat)
    requires Inv(w) && Enabled(w, StoreChanges(i))
    ensures Inv(Apply(w, StoreChanges(i)))
  {
    TurnIsTaken(w, i);
    PhaseKeepsOrder(w.publications, w.chained, i, Mutating(true));
    PhaseKeepsUpdates(w, i, Mutating(true));
    hide InOrder, UpdateSound;
  }

  lemma PublishKeeps(w: World, r: RefreshId, persist: Persist)
    requires Inv(w) && Enabled(w, Publishes(r, persist))
    ensures Inv(Apply(w, Publishes(r, persist)))
  {
    var publications' := Apply(w, Publishes(r, persist)).publications;
    forall k | 0 <= k < |publications'| ensures WaitsItsTurn(publications', k) {
      if k < |w.publications| { assert WaitsItsTurn(w.publications, k); }
    }
    forall k | 0 <= k < |w.updates| ensures UpdateSound(w.updates[k], publications') {
      assert UpdateSound(w.updates[k], w.publications);
    }
    hide UpdateSound;
  }

  /** Refreshes come, go and are superseded; the generation of each stays what it was. */
  lemma RefreshesMove(w: World, w': World)
    requires Inv(w) && w' == w.(generation := w'.generation, controller := w'.controller, refreshes := w'.refreshes)
    requires w.generation <= w'.generation
    requires forall r :: r in w.refreshes ==>
             r in w'.refreshes && w'.refreshes[r].generation == w.refreshes[r].generation
    requires forall r :: r in w'.refreshes ==> w'.refreshes[r].generation <= w'.generation
    ensures Inv(w')
  {
    hide UpdateSound, InOrder, StoreSound, PublishedStays;
    StartedMoves(w.publications, w.refreshes, w'.refreshes, w.started);
    assert RefreshesSound(w.publications, w'.refreshes, w'.generation);
    assert UpdatesOrdered(w.updates, w'.generation);
    hide UpdateSound, InOrder, StoreSound, PublishedStays, StartedSound, RefreshesSound, UpdatesOrdered;
  }

  lemma StartedMoves(publications: seq<Publication>, refreshes: map<RefreshId, Refresh>,
                     refreshes': map<RefreshId, Refresh>, started: seq<nat>)
    requires StartedSound(publications, refreshes, started)
    requires forall i :: 0 <= i < |publications| ==> publications[i].refresh in refreshes
    requires forall r :: r in refreshes ==> r in refreshes' && refreshes'[r].generation == refreshes[r].generation
    ensures StartedSound(publications, refreshes', started)
  {
    assert forall i :: 0 <= i < |publications| ==>
           GenerationOf(publications[i], refreshes') == GenerationOf(publications[i], refreshes);
    hide GenerationOf;
  }

  lemma StepKeeps(w: World, e: Event)
    requires Inv(w) && Enabled(w, e)
    ensures Inv(Apply(w, e))
  {
    hide Inv;
    match e {
      case Wakes(i) => WakeKeeps(w, i);
      case StoreChanges(i) => StoreChangeKeeps(w, i);
      case MutationReturns(i, ok) => MutationKeeps(w, i, ok);
      case Publishes(r, persist) => PublishKeeps(w, r, persist);
      case TailForgotten => ForgetKeeps(w);
      case _ => RefreshStepKeeps(w, e);
    }
  }

  lemma RefreshStepKeeps(w: World, e: Event)
    requires Inv(w) && Enabled(w, e) && (e.Superseded? || e.RefreshBegins? || e.RefreshEnds? || e.CallerAborts?)
    ensures Inv(Apply(w, e))
  {
    hide InOrder, StartedSound, StoreSound, PublishedStays, UpdateSound, UpdatesOrdered;
    RefreshesMove(w, Apply(w, e));
    hide Inv;
  }

  lemma ForgetKeeps(w: World)
    requires Inv(w) && Enabled(w, TailForgotten)
    ensures Inv(w.(chained := false))
  {
    hide UpdateSound, StartedSound, StoreSound, PublishedStays, RefreshesSound, UpdatesOrdered;
  }

  lemma {:induction false} RunKeeps(events: seq<Event>)
    requires Run(events).Some?
    ensures Inv(Run(events).value)
    decreases |events|
  {
    if events == [] {
      InitKeeps();
      hide Inv;
    } else {
      hide Inv, Apply, Enabled;
      RunKeeps(events[..|events| - 1]);
      StepKeeps(Run(events[..|events| - 1]).value, events[|events| - 1]);
    }
  }

  lemma InitKeeps()
    ensures Inv(Init)
  {
  }

  // ---------------------------------------------------------------------------
  // Main results
  // ---------------------------------------------------------------------------

  /** In every run store operations never overlap, and their generations never decrease in the order they began. */
  lemma MutationsAreSerial(events: seq<Event>)
    requires Run(events).Some?
    ensures var w := Run(events).value;
            && (forall i, j :: 0 <= i < j < |w.publications| ==>
               !(w.publications[i].phase.Mutating? && w.publications[j].phase.Mutating?))
            && (forall k :: 0 <= k < |w.started| ==> w.started[k] < |w.publications|)
            && (forall k, l :: 0 <= k < l < |w.started| ==>
                  GenerationOf(w.publications[w.started[k]], w.refreshes) <= GenerationOf(w.publications[w.started[l]],
                      w.refreshes))
  {
    RunKeeps(events);
  }

  /**
   Whenever an update of memory ran, its generation was current, its refresh not aborted, and the store
   held what it had persisted.
   */
  lemma UpdatesAreCurrent(events: seq<Event>, k: nat)
    requires Run(events).Some? && k < |Run(events).value.updates|
    ensures var w := Run(events).value; var u := w.updates[k];
            && u.generation == u.current && !u.aborted && u.publication < |w.publications|
            && match w.publications[u.publication].persist
               case Keep => true
               case Delete => u.store == None
               case Write(v) => u.store == Some(v)
  {
    RunKeeps(events);
    assert UpdateSound(Run(events).value.updates[k], Run(events).value.publications);
  }

  /** Memory sees the publications in the order in which they were queued, and generations that never decrease. */
  lemma UpdatesAreOrdered(events: seq<Event>, k: nat, l: nat)
    requires Run(events).Some? && k < l < |Run(events).value.updates|
    ensures var updates := Run(events).value.updates;
            updates[k].publication < updates[l].publication && updates[k].generation <= updates[l].generation
  {
    RunKeeps(events);
    RunMirrors(events);
  }

  // ---------------------------------------------------------------------------
  // Storage and memory
  // ---------------------------------------------------------------------------

  /** The last publication that wrote to memory what it also stored. */
  function LastSeen(updates: seq<Update>, publications: seq<Publication>): Option<nat> {
    if updates == [] then None
    else
      var u := updates[|updates| - 1];
      if u.publication < |publications| && publications[u.publication].persist != Keep then Some(u.publication)
      else LastSeen(updates[..|updates| - 1], publications)
  }

  /** The last publication whose store operation took effect. */
  function LastStored(w: World): Option<nat> {
    if w.changed == [] then None else Some(w.changed[|w.changed| - 1])
  }

  /** Memory has seen exactly the publications that went through, in queue order. */
  ghost predicate Seen(publications: seq<Publication>, updates: seq<Update>) {
    && (forall k :: 0 <= k < |updates| ==>
       updates[k].publication < |publications| && publications[updates[k].publication].phase == Settled(true))
    && (forall k, l :: 0 <= k < l < |updates| ==> updates[k].publication < updates[l].publication)
    && (forall i :: 0 <= i < |publications| && publications[i].phase == Settled(true) ==>
       exists k :: 0 <= k < |updates| && updates[k].publication == i)
  }

  /**
   The store has been changed in queue order, by every publication that stored something and went through,
   and holds the last change.
   */
  ghost predicate Stored(publications: seq<Publication>, changed: seq<nat>, store: Option<Value>) {
    && (forall k :: 0 <= k < |changed| ==> changed[k] < |publications| && !publications[changed[k]].phase.Waiting?)
    && (forall k, l :: 0 <= k < l < |changed| ==> changed[k] < changed[l])
    && (forall i :: 0 <= i < |publications| && publications[i].phase == Mutating(false) ==> i !in changed)
    && (forall i :: 0 <= i < |publications| && publications[i].phase.Mutating? ==> publications[i].persist != Keep)
    && (forall i :: 0 <= i < |publications| && publications[i].persist != Keep
                    && (publications[i].phase == Settled(true) || publications[i].phase == Mutating(true)) ==>
          i in changed)
    && (if changed == [] then store == None
        else
          var last := publications[changed[|changed| - 1]];
          store == Persisted(last.persist, None) && last.persist != Keep)
  }

  ghost predicate Mirrored(w: World) { Seen(w.publications, w.updates) && Stored(w.publications, w.changed, w.store) }

  lemma SettlesMirrored(w: World, i: nat)
    requires Mirrored(w) && i < |w.publications| && !w.publications[i].phase.Settled?
    ensures Mirrored(SetPhase(w, i, Settled(false)))
  {
  }

  lemma FinishSeen(publications: seq<Publication>, updates: seq<Update>, i: nat, u: Update)
    requires Seen(publications, updates) && i < |publications| && !publications[i].phase.Settled? && u.publication == i
    requires forall k :: i < k < |publications| ==> publications[k].phase.Waiting?
    ensures Seen(publications[i := publications[i].(phase := Settled(true))], updates + [u])
  {
    var publications', updates' := publications[i := publications[i].(phase := Settled(true))], updates + [u];
    forall j | 0 <= j < |publications'| && publications'[j].phase == Settled(true)
      ensures exists k :: 0 <= k < |updates'| && updates'[k].publication == j
    {
      if j == i {
        assert updates'[|updates|].publication == i;
      } else {
        var k :| 0 <= k < |updates| && updates[k].publication == j;
        assert updates'[k].publication == j;
      }
    }
  }

  lemma FinishMirrored(w: World, i: nat)
    requires Mirrored(w) && i < |w.publications| && !w.publications[i].phase.Settled?
             && w.publications[i].refresh in w.refreshes
    requires w.publications[i].persist == Keep || w.publications[i].phase == Mutating(true)
    requires forall k :: i < k < |w.publications| ==> w.publications[k].phase.Waiting?
    ensures Mirrored(Finish(w, i))
  {
    if Current(w, w.publications[i]) {
      var w' := Finish(w, i);
      FinishSeen(w.publications, w.updates, i, w'.updates[|w.updates|]);
      hide Seen;
    } else {
      SettlesMirrored(w, i);
      hide Mirrored;
    }
  }

  lemma StepMirrored(w: World, e: Event)
    requires Inv(w) && Mirrored(w) && Enabled(w, e)
    ensures Mirrored(Apply(w, e))
  {
    match e {
      case Wakes(i) =>
        TurnIsTaken(w, i);
        if !Current(w, w.publications[i]) { SettlesMirrored(w, i); }
        else if w.publications[i].persist == Keep { FinishMirrored(w, i); }
        else { BeginMirrored(w, i); }
      case StoreChanges(i) => { TurnIsTaken(w, i); ChangeMirrored(w, i); }
      case MutationReturns(i, ok) =>
        TurnIsTaken(w, i);
        if ok { FinishMirrored(w, i); } else { SettlesMirrored(w, i); }
      case Publishes(r, persist) => QueueMirrored(w, r, persist);
      case _ =>
    }
    hide Inv, Seen, Stored;
  }

  lemma BeginMirrored(w: World, i: nat)
    requires Mirrored(w) && i < |w.publications| && w.publications[i].phase.Waiting?
             && w.publications[i].persist != Keep
    ensures Mirrored(SetPhase(w, i, Mutating(false)).(started := w.started + [i]))
  {
  }

  lemma ChangeMirrored(w: World, i: nat)
    requires Mirrored(w) && Enabled(w, StoreChanges(i))
    requires forall k :: i < k < |w.publications| ==> w.publications[k].phase.Waiting?
    ensures Mirrored(Apply(w, StoreChanges(i)))
  {
    var w' := Apply(w, StoreChanges(i));
    assert w'.changed[|w.changed|] == i;
    forall j | 0 <= j < |w'.publications| && w'.publications[j].persist != Keep
               && (w'.publications[j].phase == Settled(true) || w'.publications[j].phase == Mutating(true))
      ensures j in w'.changed
    {
      if j != i { assert j in w.changed; }
    }
  }

  lemma QueueMirrored(w: World, r: RefreshId, persist: Persist)
    requires Mirrored(w) && Enabled(w, Publishes(r, persist))
    ensures Mirrored(Apply(w, Publishes(r, persist)))
  {
  }

  lemma {:induction false} RunMirrors(events: seq<Event>)
    requires Run(events).Some?
    ensures Mirrored(Run(events).value)
    decreases |events|
  {
    if events != [] {
      hide Inv, Apply, Enabled, Mirrored;
      RunMirrors(events[..|events| - 1]);
      RunKeeps(events[..|events| - 1]);
      StepMirrored(Run(events[..|events| - 1]).value, events[|events| - 1]);
    }
  }

  /** The last update of a publication that stores something, if there is one. */
  lemma {:induction false} LastSeenIsLast(updates: seq<Update>, publications: seq<Publication>)
    requires forall k :: 0 <= k < |updates| ==> updates[k].publication < |publications|
    ensures match LastSeen(updates, publications)
            case None => forall k :: 0 <= k < |updates| ==> publications[updates[k].publication].persist == Keep
            case Some(i) =>
              && i < |publications| && publications[i].persist != Keep
              && exists k :: 0 <= k < |updates| && updates[k].publication == i
                             && forall l :: k < l < |updates| ==> publications[updates[l].publication].persist == Keep
  {
    if updates != [] {
      var front := updates[..|updates| - 1];
      LastSeenIsLast(front, publications);
      if publications[updates[|updates| - 1].publication].persist != Keep {
        assert updates[|updates| - 1].publication == LastSeen(updates, publications).value;
      } else if LastSeen(front, publications).Some? {
        var k :| 0 <= k < |front| && front[k].publication == LastSeen(front, publications).value
                 && forall l :: k < l < |front| ==> publications[front[l].publication].persist == Keep;
        assert updates[k].publication == LastSeen(updates, publications).value;
      }
    }
  }

  /**
   The store always holds what the last effective store operation wrote. What memory last saw is of the
   same publication, so that storage and memory agree, exactly if that publication went through: if it
   failed, was superseded before its second check, or is still under way, memory is behind.
   */
  lemma StoreAgrees(events: seq<Event>)
    requires Run(events).Some?
    ensures var w := Run(events).value;
            match LastStored(w)
            case None => w.store == None && LastSeen(w.updates, w.publications) == None
            case Some(i) =>
              && i < |w.publications| && w.store == Persisted(w.publications[i].persist, None)
              && (LastSeen(w.updates, w.publications) == Some(i) <==> w.publications[i].phase == Settled(true))
    ensures var w := Run(events).value;
            w.started != [] && w.started[|w.started| - 1] < |w.publications|
                && w.publications[w.started[|w.started| - 1]].phase == Settled(true) ==>
              w.store == Persisted(w.publications[w.started[|w.started| - 1]].persist, w.store)
  {
    RunKeeps(events);
    RunMirrors(events);
    MirrorsAgree(Run(events).value);
    hide Mirrored, LastSeen, Run, InOrder, RefreshesSound, StartedSound, StoreSound, UpdateSound, UpdatesOrdered;
  }

  /**
   The step that decides it: when an effective store operation returns, memory comes to see that
   publication exactly if the operation succeeded and its refresh is neither aborted nor superseded.
   */
  lemma MemoryFollows(events: seq<Event>, i: nat, ok: bool)
    requires Run(events).Some? && Enabled(Run(events).value, MutationReturns(i, ok))
    requires Run(events).value.publications[i].phase == Mutating(true)
    ensures var w := Run(events).value; var w' := Apply(w, MutationReturns(i, ok));
            && w'.store == w.store == Persisted(w.publications[i].persist, None) && LastStored(w') == Some(i)
            && (LastSeen(w'.updates, w'.publications) == Some(i) <==> ok && Current(w, w.publications[i]))
  {
    RunKeeps(events);
    RunMirrors(events);
    hide Inv, Mirrored, LastSeen, Run;
    ReturnShows(Run(events).value, i, ok);
  }

  lemma ReturnShows(w: World, i: nat, ok: bool)
    requires Inv(w) && Mirrored(w) && Enabled(w, MutationReturns(i, ok)) && w.publications[i].phase == Mutating(true)
    ensures var w' := Apply(w, MutationReturns(i, ok));
            && w'.store == w.store == Persisted(w.publications[i].persist, None) && LastStored(w') == Some(i)
            && (LastSeen(w'.updates, w'.publications) == Some(i) <==> ok && Current(w, w.publications[i]))
  {
    TurnIsTaken(w, i);
    hide Mirrored, LastSeen, RefreshesSound, StartedSound, StoreSound, PublishedStays, UpdatesOrdered, UpdateSound;
    StepMirrored(w, MutationReturns(i, ok));
    ChangedLast(w, i);
    hide Inv;
    MirrorsAgree(w);
    MirrorsAgree(Apply(w, MutationReturns(i, ok)));
  }

  /** The publication whose operation is under way and has taken effect changed the store last. */
  lemma ChangedLast(w: World, i: nat)
    requires Mirrored(w) && i < |w.publications| && w.publications[i].phase == Mutating(true)
    requires forall k :: i < k < |w.publications| ==> w.publications[k].phase.Waiting?
    ensures LastStored(w) == Some(i)
  {
    assert w.publications[i].persist != Keep;
    assert i in w.changed;
  }

  lemma MirrorsAgree(w: World)
    requires Mirrored(w)
    ensures match LastStored(w)
            case None => LastSeen(w.updates, w.publications) == None
            case Some(i) =>
              i < |w.publications| && (LastSeen(w.updates, w.publications) == Some(i) <==>
                  w.publications[i].phase == Settled(true))
    ensures w.store == match LastStored(w) case None => None case Some(i) => Persisted(w.publications[i].persist, None)
  {
    LastSeenIsLast(w.updates, w.publications);
    hide LastSeen;
    var seen := LastSeen(w.updates, w.publications);
    if seen.Some? { assert seen.value in w.changed; }
    if w.changed != [] {
      var i := w.changed[|w.changed| - 1];
      if w.publications[i].phase == Settled(true) {
        var k :| 0 <= k < |w.updates| && w.updates[k].publication == i;
      }
    }
  }

  /**
   It happens: a provider that is replaced between the write and the update leaves its models in the store
   but not in memory.
   */
  lemma StoreAhead(v: Value) returns (events: seq<Event>)
    ensures Run(events).Some? && Run(events).value.store == Some(v) && Run(events).value.updates == []
    ensures |Run(events).value.publications| == 1 && Run(events).value.publications[0].phase == Settled(false)
  {
    var w1 := Init.(generation := 1, refreshes := map[0 := Refresh(1, false)], controller := Some(0));
    var w2 := w1.(publications := [Publication(0, Write(v), Waiting(None))], chained := true);
    var w3 := w2.(publications := [Publication(0, Write(v), Mutating(false))], started := [0]);
    var w4 := w3.(publications := [Publication(0, Write(v), Mutating(true))], store := Some(v), changed := [0]);
    var w5 := w4.(generation := 2, controller := None, refreshes := map[0 := Refresh(1, true)]);
    var w6 := w5.(publications := [Publication(0, Write(v), Settled(false))]);
    events := [];
    assert Run(events) == Some(Init);
    hide Run;
    Goes(events, Init, RefreshBegins(0), w1);
    events := events + [RefreshBegins(0)];
    Goes(events, w1, Publishes(0, Write(v)), w2);
    events := events + [Publishes(0, Write(v))];
    Goes(events, w2, Wakes(0), w3);
    events := events + [Wakes(0)];
    Goes(events, w3, StoreChanges(0), w4);
    events := events + [StoreChanges(0)];
    Goes(events, w4, Superseded, w5);
    events := events + [Superseded];
    Goes(events, w5, MutationReturns(0, true), w6);
    events := events + [MutationReturns(0, true)];
  }

  /** One more step of a run, which takes `w` to `w'`. */
  lemma Goes(events: seq<Event>, w: World, e: Event, w': World)
    requires Run(events) == Some(w) && Enabled(w, e) && Apply(w, e) == w'
    ensures Run(events + [e]) == Some(w')
  {
    assert (events + [e])[..|events|] == events;
    hide Apply, Enabled;
  }

  // ---------------------------------------------------------------------------
  // The generations of all providers
  // ---------------------------------------------------------------------------

  type ProviderId = string

  /** What one provider's refreshes are arbitrated by. */
  datatype Arbiter = Arbiter(generation: nat, controller: Option<RefreshId>)

  /** The maps over all providers, changed in place, and the controllers aborted so far. */
  class ModelsImpl {
    var providers: set<ProviderId>
    var refreshGenerations: map<ProviderId, nat>
    var refreshControllers: map<ProviderId, RefreshId>
    var aborted: set<RefreshId>

    function Of(id: ProviderId): Arbiter
      reads this
    {
      Arbiter(if id in refreshGenerations then refreshGenerations[id] else 0,
              if id in refreshControllers then Some(refreshControllers[id]) else None)
    }

    constructor ()
      ensures providers == {} && aborted == {} && forall id :: Of(id) == Arbiter(0, None)
    {
      providers, refreshGenerations, refreshControllers, aborted := {}, map[], map[], {};
    }

    /** A new generation begins and the refresh of the old one is aborted; no other provider notices. */
    method SupersedeProviderRefresh(id: ProviderId) returns (generation: nat)
      modifies this`refreshGenerations, this`refreshControllers, this`aborted
      ensures generation == old(Of(id)).generation + 1
      ensures forall other :: Of(other) == if other == id then Arbiter(generation, None) else old(Of(other))
      ensures aborted == old(aborted) + if old(Of(id)).controller.Some? then {old(Of(id)).controller.value} else {}
      ensures refreshControllers.Keys == old(refreshControllers.Keys) - {id}
    {
      generation := (if id in refreshGenerations then refreshGenerations[id] else 0) + 1;
      refreshGenerations := refreshGenerations[id := generation];
      if id in refreshControllers {
        aborted := aborted + {refreshControllers[id]};
        refreshControllers := refreshControllers - {id};
      }
    }

    method BeginProviderRefresh(id: ProviderId, controller: RefreshId) returns (generation: nat)
      modifies this`refreshGenerations, this`refreshControllers, this`aborted
      ensures generation == old(Of(id)).generation + 1
      ensures forall other :: Of(other) == if other == id then Arbiter(generation, Some(controller)) else old(Of(other))
      ensures aborted == old(aborted) + if old(Of(id)).controller.Some? then {old(Of(id)).controller.value} else {}
    {
      generation := SupersedeProviderRefresh(id);
      refreshControllers := refreshControllers[id := controller];
    }

    method SetProvider(id: ProviderId)
      modifies this
      ensures providers == old(providers) + {id}
      ensures forall other :: Of(other) == if other == id then Arbiter(old(Of(id)).generation + 1, None)
        else old(Of(other))
    {
      var _ := SupersedeProviderRefresh(id);
      providers := providers + {id};
    }

    method DeleteProvider(id: ProviderId)
      modifies this
      ensures providers == old(providers) - {id}
      ensures forall other :: Of(other) == if other == id then Arbiter(old(Of(id)).generation + 1, None)
        else old(Of(other))
    {
      var _ := SupersedeProviderRefresh(id);
      providers := providers - {id};
    }

    /** Every known provider and every provider being refreshed starts a new generation, and no refresh goes on. */
    method ClearProviders()
      modifies this
      ensures providers == {} && refreshControllers == map[]
      ensures forall id ::
                Of(id) == if id in old(providers) || id in old(refreshControllers)
                          then Arbiter(old(Of(id)).generation + 1, None) else old(Of(id))
    {
      var ids := providers + refreshControllers.Keys;
      var rest := ids;
      while rest != {}
        invariant rest <= ids && ids == old(providers) + old(refreshControllers.Keys)
        invariant refreshControllers.Keys == old(refreshControllers.Keys) * rest
        invariant forall id :: Of(id) == if id in ids - rest then Arbiter(old(Of(id)).generation + 1, None)
          else old(Of(id))
      {
        var id :| id in rest;
        var _ := SupersedeProviderRefresh(id);
        rest := rest - {id};
      }
      providers := {};
    }
  }
}
