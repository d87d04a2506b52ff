/**
 What the steps of a publication bring about, in every reachable state: when its turn comes, whether memory
 and the store see it, and which refresh is current, told from the events alone.
 */
module PublicationOutcomes {
  import opened Wrappers
  import opened Publication

  /** A step of a run. */
  ghost predicate Steps(events: seq<Event>, w: World, e: Event, w': World) {
    Run(events) == Some(w) && Enabled(w, e) && Run(events + [e]) == Some(w')
  }

  lemma StepIs(events: seq<Event>, w: World, e: Event, w': World)
    requires Steps(events, w, e, w')
    ensures Inv(w) && Ranked(events, w) && w' == Apply(w, e)
  {
    hide Inv, Enabled, Apply, Ranked;
    RunKeeps(events);
    RunRanked(events);
    assert (events + [e])[..|events|] == events;
  }

  // ---------------------------------------------------------------------------
  // Which refresh is current
  // ---------------------------------------------------------------------------

  /** The refresh that began last, unless the provider has been replaced since. */
  function Latest(events: seq<Event>): Option<RefreshId> {
    if events == [] then None
    else match events[|events| - 1]
      case RefreshBegins(r) => Some(r)
      case Superseded => None
      case _ => Latest(events[..|events| - 1])
  }

  /** No other refresh has begun since, the provider was not replaced, and the caller has not aborted it. */
  predicate Stands(events: seq<Event>, r: RefreshId) { Latest(events) == Some(r) && CallerAborts(r) !in events }

  /** A refresh is of the current generation exactly if it is the latest, which only its caller aborts. */
  ghost predicate Ranked(events: seq<Event>, w: World) {
    && (forall r :: r in w.refreshes ==>
          && w.refreshes[r].generation <= w.generation
          && (w.refreshes[r].generation == w.generation <==> Latest(events) == Some(r))
          && (Latest(events) == Some(r) ==> (w.refreshes[r].aborted <==> CallerAborts(r) in events)))
    && (forall r :: CallerAborts(r) in events ==> r in w.refreshes)
    && (Latest(events).Some? ==> Latest(events).value in w.refreshes)
    && (w.controller.Some? ==> w.controller == Latest(events))
  }

  lemma {:induction false} RunRanked(events: seq<Event>)
    requires Run(events).Some?
    ensures Ranked(events, Run(events).value)
    decreases |events|
  {
    if events != [] {
      hide Apply, Enabled, Ranked;
      var front, e := events[..|events| - 1], events[|events| - 1];
      RunRanked(front);
      StepRanked(front, Run(front).value, e);
      assert front + [e] == events;
    }
  }

  lemma StepRanked(events: seq<Event>, w: World, e: Event)
    requires Ranked(events, w) && Enabled(w, e)
    ensures Ranked(events + [e], Apply(w, e))
  {
    assert forall r :: CallerAborts(r) in events + [e] <==> CallerAborts(r) in events || e == CallerAborts(r);
    LatestOn(events, e);
    hide Finish, Wake, Latest;
    match e {
      case Wakes(i) => WakeLeaves(w, i);
      case MutationReturns(i, ok) => FinishLeaves(w, i);
      case _ =>
    }
  }

  lemma LatestOn(events: seq<Event>, e: Event)
    ensures Latest(events + [e]) == match e
              case RefreshBegins(r) => Some(r)
              case Superseded => None
              case _ => Latest(events)
  {
    assert (events + [e])[..|events|] == events;
  }

  lemma WakeLeaves(w: World, i: nat)
    requires i < |w.publications| && w.publications[i].refresh in w.refreshes
    ensures var w' := Wake(w, i);
            w'.refreshes == w.refreshes && w'.generation == w.generation && w'.controller == w.controller
  {
  }

  lemma FinishLeaves(w: World, i: nat)
    requires i < |w.publications| && w.publications[i].refresh in w.refreshes
    ensures var w' := Finish(w, i);
            w'.refreshes == w.refreshes && w'.generation == w.generation && w'.controller == w.controller
  {
  }

  /** What publish checks twice, told from the events alone. */
  lemma CurrentExactly(events: seq<Event>, i: nat)
    requires Run(events).Some? && i < |Run(events).value.publications|
    ensures var w := Run(events).value; Current(w, w.publications[i]) <==> Stands(events, w.publications[i].refresh)
  {
    RunKeeps(events);
    RunRanked(events);
  }

  // ---------------------------------------------------------------------------
  // What becomes of a publication
  // ---------------------------------------------------------------------------

  /** Its turn has come exactly if it waits and all queued before it have settled: none waits for ever. */
  lemma TurnComes(events: seq<Event>, w: World, i: nat)
    requires Run(events) == Some(w)
    ensures Enabled(w, Wakes(i)) <==>
            && i < |w.publications| && w.publications[i].phase.Waiting?
            && forall k :: 0 <= k < i ==> w.publications[k].phase.Settled?
  {
    hide Run, InOrder;
    RunKeeps(events);
    hide StartedSound, StoreSound, PublishedStays, UpdateSound, UpdatesOrdered;
    if i < |w.publications| && w.publications[i].phase.Waiting? {
      if Enabled(w, Wakes(i)) { TurnIsTaken(w, i); }
      if w.publications[i].phase.after.Some? { InTurn(w.publications, w.chained, i); }
    }
  }

  /** Once all before it have settled, so has the one it waits for. */
  lemma InTurn(publications: seq<Publication>, chained: bool, i: nat)
    requires InOrder(publications, chained) && i < |publications| && publications[i].phase.Waiting?
    requires publications[i].phase.after.Some?
    ensures i > 0 && publications[i].phase.after == Some(i - 1)
  {
    assert WaitsItsTurn(publications, i);
  }

  /** A publication is queued behind the others. */
  lemma QueueOutcome(events: seq<Event>, w: World, r: RefreshId, persist: Persist, w': World)
    requires Steps(events, w, Publishes(r, persist), w')
    ensures |w'.publications| == |w.publications| + 1 && w'.publications[..|w.publications|] == w.publications
    ensures var p := w'.publications[|w.publications|]; p.refresh == r && p.persist == persist && p.phase.Waiting?
    ensures w'.store == w.store && w'.updates == w.updates && w'.started == w.started
  {
    hide Inv, Ranked, Run;
    StepIs(events, w, Publishes(r, persist), w');
  }

  /**
   When its turn comes: a publication that keeps the store as it is reaches memory, once and at once, exactly
   if its refresh still stands; for any other a store operation begins exactly then. Otherwise it settles as
   not published, and neither memory nor the store sees it.
   */
  lemma WakeOutcome(events: seq<Event>, w: World, i: nat, w': World)
    requires Steps(events, w, Wakes(i), w')
    ensures i < |w.publications| && |w'.publications| == |w.publications|
    ensures var p, stands := w.publications[i], Stands(events, w.publications[i].refresh);
            && |w'.updates| == |w.updates| + (if p.persist == Keep && stands then 1 else 0)
            && w'.updates[..|w.updates|] == w.updates
            && (p.persist == Keep && stands ==> w'.updates[|w.updates|].publication == i)
            && w'.started == w.started + (if p.persist != Keep && stands then [i] else [])
            && w'.publications[i].phase == (if p.persist != Keep && stands then Mutating(false) else Settled(stands))
            && w'.store == w.store && w'.changed == w.changed
  {
    hide Inv, Ranked, Stands, Run;
    StepIs(events, w, Wakes(i), w');
    CurrentExactly(events, i);
    hide Steps;
  }

  /** A store operation that takes effect leaves the store with what was to be written, or empty. */
  lemma StoreOutcome(events: seq<Event>, w: World, i: nat, w': World)
    requires Steps(events, w, StoreChanges(i), w')
    ensures i < |w.publications| && w'.changed == w.changed + [i] && w'.updates == w.updates
    ensures match w.publications[i].persist
            case Keep => false
            case Delete => w'.store == None
            case Write(v) => w'.store == Some(v)
  {
    hide Inv, Ranked, Mirrored, Run;
    StepIs(events, w, StoreChanges(i), w');
    RunMirrors(events);
    MutatesSomething(w, i);
  }

  lemma MutatesSomething(w: World, i: nat)
    requires Mirrored(w) && i < |w.publications| && w.publications[i].phase.Mutating?
    ensures w.publications[i].persist != Keep
  {
  }

  /**
   A store operation that returns: the publication reaches memory, once and at once, exactly if the operation
   succeeded and its refresh still stands, which is what publish answers.
   */
  lemma ReturnOutcome(events: seq<Event>, w: World, i: nat, ok: bool, w': World)
    requires Steps(events, w, MutationReturns(i, ok), w')
    ensures i < |w.publications| && |w'.publications| == |w.publications|
    ensures var published := ok && Stands(events, w.publications[i].refresh);
            && w'.publications[i].phase == Settled(published)
            && |w'.updates| == |w.updates| + (if published then 1 else 0) && w'.updates[..|w.updates|] == w.updates
            && (published ==> w'.updates[|w.updates|].publication == i)
            && w'.store == w.store && w'.started == w.started
  {
    hide Inv, Ranked, Stands, Run;
    StepIs(events, w, MutationReturns(i, ok), w');
    CurrentExactly(events, i);
    hide Steps;
  }

  /** A refresh that begins stands, and none that began before stands ever again. */
  lemma {:induction false} LatestOnly(events: seq<Event>, r: RefreshId, more: seq<Event>, q: RefreshId)
    requires Run(events + [RefreshBegins(r)] + more).Some? && Run(events).Some? && q in Run(events).value.refreshes
    ensures Stands(events + [RefreshBegins(r)], r) && !Stands(events + [RefreshBegins(r)] + more, q)
    ensures q in Run(events + [RefreshBegins(r)] + more).value.refreshes
    decreases |more|
  {
    var first := events + [RefreshBegins(r)];
    if more == [] {
      assert first + more == first && first[..|events|] == events;
      FirstStands(events, r, q);
      hide Stands;
    } else {
      hide Stands;
      hide Apply, Enabled;
      var front, e := more[..|more| - 1], more[|more| - 1];
      assert first + more == (first + front) + [e];
      LastStep(first + front, e, first + more);
      hide Run;
      LatestOnly(events, r, front, q);
      RefreshStays(Run(first + front).value, e, q);
      Later1(first + front, e, q);
    }
  }

  lemma LastStep(front: seq<Event>, e: Event, events: seq<Event>)
    requires events == front + [e] && Run(events).Some?
    ensures Run(front).Some? && Enabled(Run(front).value, e) && Run(events) == Some(Apply(Run(front).value, e))
  {
    assert events[..|events| - 1] == front;
    hide Apply, Enabled;
  }

  lemma FirstStands(events: seq<Event>, r: RefreshId, q: RefreshId)
    requires Run(events + [RefreshBegins(r)]).Some? && Run(events).Some? && q in Run(events).value.refreshes
    ensures Stands(events + [RefreshBegins(r)], r) && !Stands(events + [RefreshBegins(r)], q)
    ensures q in Run(events + [RefreshBegins(r)]).value.refreshes
  {
    assert (events + [RefreshBegins(r)])[..|events|] == events;
    RunRanked(events);
    hide Latest;
    assert r !in Run(events).value.refreshes;
    LatestOn(events, RefreshBegins(r));
  }

  lemma RefreshStays(w: World, e: Event, q: RefreshId)
    requires Enabled(w, e) && q in w.refreshes
    ensures q in Apply(w, e).refreshes && e != RefreshBegins(q)
  {
    hide Finish, Wake;
    match e {
      case Wakes(i) => WakeLeaves(w, i);
      case MutationReturns(i, ok) => FinishLeaves(w, i);
      case _ =>
    }
  }

  lemma Later1(events: seq<Event>, e: Event, q: RefreshId)
    requires !Stands(events, q) && e != RefreshBegins(q)
    ensures !Stands(events + [e], q)
  {
    assert (events + [e])[..|events|] == events;
    assert CallerAborts(q) in events ==> CallerAborts(q) in events + [e];
  }
}
