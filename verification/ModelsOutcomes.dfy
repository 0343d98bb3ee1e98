/** What each segment of the refresh protocol brings about, and what becomes of every publication: the
  progress side of the protocol, stated on states before and after (packages/ai/src/models.ts). */
module ModelsOutcomes {
  import opened Wrappers
  import opened ModelsRefresh
  import opened ModelsRefreshProofs

  /** Neither signal of the refresh is aborted, and its generation is the provider's latest. */
  ghost predicate Live(state: State, refresh: Refresh) {
    && refresh.controller !in state.abortedControllers
    && refresh.caller !in state.abortedCallers
    && (if refresh.provider in state.generations then state.generations[refresh.provider] else 0) == refresh.generation
  }

  lemma LiveOrStale(state: State, refresh: Refresh)
    ensures Live(state, refresh) <==> !Stale(state, refresh)
  {
  }

  /** Only this publication and the effects change, the publication only in its stage. */
  ghost predicate OnlyMoves(before: State, after: State, p: nat) {
    && p < |before.publications| == |after.publications|
    && after == before.(publications := after.publications, effects := after.effects)
    && after.publications[p] == before.publications[p].(stage := after.publications[p].stage)
    && forall q :: 0 <= q < |before.publications| && q != p ==> after.publications[q] == before.publications[q]
  }

  // ----- one segment -----

  /** When its turn comes, a live publication updates memory at once or starts its store mutation, and one
    that is no longer live does nothing at all. */
  lemma WakeUpOutcome(state: State, p: nat)
    requires Ready(state, p)
    ensures var after := Step(state, WakeUp(p));
            var publication := state.publications[p];
            && OnlyMoves(state, after, p)
            && (!Live(state, publication.source) ==>
                  after.effects == state.effects && after.publications[p].stage == Settled(Skipped))
            && (Live(state, publication.source) && publication.persist == Leave ==>
                  && after.effects == state.effects + [Updated(p, Lookup(state.store, publication.source.provider))]
                  && after.publications[p].stage == Settled(Applied))
            && (Live(state, publication.source) && publication.persist != Leave ==>
                  after.effects == state.effects + [StoreStarted(p)] && after.publications[p].stage == Storing(false))
  {
  }

  /** The mutation writes the catalog of the publication, or deletes that of its provider, and nothing else. */
  lemma TakeEffectOutcome(state: State, p: nat)
    requires p < |state.publications| && state.publications[p].stage == Storing(false)
    ensures var after := Step(state, TakeEffect(p));
            var publication := state.publications[p];
            && OnlyMoves(state, after.(store := state.store), p)
            && after.effects == state.effects && after.publications[p].stage == Storing(true)
            && (publication.persist.Write? ==> Lookup(after.store, publication.source.provider) == Some(publication.persist.catalog))
            && (!publication.persist.Write? ==> Lookup(after.store, publication.source.provider) == None)
            && forall id :: id != publication.source.provider ==> Lookup(after.store, id) == Lookup(state.store, id)
  {
  }

  /** After its mutation, a live publication updates memory; a failed mutation or a publication that is no
    longer live does not. */
  lemma StoreSettlesOutcome(state: State, p: nat, ok: bool)
    requires p < |state.publications| && state.publications[p].stage.Storing? && (ok ==> state.publications[p].stage.effective)
    ensures var after := Step(state, StoreSettles(p, ok));
            var publication := state.publications[p];
            && OnlyMoves(state, after, p)
            && (ok && Live(state, publication.source) ==>
                  && after.effects == state.effects + [Updated(p, Lookup(state.store, publication.source.provider))]
                  && after.publications[p].stage == Settled(Applied))
            && (ok && !Live(state, publication.source) ==>
                  after.effects == state.effects && after.publications[p].stage == Settled(Skipped))
            && (!ok ==> after.effects == state.effects && after.publications[p].stage == Settled(Failed))
  {
  }

  ghost function GenerationIn(state: State, id: ProviderId): nat {
    if id in state.generations then state.generations[id] else 0
  }

  /** Exactly these providers are superseded: a new generation, and a running refresh aborted. */
  ghost predicate Superseded(before: State, after: State, ids: set<ProviderId>) {
    && (forall id :: GenerationIn(after, id) == GenerationIn(before, id) + if id in ids then 1 else 0)
    && (forall id :: id in after.controllers <==> id in before.controllers && id !in ids)
    && (forall id :: id in after.controllers ==> after.controllers[id] == before.controllers[id])
    && (forall c :: c in after.abortedControllers <==>
          c in before.abortedControllers || exists id :: id in ids && id in before.controllers && before.controllers[id] == c)
  }

  /** Nothing but the registry changes. */
  ghost predicate RegistryOnly(before: State, after: State) {
    after == before.(providers := after.providers, generations := after.generations, controllers := after.controllers,
                     abortedControllers := after.abortedControllers)
  }

  lemma RegistryOutcome(state: State, id: ProviderId)
    ensures var after := Step(state, SetProvider(id));
            RegistryOnly(state, after) && Superseded(state, after, {id}) && after.providers == state.providers + {id}
    ensures var after := Step(state, DeleteProvider(id));
            RegistryOnly(state, after) && Superseded(state, after, {id}) && after.providers == state.providers - {id}
  {
    SupersedeIs(state, id);
  }

  lemma SupersedeIs(state: State, id: ProviderId)
    ensures RegistryOnly(state, Supersede(state, id)) && Superseded(state, Supersede(state, id), {id})
    ensures Supersede(state, id).providers == state.providers
  {
    var after := Supersede(state, id);
    if id in state.controllers {
      assert id in {id} && state.controllers[id] in after.abortedControllers;
    }
  }

  /** Clearing supersedes every registered provider and every running refresh. */
  lemma ClearOutcome(state: State)
    ensures var after := Step(state, ClearProviders);
            && RegistryOnly(state, after) && after.providers == {}
            && Superseded(state, after, state.providers + state.controllers.Keys)
  {
    var ids := state.providers + state.controllers.Keys;
    var after := Step(state, ClearProviders);
    forall id ensures GenerationIn(after, id) == GenerationIn(state, id) + if id in ids then 1 else 0 {
      if id in ids { assert after.generations[id] == Generation(state, id) + 1; }
    }
  }

  /** A refresh begins with a new generation of its provider and a controller of its own. */
  lemma BeginOutcome(state: State, id: ProviderId, caller: nat)
    requires id in state.providers && caller !in state.abortedCallers
    ensures var after := Step(state, BeginRefresh(id, caller));
            && after.providers == state.providers && after.publications == state.publications && after.effects == state.effects
            && after.store == state.store && after.chains == state.chains
            && |after.refreshes| == |state.refreshes| + 1 && state.refreshes <= after.refreshes
            && var refresh := after.refreshes[|state.refreshes|];
            && refresh.provider == id && refresh.caller == caller && refresh.generation == GenerationIn(after, id)
            && GenerationIn(after, id) == GenerationIn(state, id) + 1
            && id in after.controllers && after.controllers[id] == refresh.controller
            && (id in state.controllers ==> state.controllers[id] in after.abortedControllers)
  {
  }

  /** A finished refresh takes its controller away unless a later one has taken its place. */
  lemma FinishOutcome(state: State, refresh: nat)
    requires refresh < |state.refreshes|
    ensures var after := Step(state, FinishRefresh(refresh));
            var id := state.refreshes[refresh].provider;
            && after == state.(controllers := after.controllers)
            && (id in after.controllers <==> id in state.controllers && state.controllers[id] != state.refreshes[refresh].controller)
            && (forall other :: other in after.controllers ==> other in state.controllers && after.controllers[other] == state.controllers[other])
            && (forall other :: other in state.controllers && other != id ==> other in after.controllers)
  {
  }

  /** A publication waits behind the tail of its provider's chain and becomes the tail. */
  lemma PublishOutcome(state: State, refresh: nat, persist: Persist)
    requires refresh < |state.refreshes|
    ensures var after := Step(state, PublishModels(refresh, persist));
            var id := state.refreshes[refresh].provider;
            && after == state.(publications := after.publications, chains := after.chains)
            && |after.publications| == |state.publications| + 1 && state.publications <= after.publications
            && after.publications[|state.publications|] ==
               Publication(state.refreshes[refresh], refresh, persist, if id in state.chains then Some(state.chains[id]) else None, Waiting)
            && id in after.chains && after.chains[id] == |state.publications|
            && (forall other :: other != id ==> (other in after.chains <==> other in state.chains))
            && (forall other :: other != id && other in after.chains ==> after.chains[other] == state.chains[other])
  {
  }

  lemma AbortAndTidyOutcome(state: State, caller: nat, p: nat)
    ensures Step(state, AbortCaller(caller)) == state.(abortedCallers := state.abortedCallers + {caller})
    ensures p < |state.publications| && state.publications[p].stage.Settled? ==>
              var after := Step(state, TidyChain(p));
              && after == state.(chains := after.chains)
              && (forall id :: id in after.chains <==>
                    id in state.chains && !(id == state.publications[p].source.provider && state.chains[id] == p))
              && (forall id :: id in after.chains ==> after.chains[id] == state.chains[id])
  {
  }

  // ----- every publication is accounted for -----

  ghost predicate Accounts(state: State, p: nat)
    requires p < |state.publications|
  {
    var publication := state.publications[p];
    && (publication.stage == Settled(Applied) <==> exists e :: 0 <= e < |state.effects| && state.effects[e].Updated? && state.effects[e].publication == p)
    && (publication.stage == Settled(Skipped) ==> Stale(state, publication.source))
    && (publication.stage == Settled(Failed) ==> publication.persist != Leave)
    && (publication.stage.Waiting? ==> forall e :: 0 <= e < |state.effects| ==> state.effects[e].publication != p)
    && ((publication.stage.Storing? || (publication.stage == Settled(Applied) && publication.persist != Leave)) ==>
          exists e :: 0 <= e < |state.effects| && state.effects[e] == StoreStarted(p))
  }

  ghost predicate Accounted(state: State) {
    && (forall p :: 0 <= p < |state.publications| ==> Accounts(state, p))
    && (forall i, j :: 0 <= i < j < |state.effects| && state.effects[i].publication == state.effects[j].publication ==>
          state.effects[i].StoreStarted? && state.effects[j].Updated?)
  }

  lemma AbortsGrow(state: State, action: Action)
    ensures state.abortedControllers <= Step(state, action).abortedControllers
    ensures state.abortedCallers <= Step(state, action).abortedCallers
  {
    hide Ready, Stale, Lookup, Generation;
  }

  /** A refresh that is no longer live never becomes so again. */
  lemma StaleStays(state: State, action: Action, r: nat)
    requires Inv(state) && r < |state.refreshes| && Stale(state, state.refreshes[r])
    ensures Stale(Step(state, action), state.refreshes[r])
  {
    hide Step, Queues;
    AbortsGrow(state, action);
    StepLater(state, action);
    var refresh := state.refreshes[r];
    assert Generation(state, refresh.provider) <= Generation(Step(state, action), refresh.provider);
  }

  /** Steps that neither move a publication nor have an effect. */
  lemma QuietAccounted(before: State, action: Action)
    requires Inv(before) && Accounted(before)
    requires var after := Step(before, action);
             after.effects == before.effects && before.publications <= after.publications
             && forall p :: |before.publications| <= p < |after.publications| ==> after.publications[p].stage.Waiting?
    ensures Accounted(Step(before, action))
  {
    hide Step, Queues, Stale;
    var after := Step(before, action);
    forall p | 0 <= p < |after.publications| ensures Accounts(after, p) {
      if p < |before.publications| {
        assert Accounts(before, p) && after.publications[p] == before.publications[p];
        if before.publications[p].stage == Settled(Skipped) { StaleStays(before, action, before.publications[p].refresh); }
      }
    }
  }

  /** The ways in which a publication moves on, each with its effect. */
  ghost predicate MovesOn(before: State, after: State, p: nat)
    requires p < |before.publications| && p < |after.publications|
  {
    var publication, next := before.publications[p], after.publications[p].stage;
    || (after.effects == before.effects && next == Settled(Skipped) && !publication.stage.Settled? && Stale(before, publication.source))
    || (after.effects == before.effects && (next == Settled(Failed) || next.Storing?) && publication.stage.Storing?)
    || (after.effects == before.effects + [StoreStarted(p)] && next.Storing? && publication.stage.Waiting? && publication.persist != Leave)
    || (&& next == Settled(Applied) && (publication.stage.Storing? || (publication.stage.Waiting? && publication.persist == Leave))
        && exists seen :: after.effects == before.effects + [Updated(p, seen)])
  }

  lemma MoveAccounted(before: State, after: State, p: nat)
    requires Inv(before) && Accounted(before) && OnlyMoves(before, after.(store := before.store), p) && MovesOn(before, after, p)
    ensures Accounted(after)
  {
    hide Serialized, Chained, Tailed, Current, Stored;
    assert Accounts(before, p);
    forall q | 0 <= q < |after.publications| ensures Accounts(after, q) {
      assert Accounts(before, q);
      SameStaleness(before, after, before.publications[q].source);
      if q == p { AccountsMoved(before, after, p); } else { AccountsOther(before, after, p, q); }
    }
    forall i, j | 0 <= i < j < |after.effects| && after.effects[i].publication == after.effects[j].publication
      ensures after.effects[i].StoreStarted? && after.effects[j].Updated?
    {
      assert after.effects[i] == before.effects[i];
    }
  }

  lemma SameStaleness(before: State, after: State, refresh: Refresh)
    requires after.abortedControllers == before.abortedControllers && after.abortedCallers == before.abortedCallers
    requires after.generations == before.generations
    ensures Stale(before, refresh) <==> Stale(after, refresh)
  {
  }

  lemma AccountsOther(before: State, after: State, p: nat, q: nat)
    requires p < |before.publications| == |after.publications| && q < |before.publications| && q != p
    requires MovesOn(before, after, p) && Accounts(before, q)
    requires after.publications[q] == before.publications[q]
    requires Stale(before, before.publications[q].source) <==> Stale(after, before.publications[q].source)
    ensures Accounts(after, q)
  {
    hide Stale;
    assert forall e :: 0 <= e < |before.effects| ==> after.effects[e] == before.effects[e];
    assert forall e :: |before.effects| <= e < |after.effects| ==> after.effects[e].publication == p;
  }

  lemma AccountsMoved(before: State, after: State, p: nat)
    requires p < |before.publications| == |after.publications|
    requires MovesOn(before, after, p) && Accounts(before, p)
    requires after.publications[p] == before.publications[p].(stage := after.publications[p].stage)
    requires Stale(before, before.publications[p].source) <==> Stale(after, before.publications[p].source)
    requires before.publications[p].stage.Storing? ==> before.publications[p].persist != Leave
    ensures Accounts(after, p)
  {
    hide Stale;
    assert forall e :: 0 <= e < |before.effects| ==> after.effects[e] == before.effects[e];
    if |after.effects| > |before.effects| {
      assert after.effects[|before.effects|].publication == p;
    }
  }

  lemma StepAccounted(state: State, action: Action)
    requires Inv(state) && Accounted(state)
    ensures Accounted(Step(state, action))
  {
    hide Inv, Accounted, Step, Live, Stale;
    var after := Step(state, action);
    match action {
      case WakeUp(p) =>
        if Ready(state, p) {
          WakeUpOutcome(state, p);
          LiveOrStale(state, state.publications[p].source);
          MoveAccounted(state, after, p);
        } else {
          NotEnabled(state, action);
        }
      case TakeEffect(p) =>
        if Enabled(state, action) {
          TakeEffectOutcome(state, p);
          MoveAccounted(state, after, p);
        } else {
          NotEnabled(state, action);
        }
      case StoreSettles(p, ok) =>
        if Enabled(state, action) {
          StoreSettlesOutcome(state, p, ok);
          LiveOrStale(state, state.publications[p].source);
          MoveAccounted(state, after, p);
        } else {
          NotEnabled(state, action);
        }
      case _ =>
        OthersQuiet(state, action);
        QuietAccounted(state, action);
    }
  }

  lemma NotEnabled(state: State, action: Action)
    requires !Enabled(state, action)
    ensures Step(state, action) == state
  {
  }

  lemma OthersQuiet(state: State, action: Action)
    requires !action.WakeUp? && !action.TakeEffect? && !action.StoreSettles?
    ensures var after := Step(state, action);
            && after.effects == state.effects && state.publications <= after.publications
            && forall p :: |state.publications| <= p < |after.publications| ==> after.publications[p].stage.Waiting?
  {
  }

  lemma {:induction false} ReachesAccounted(from: State, actions: seq<Action>, to: State)
    requires Inv(from) && Accounted(from) && Reaches(from, actions, to)
    ensures Inv(to) && Accounted(to)
    decreases actions
  {
    hide Step, Accounted, Inv;
    if actions != [] {
      StepInv(from, actions[0]);
      StepAccounted(from, actions[0]);
      ReachesAccounted(Step(from, actions[0]), actions[1..], to);
    }
  }

  /**
   * In every interleaving, what became of a publication is visible in the
   * effects: it is applied exactly when its update ran, which it does at most
   * once and after its own mutation started; it is skipped only when its
   * refresh is no longer live; and it fails only in the store.  So a
   * publication whose refresh is still live when it settles, and whose store
   * does not fail, has updated memory, with its own catalog in the store.
   */
  lemma EveryPublicationAccounted(actions: seq<Action>, state: State, p: nat)
    requires Reaches(INITIAL, actions, state) && p < |state.publications|
    ensures Accounted(state)
    ensures var publication := state.publications[p];
            publication.stage.Settled? && Live(state, publication.source) && publication.stage != Settled(Failed) ==>
              && publication.stage == Settled(Applied)
              && exists e :: 0 <= e < |state.effects| && state.effects[e].Updated? && state.effects[e].publication == p
                   && Matches(state.effects[e].seen, publication.persist)
  {
    hide Accounted, Reaches;
    InitialInv();
    assert Accounted(INITIAL) by { NothingToAccount(); }
    ReachesAccounted(INITIAL, actions, state);
    ReachableInOrder(actions, state);
    Accounting(state, p);
    LiveOrStale(state, state.publications[p].source);
    var publication := state.publications[p];
    if publication.stage.Settled? && Live(state, publication.source) && publication.stage != Settled(Failed) {
      assert publication.stage == Settled(publication.stage.verdict);
      assert publication.stage.verdict.Applied?;
    }
  }

  lemma NothingToAccount()
    ensures Accounted(INITIAL)
  {
  }

  lemma Accounting(state: State, p: nat)
    requires Accounted(state) && p < |state.publications|
    ensures Accounts(state, p)
  {
  }

  /** Nothing in the way: a live publication that is next in its chain and whose store works ends applied,
    with the store as it asked. */
  lemma UndisturbedApplies(state: State, p: nat)
    requires Inv(state) && Ready(state, p) && Live(state, state.publications[p].source)
    ensures var publication := state.publications[p];
            var end := if publication.persist == Leave then Step(state, WakeUp(p))
                       else Step(Step(Step(state, WakeUp(p)), TakeEffect(p)), StoreSettles(p, true));
            && p < |end.publications| && end.publications[p].stage == Settled(Applied)
            && |end.effects| > |state.effects| && state.effects <= end.effects
            && end.effects[|end.effects| - 1].Updated? && end.effects[|end.effects| - 1].publication == p
            && Stored(end.store, publication.source.provider, publication.persist)
  {
    hide Step, Inv, Ready, Live;
    WakeUpOutcome(state, p);
    if state.publications[p].persist != Leave {
      var one := Step(state, WakeUp(p));
      TakeEffectOutcome(one, p);
      var two := Step(one, TakeEffect(p));
      SameLiveness(state, two, state.publications[p].source);
      StoreSettlesOutcome(two, p, true);
    }
  }

  lemma SameLiveness(before: State, after: State, refresh: Refresh)
    requires after.abortedControllers == before.abortedControllers && after.abortedCallers == before.abortedCallers
    requires after.generations == before.generations
    ensures Live(before, refresh) <==> Live(after, refresh)
  {
  }
}
