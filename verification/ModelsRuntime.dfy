/** The registry object itself: `ModelsImpl` of `packages/ai/src/models.ts`, with one method per atomic
  segment. Every method performs one step of the protocol and keeps its invariant. */
module ModelsRuntime {
  import opened Wrappers
  import opened ModelsRefresh
  import opened ModelsRefreshProofs

  lemma GenerationsOneMore(state: State, ids: set<ProviderId>, id: ProviderId)
    requires id !in ids
    ensures var some := SupersedeAll(state, ids);
            some.generations[id := Generation(some, id) + 1] == SupersedeAll(state, ids + {id}).generations
  {
    var some, all := SupersedeAll(state, ids), SupersedeAll(state, ids + {id});
    assert Generation(some, id) == Generation(state, id);
    var one := some.generations[id := Generation(some, id) + 1];
    assert one.Keys == all.generations.Keys;
    forall x | x in one ensures one[x] == all.generations[x] {
    }
  }

  lemma AbortsOneMore(controllers: map<ProviderId, nat>, ids: set<ProviderId>, id: ProviderId)
    requires id !in ids
    ensures (controllers - ids) - {id} == controllers - (ids + {id})
    ensures (set x | x in ids + {id} && x in controllers :: controllers[x]) ==
            (set x | x in ids && x in controllers :: controllers[x]) + if id in controllers then {controllers[id]} else {}
  {
    assert (controllers - ids) - {id} == controllers - (ids + {id});
  }

  lemma SupersedeOneMore(state: State, ids: set<ProviderId>, id: ProviderId)
    requires id !in ids
    ensures Supersede(SupersedeAll(state, ids), id) == SupersedeAll(state, ids + {id})
  {
    hide Generation;
    GenerationsOneMore(state, ids, id);
    AbortsOneMore(state.controllers, ids, id);
    var some := SupersedeAll(state, ids);
    assert id in some.controllers <==> id in state.controllers;
    assert id !in some.controllers ==> some.controllers - {id} == some.controllers;
  }

  lemma SupersedeNone(state: State)
    ensures SupersedeAll(state, {}) == state
  {
    var none := SupersedeAll(state, {});
    assert none.generations == state.generations && none.controllers == state.controllers;
    assert none.abortedControllers == state.abortedControllers;
  }

  class ModelsImpl {
    var providers: set<ProviderId>
    var refreshGenerations: map<ProviderId, nat>
    var refreshControllers: map<ProviderId, nat>
    var publicationChains: map<ProviderId, nat>
    var refreshes: seq<Refresh>
    var publications: seq<Publication>
    var abortedControllers: set<nat>
    var abortedCallers: set<nat>
    var store: map<ProviderId, Catalog>
    ghost var effects: seq<Effect>

    ghost function Now(): State
      reads this
    {
      State(providers, refreshGenerations, refreshControllers, publicationChains, refreshes, publications,
            abortedControllers, abortedCallers, store, effects)
    }

    constructor ()
      ensures Now() == INITIAL && Inv(Now())
    {
      providers, refreshGenerations, refreshControllers, publicationChains := {}, map[], map[], map[];
      refreshes, publications, abortedControllers, abortedCallers, store, effects := [], [], {}, {}, map[], [];
    }

    method SupersedeProviderRefresh(id: ProviderId) returns (generation: nat)
      modifies this
      ensures Now() == Supersede(old(Now()), id) && generation == Generation(Now(), id) == Generation(old(Now()), id) + 1
    {
      generation := (if id in refreshGenerations then refreshGenerations[id] else 0) + 1;
      refreshGenerations := refreshGenerations[id := generation];
      if id in refreshControllers {
        var previous := refreshControllers[id];
        refreshControllers := refreshControllers - {id};
        abortedControllers := abortedControllers + {previous};
      }
    }

    method SetProvider(id: ProviderId)
      requires Inv(Now())
      modifies this
      ensures Now() == Step(old(Now()), Action.SetProvider(id)) && Inv(Now())
    {
      hide Inv;
      StepInv(Now(), Action.SetProvider(id));
      var _ := SupersedeProviderRefresh(id);
      providers := providers + {id};
    }

    method DeleteProvider(id: ProviderId)
      requires Inv(Now())
      modifies this
      ensures Now() == Step(old(Now()), Action.DeleteProvider(id)) && Inv(Now())
    {
      hide Inv;
      StepInv(Now(), Action.DeleteProvider(id));
      var _ := SupersedeProviderRefresh(id);
      providers := providers - {id};
    }

    method ClearProviders()
      requires Inv(Now())
      modifies this
      ensures Now() == Step(old(Now()), Action.ClearProviders) && Inv(Now())
    {
      hide Inv, Supersede, SupersedeAll;
      StepInv(Now(), Action.ClearProviders);
      ghost var before := Now();
      ghost var ids := providers + refreshControllers.Keys;
      ghost var done: set<ProviderId> := {};
      var rest := providers + refreshControllers.Keys;
      SupersedeNone(before);
      while rest != {}
        invariant done !! rest && done + rest == ids
        invariant Now() == SupersedeAll(before, done)
        decreases rest
      {
        var id :| id in rest;
        SupersedeOneMore(before, done, id);
        var _ := SupersedeProviderRefresh(id);
        done, rest := done + {id}, rest - {id};
      }
      assert done == ids;
      providers := {};
    }

    /** Starts a refresh of a registered provider; the caller's signal has not been aborted. */
    method BeginProviderRefresh(id: ProviderId, caller: nat) returns (refresh: nat)
      requires Inv(Now()) && id in providers && caller !in abortedCallers
      modifies this
      ensures Now() == Step(old(Now()), BeginRefresh(id, caller)) && Inv(Now())
      ensures refresh < |refreshes| && refreshes[refresh].provider == id && refreshes[refresh].generation == Generation(Now(), id)
    {
      hide Inv;
      StepInv(Now(), BeginRefresh(id, caller));
      var generation := SupersedeProviderRefresh(id);
      refresh := |refreshes|;
      refreshControllers := refreshControllers[id := refresh];
      refreshes := refreshes + [Refresh(id, generation, refresh, caller)];
    }

    method FinishProviderRefresh(refresh: nat)
      requires Inv(Now()) && refresh < |refreshes|
      modifies this
      ensures Now() == Step(old(Now()), FinishRefresh(refresh)) && Inv(Now())
    {
      hide Inv;
      StepInv(Now(), FinishRefresh(refresh));
      var id := refreshes[refresh].provider;
      if id in refreshControllers && refreshControllers[id] == refreshes[refresh].controller {
        refreshControllers := refreshControllers - {id};
      }
    }

    /** Queues a publication at the end of its provider's chain. */
    method PublishProviderModels(refresh: nat, persist: Persist) returns (p: nat)
      requires Inv(Now()) && refresh < |refreshes|
      modifies this
      ensures Now() == Step(old(Now()), PublishModels(refresh, persist)) && Inv(Now())
      ensures p < |publications| && publications[p].stage.Waiting?
    {
      hide Inv;
      StepInv(Now(), PublishModels(refresh, persist));
      var id := refreshes[refresh].provider;
      var previous := if id in publicationChains then Some(publicationChains[id]) else None;
      p := |publications|;
      publications := publications + [Publication(refreshes[refresh], refresh, persist, previous, Waiting)];
      publicationChains := publicationChains[id := p];
    }

    method IsStale(refresh: Refresh) returns (stale: bool)
      ensures stale == Stale(Now(), refresh)
    {
      stale := refresh.controller in abortedControllers || refresh.caller in abortedCallers
               || (if refresh.provider in refreshGenerations then refreshGenerations[refresh.provider] else 0) != refresh.generation;
    }

    /** The second check and the update, in one segment. */
    method ApplyUpdate(p: nat)
      requires p < |publications|
      modifies this
      ensures Now() == Apply(old(Now()), p)
    {
      var stale := IsStale(publications[p].source);
      ghost var seen := Lookup(store, publications[p].source.provider);
      publications := publications[p := publications[p].(stage := Settled(if stale then Skipped else Applied))];
      if !stale {
        effects := effects + [Updated(p, seen)];
      }
    }

    /** The predecessor has settled: first check, then the store mutation or the update. */
    method ResumePublication(p: nat)
      requires Inv(Now()) && Ready(Now(), p)
      modifies this
      ensures Now() == Step(old(Now()), WakeUp(p)) && Inv(Now())
    {
      hide Inv;
      StepInv(Now(), WakeUp(p));
      var stale := IsStale(publications[p].source);
      if stale {
        publications := publications[p := publications[p].(stage := Settled(Skipped))];
      } else if publications[p].persist == Leave {
        ApplyUpdate(p);
      } else {
        publications := publications[p := publications[p].(stage := Storing(false))];
        effects := effects + [StoreStarted(p)];
      }
    }

    /** The store mutation settled, after it took effect or with an error. */
    method StoreMutationSettled(p: nat, ok: bool)
      requires Inv(Now()) && Enabled(Now(), StoreSettles(p, ok))
      modifies this
      ensures Now() == Step(old(Now()), StoreSettles(p, ok)) && Inv(Now())
    {
      hide Inv;
      StepInv(Now(), StoreSettles(p, ok));
      if ok {
        ApplyUpdate(p);
      } else {
        publications := publications[p := publications[p].(stage := Settled(Failed))];
      }
    }
  }
}
