/** Safety of the catalog refresh protocol in every interleaving. */
module ModelsRefreshProofs {
  import opened Wrappers
  import opened ModelsRefresh

  lemma InitialInv()
    ensures Inv(INITIAL)
  {
  }

  // ----- every segment keeps the invariant -----

  lemma SupersedeRetires(state: State, id: ProviderId)
    requires Inv(state)
    ensures forall r :: 0 <= r < |state.refreshes| && state.refreshes[r].provider == id ==>
              state.refreshes[r].generation < Generation(Supersede(state, id), id)
    ensures forall other :: other != id ==> Generation(Supersede(state, id), other) == Generation(state, other)
  {
    hide Queues;
  }

  lemma SupersedeStep(state: State, id: ProviderId, providers: set<ProviderId>)
    requires Inv(state) && forall other :: other != id ==> (other in providers <==> other in state.providers)
    ensures Inv(Supersede(state, id).(providers := providers))
  {
    hide Queues;
    SupersedeRetires(state, id);
  }

  lemma ClearGenerations(state: State)
    requires Inv(state)
    ensures var after := SupersedeAll(state, state.providers + state.controllers.Keys);
            && (forall r :: 0 <= r < |state.refreshes| ==> state.refreshes[r].generation < Generation(after, state.refreshes[r].provider))
            && (forall id :: Generation(state, id) <= Generation(after, id))
  {
    hide Queues;
    var ids := state.providers + state.controllers.Keys;
    var after := SupersedeAll(state, ids);
    forall id
      ensures Generation(after, id) == Generation(state, id) + if id in ids then 1 else 0
    {
    }
  }

  lemma ClearKeeps(state: State)
    ensures var after := SupersedeAll(state, state.providers + state.controllers.Keys);
            after.refreshes == state.refreshes && after.effects == state.effects && after.publications == state.publications
  {
  }

  lemma ClearStep(state: State)
    requires Inv(state)
    ensures Inv(SupersedeAll(state, state.providers + state.controllers.Keys).(providers := {}))
  {
    hide Queues;
    ClearGenerations(state);
  }

  lemma BeginStep(state: State, id: ProviderId, caller: nat)
    requires Inv(state) && id in state.providers
    ensures Inv(Begin(state, id, caller))
  {
    hide Queues;
    SupersedeRetires(state, id);
  }

  /** A new publication goes to the end of its provider's chain. */
  lemma AppendQueues(pubs: Publications, chains: map<ProviderId, nat>, store: map<ProviderId, Catalog>, next: Publication)
    requires Queues(pubs, chains, store) && next.stage.Waiting?
    requires next.previous == if next.source.provider in chains then Some(chains[next.source.provider]) else None
    ensures Queues(pubs + [next], chains[next.source.provider := |pubs|], store)
  {
    var all := pubs + [next];
    forall q | 0 <= q < |all| ensures Linked(all, q) {
      if q < |pubs| {
        assert Linked(pubs, q);
      }
    }
  }

  lemma PublishStep(state: State, refresh: nat, persist: Persist)
    requires Inv(state) && refresh < |state.refreshes|
    ensures Inv(Publish(state, refresh, persist))
  {
    hide Queues;
    var after := Publish(state, refresh, persist);
    AppendQueues(state.publications, state.chains, state.store, after.publications[|state.publications|]);
  }

  /** Every earlier publication of the same provider has settled. */
  ghost predicate Foremost(pubs: Publications, p: nat)
    requires p < |pubs|
  {
    forall q :: 0 <= q < p && pubs[q].source.provider == pubs[p].source.provider ==> pubs[q].stage.Settled?
  }

  lemma AdvanceSerialized(pubs: Publications, p: nat, stage: Stage)
    requires p < |pubs| && Serialized(pubs) && Foremost(pubs, p) && !stage.Waiting? && !pubs[p].stage.Settled?
    ensures Serialized(pubs[p := pubs[p].(stage := stage)])
  {
  }

  lemma AdvanceChained(pubs: Publications, p: nat, stage: Stage)
    requires p < |pubs| && Chained(pubs) && !pubs[p].stage.Settled?
    ensures Chained(pubs[p := pubs[p].(stage := stage)])
  {
    var after := pubs[p := pubs[p].(stage := stage)];
    forall q | 0 <= q < |after| ensures Linked(after, q) {
      assert Linked(pubs, q);
    }
  }

  lemma AdvancePersisted(pubs: Publications, p: nat, stage: Stage, store: map<ProviderId, Catalog>, store': map<ProviderId, Catalog>)
    requires p < |pubs| && Serialized(pubs) && Persisted(pubs, store) && Foremost(pubs, p) && !pubs[p].stage.Settled?
    requires forall id :: id != pubs[p].source.provider ==> Lookup(store', id) == Lookup(store, id)
    requires stage.Storing? ==> pubs[p].persist != Leave && (stage.effective ==> Stored(store', pubs[p].source.provider, pubs[p].persist))
    ensures Persisted(pubs[p := pubs[p].(stage := stage)], store')
  {
    var after := pubs[p := pubs[p].(stage := stage)];
    forall q | 0 <= q < |after| && after[q].stage.Storing?
      ensures after[q].persist != Leave && (after[q].stage.effective ==> Stored(store', after[q].source.provider, after[q].persist))
    {
      if q != p {
        assert pubs[q].source.provider != pubs[p].source.provider;
      }
    }
  }

  /** The foremost unsettled publication of a provider moves forward. */
  lemma AdvanceQueues(pubs: Publications, chains: map<ProviderId, nat>, p: nat, stage: Stage,
                      store: map<ProviderId, Catalog>, store': map<ProviderId, Catalog>)
    requires p < |pubs| && Queues(pubs, chains, store) && Foremost(pubs, p) && !stage.Waiting? && !pubs[p].stage.Settled?
    requires forall id :: id != pubs[p].source.provider ==> Lookup(store', id) == Lookup(store, id)
    requires stage.Storing? ==> pubs[p].persist != Leave && (stage.effective ==> Stored(store', pubs[p].source.provider, pubs[p].persist))
    ensures Queues(pubs[p := pubs[p].(stage := stage)], chains, store')
  {
    hide Serialized, Chained, Persisted;
    AdvanceSerialized(pubs, p, stage);
    AdvanceChained(pubs, p, stage);
    AdvancePersisted(pubs, p, stage, store, store');
  }

  /** A ready publication is the foremost of its provider. */
  lemma ReadyIsForemost(state: State, p: nat)
    requires Inv(state) && Ready(state, p)
    ensures Foremost(state.publications, p)
  {
    var pubs := state.publications;
    assert Linked(pubs, p);
  }

  lemma StoringIsForemost(state: State, p: nat)
    requires Inv(state) && p < |state.publications| && state.publications[p].stage.Storing?
    ensures Foremost(state.publications, p) && state.publications[p].persist != Leave
  {
  }

  lemma AdvanceInv(state: State, p: nat, stage: Stage, store: map<ProviderId, Catalog>, effects: seq<Effect>)
    requires Inv(state) && p < |state.publications| && Foremost(state.publications, p) && !stage.Waiting? && !state.publications[p].stage.Settled?
    requires forall id :: id != state.publications[p].source.provider ==> Lookup(store, id) == Lookup(state.store, id)
    requires stage.Storing? ==>
               state.publications[p].persist != Leave
               && (stage.effective ==> Stored(store, state.publications[p].source.provider, state.publications[p].persist))
    requires effects == state.effects || exists e :: effects == state.effects + [e] && e.publication == p
    ensures Inv(Advance(state, p, stage).(store := store, effects := effects))
  {
    hide Queues, Foremost, Stored;
    AdvanceQueues(state.publications, state.chains, p, stage, state.store, store);
  }

  lemma ApplyStep(state: State, p: nat)
    requires Inv(state) && p < |state.publications| && !state.publications[p].stage.Settled? && Foremost(state.publications, p)
    ensures Inv(Apply(state, p))
  {
    hide Inv, Foremost;
    if Stale(state, state.publications[p].source) {
      AdvanceInv(state, p, Settled(Skipped), state.store, state.effects);
    } else {
      var e := Updated(p, Lookup(state.store, state.publications[p].source.provider));
      AdvanceInv(state, p, Settled(Applied), state.store, state.effects + [e]);
    }
  }

  lemma WakeStep(state: State, p: nat)
    requires Inv(state) && Ready(state, p)
    ensures Inv(Wake(state, p))
  {
    hide Inv, Foremost, Apply;
    ReadyIsForemost(state, p);
    if Stale(state, state.publications[p].source) {
      AdvanceInv(state, p, Settled(Skipped), state.store, state.effects);
    } else if state.publications[p].persist == Leave {
      ApplyStep(state, p);
    } else {
      AdvanceInv(state, p, Storing(false), state.store, state.effects + [StoreStarted(p)]);
    }
  }

  lemma StoreEffectStep(state: State, p: nat)
    requires Inv(state) && p < |state.publications| && state.publications[p].stage.Storing?
    ensures Inv(StoreEffect(state, p))
  {
    hide Inv, Foremost;
    StoringIsForemost(state, p);
    AdvanceInv(state, p, Storing(true), StoreEffect(state, p).store, state.effects);
  }

  lemma StoreSettlesStep(state: State, p: nat, ok: bool)
    requires Inv(state) && p < |state.publications| && state.publications[p].stage.Storing?
    ensures Inv(if ok then Apply(state, p) else Advance(state, p, Settled(Failed)))
  {
    hide Inv, Foremost, Apply;
    StoringIsForemost(state, p);
    if ok {
      ApplyStep(state, p);
    } else {
      AdvanceInv(state, p, Settled(Failed), state.store, state.effects);
    }
  }

  lemma TidyTailed(pubs: Publications, chains: map<ProviderId, nat>, p: nat)
    requires Tailed(pubs, chains) && Serialized(pubs) && p < |pubs| && pubs[p].stage.Settled?
    requires pubs[p].source.provider in chains && chains[pubs[p].source.provider] == p
    ensures Tailed(pubs, chains - {pubs[p].source.provider})
  {
    forall q | 0 <= q < |pubs| && pubs[q].source.provider == pubs[p].source.provider
      ensures pubs[q].stage.Settled?
    {
      assert q <= p;
    }
  }

  lemma TidyStep(state: State, p: nat)
    requires Inv(state) && p < |state.publications| && state.publications[p].stage.Settled?
    ensures Inv(Step(state, TidyChain(p)))
  {
    hide Tailed, Serialized, Chained, Persisted;
    var id := state.publications[p].source.provider;
    if id in state.chains && state.chains[id] == p {
      TidyTailed(state.publications, state.chains, p);
    }
  }

  lemma StepInv(state: State, action: Action)
    requires Inv(state)
    ensures Inv(Step(state, action))
  {
    hide Inv, Supersede, SupersedeAll, Begin, Publish, Wake, StoreEffect, Apply, Advance;
    if Enabled(state, action) {
      match action {
        case SetProvider(id) => SupersedeStep(state, id, state.providers + {id});
        case DeleteProvider(id) => SupersedeStep(state, id, state.providers - {id});
        case ClearProviders => ClearStep(state);
        case BeginRefresh(id, caller) => BeginStep(state, id, caller);
        case FinishRefresh(refresh) => FinishStep(state, refresh);
        case AbortCaller(caller) => AbortStep(state, caller);
        case PublishModels(refresh, persist) => PublishStep(state, refresh, persist);
        case WakeUp(p) => WakeStep(state, p);
        case TakeEffect(p) => StoreEffectStep(state, p);
        case StoreSettles(p, ok) => StoreSettlesStep(state, p, ok);
        case TidyChain(p) => TidyStep(state, p);
      }
    }
  }

  lemma FinishStep(state: State, refresh: nat)
    requires Inv(state) && refresh < |state.refreshes|
    ensures Inv(Finish(state, refresh))
  {
    hide Queues;
  }

  lemma AbortStep(state: State, caller: nat)
    requires Inv(state)
    ensures Inv(state.(abortedCallers := state.abortedCallers + {caller}))
  {
    hide Queues;
  }

  // ----- runs -----

  ghost predicate Reaches(from: State, actions: seq<Action>, to: State)
    decreases actions
  {
    if actions == [] then to == from else Reaches(Step(from, actions[0]), actions[1..], to)
  }

  lemma {:induction false} ReachesInv(from: State, actions: seq<Action>, to: State)
    requires Inv(from) && Reaches(from, actions, to)
    ensures Inv(to)
    decreases actions
  {
    if actions != [] {
      StepInv(from, actions[0]);
      ReachesInv(Step(from, actions[0]), actions[1..], to);
    }
  }

  /** In every reachable state at most one publication of a provider is past its wait and unsettled. */
  lemma AtMostOnePastItsWait(actions: seq<Action>, state: State, p: nat, q: nat)
    requires Reaches(INITIAL, actions, state)
    requires p < |state.publications| && q < |state.publications|
    requires state.publications[p].stage.Storing? && state.publications[q].stage.Storing? && state.publications[p].source.provider == state.publications[q].source.provider
    ensures p == q
  {
    InitialInv();
    ReachesInv(INITIAL, actions, state);
  }

  // ----- effects -----

  ghost predicate Matches(seen: Option<Catalog>, persist: Persist) {
    match persist
    case Leave => true
    case Delete => seen == None
    case Write(catalog) => seen == Some(catalog)
  }

  /** An effect that may happen in a state: of a publication whose refresh is current, and an update
    sees its own catalog in the store. */
  ghost predicate Legal(state: State, e: Effect) {
    && e.publication < |state.publications|
    && !Stale(state, state.publications[e.publication].source)
    && (e.Updated? ==> Matches(e.seen, state.publications[e.publication].persist))
  }

  /** A step adds at most one effect, and a legal one. */
  ghost predicate LegalStep(before: State, after: State) {
    || after.effects == before.effects
    || (exists e :: Legal(before, e) && after.effects == before.effects + [e])
  }

  lemma ApplyLegal(state: State, p: nat)
    requires Inv(state) && p < |state.publications|
    requires state.publications[p].persist == Leave || state.publications[p].stage == Storing(true)
    ensures LegalStep(state, Apply(state, p))
  {
    if !Stale(state, state.publications[p].source) {
      var e := Updated(p, Lookup(state.store, state.publications[p].source.provider));
      assert Apply(state, p).effects == state.effects + [e];
      assert Legal(state, e);
    }
  }

  lemma StepLegal(state: State, action: Action)
    requires Inv(state)
    ensures LegalStep(state, Step(state, action))
  {
    hide Inv, Apply;
    if Enabled(state, action) {
      match action {
        case WakeUp(p) =>
          if !Stale(state, state.publications[p].source) {
            if state.publications[p].persist == Leave {
              ApplyLegal(state, p);
            } else {
              assert Legal(state, StoreStarted(p));
              assert Step(state, action).effects == state.effects + [StoreStarted(p)];
            }
          }
        case StoreSettles(p, ok) =>
          if ok {
            ApplyLegal(state, p);
          }
        case _ =>
      }
    }
  }

  /** What never changes for a begun refresh or a queued publication, and what only grows. */
  ghost predicate Later(before: State, after: State) {
    && before.refreshes <= after.refreshes
    && before.effects <= after.effects
    && |before.publications| <= |after.publications|
    && (forall p :: 0 <= p < |before.publications| ==> SameRequest(before.publications[p], after.publications[p]))
    && (forall id :: Generation(before, id) <= Generation(after, id))
  }

  ghost predicate SameRequest(one: Publication, other: Publication) {
    other == one.(stage := other.stage)
  }

  lemma SupersedeLater(state: State, id: ProviderId)
    ensures var after := Supersede(state, id);
            && after.refreshes == state.refreshes && after.effects == state.effects && after.publications == state.publications
            && forall other :: Generation(state, other) <= Generation(after, other)
  {
  }

  lemma AdvanceLater(before: State, p: nat, stage: Stage, after: State)
    requires p < |before.publications| && before.effects <= after.effects
    requires after.publications == before.publications[p := before.publications[p].(stage := stage)]
    requires after.refreshes == before.refreshes && after.generations == before.generations
    ensures Later(before, after)
  {
  }

  lemma PublishLater(state: State, refresh: nat, persist: Persist)
    requires refresh < |state.refreshes|
    ensures Later(state, Publish(state, refresh, persist))
  {
  }

  lemma RegistryLater(state: State, id: ProviderId, caller: nat, providers: set<ProviderId>)
    ensures Later(state, Supersede(state, id).(providers := providers))
    ensures Later(state, Begin(state, id, caller))
  {
    hide Supersede, Later, Generation;
    SupersedeLater(state, id);
    SameLater(state, Supersede(state, id).(providers := providers), Supersede(state, id));
    SameLater(state, Begin(state, id, caller), Supersede(state, id));
  }

  lemma ClearLater(state: State)
    requires Inv(state)
    ensures Later(state, SupersedeAll(state, state.providers + state.controllers.Keys).(providers := {}))
  {
    hide Inv, SupersedeAll, Later, Generation;
    ClearGenerations(state);
    ClearKeeps(state);
    var after := SupersedeAll(state, state.providers + state.controllers.Keys);
    SameLater(state, after.(providers := {}), after);
  }

  lemma StageLater(state: State, p: nat)
    requires p < |state.publications|
    ensures Later(state, Apply(state, p)) && Later(state, Wake(state, p)) && Later(state, StoreEffect(state, p))
    ensures Later(state, Advance(state, p, Settled(Failed)))
  {
    hide Later, Generation, Stale;
    AdvanceLater(state, p, Apply(state, p).publications[p].stage, Apply(state, p));
    AdvanceLater(state, p, Wake(state, p).publications[p].stage, Wake(state, p));
    AdvanceLater(state, p, Storing(true), StoreEffect(state, p));
    AdvanceLater(state, p, Settled(Failed), Advance(state, p, Settled(Failed)));
  }

  lemma StepLater(state: State, action: Action)
    requires Inv(state)
    ensures Later(state, Step(state, action))
  {
    hide Inv, Supersede, SupersedeAll, Begin, Publish, Apply, Wake, StoreEffect, Advance, Later, Generation;
    var after := Step(state, action);
    if Enabled(state, action) {
      match action {
        case SetProvider(id) => RegistryLater(state, id, 0, state.providers + {id});
        case DeleteProvider(id) => RegistryLater(state, id, 0, state.providers - {id});
        case ClearProviders => ClearLater(state);
        case BeginRefresh(id, caller) => RegistryLater(state, id, caller, {});
        case FinishRefresh(_) => SameLater(state, after, state);
        case AbortCaller(_) => SameLater(state, after, state);
        case PublishModels(refresh, persist) => PublishLater(state, refresh, persist);
        case TidyChain(_) => SameLater(state, after, state);
        case WakeUp(p) => StageLater(state, p);
        case TakeEffect(p) => StageLater(state, p);
        case StoreSettles(p, _) => StageLater(state, p);
      }
    } else {
      SameLater(state, after, state);
    }
  }

  lemma SameLater(before: State, after: State, reached: State)
    requires before.refreshes <= after.refreshes && after.effects == before.effects && after.publications == before.publications
    requires after.generations == reached.generations
    requires forall id :: Generation(before, id) <= Generation(reached, id)
    ensures Later(before, after)
  {
    forall id ensures Generation(before, id) <= Generation(after, id) {
      assert Generation(after, id) == Generation(reached, id);
    }
  }

  /** Effects of one provider, store mutations and updates alike, come in order of generation, none
    beyond the current one; and every update saw its own catalog in the store. */
  ghost predicate Ordered(state: State)
    requires Formed(state)
  {
    && (forall i, j :: 0 <= i < j < |state.effects| && Source(state, i).provider == Source(state, j).provider
          ==> Source(state, i).generation <= Source(state, j).generation)
    && (forall i :: 0 <= i < |state.effects| ==> Source(state, i).generation <= Generation(state, Source(state, i).provider))
    && (forall i :: 0 <= i < |state.effects| && state.effects[i].Updated? ==>
          Matches(state.effects[i].seen, state.publications[state.effects[i].publication].persist))
  }

  /** The refresh behind an effect. */
  function Source(state: State, i: nat): Refresh
    requires Formed(state) && i < |state.effects|
  {
    state.publications[state.effects[i].publication].source
  }

  lemma LaterSource(before: State, after: State)
    requires Formed(before) && Formed(after) && Later(before, after)
    ensures forall i :: 0 <= i < |before.effects| ==> after.effects[i] == before.effects[i] && Source(after, i) == Source(before, i)
  {
    forall i | 0 <= i < |before.effects|
      ensures after.effects[i] == before.effects[i] && Source(after, i) == Source(before, i)
    {
      assert SameRequest(before.publications[before.effects[i].publication], after.publications[before.effects[i].publication]);
    }
  }

  lemma OrderedGrows(before: State, after: State)
    requires Formed(before) && Formed(after) && Later(before, after) && LegalStep(before, after) && Ordered(before)
    ensures Ordered(after)
  {
    LaterSource(before, after);
    if after.effects != before.effects {
      var e :| Legal(before, e) && after.effects == before.effects + [e];
      assert SameRequest(before.publications[e.publication], after.publications[e.publication]);
      assert Source(after, |before.effects|).generation == Generation(before, Source(after, |before.effects|).provider);
    }
    forall i | 0 <= i < |before.effects| && after.effects[i].Updated?
      ensures Matches(after.effects[i].seen, after.publications[after.effects[i].publication].persist)
    {
      assert SameRequest(before.publications[before.effects[i].publication], after.publications[before.effects[i].publication]);
    }
  }

  /** In every interleaving the generations of applied updates and of store mutations of a provider
    never decrease, and no update shows a catalog that differs from what was persisted for it. */
  lemma {:induction false} EffectsInOrder(from: State, actions: seq<Action>, to: State)
    requires Inv(from) && Ordered(from) && Reaches(from, actions, to)
    ensures Inv(to) && Ordered(to)
    decreases actions
  {
    hide Step, Ordered;
    if actions != [] {
      var next := Step(from, actions[0]);
      StepInv(from, actions[0]);
      StepLegal(from, actions[0]);
      StepLater(from, actions[0]);
      OrderedGrows(from, next);
      EffectsInOrder(next, actions[1..], to);
    }
  }

  /** So it is in every state that any interleaving reaches from the start. */
  lemma ReachableInOrder(actions: seq<Action>, state: State)
    requires Reaches(INITIAL, actions, state)
    ensures Inv(state) && Ordered(state)
  {
    InitialInv();
    EffectsInOrder(INITIAL, actions, state);
  }

  // ----- after a provider was replaced -----

  /** Every refresh of the provider begun before `count` is stale for good. */
  ghost predicate Retired(state: State, id: ProviderId, count: nat) {
    && count <= |state.refreshes|
    && forall r :: 0 <= r < count && state.refreshes[r].provider == id ==> state.refreshes[r].generation < Generation(state, id)
  }

  lemma SetRetires(state: State, id: ProviderId)
    requires Inv(state)
    ensures Retired(Step(state, SetProvider(id)), id, |state.refreshes|)
    ensures Retired(Step(state, DeleteProvider(id)), id, |state.refreshes|)
  {
    SupersedeRetires(state, id);
    hide Inv;
  }

  lemma ClearRetires(state: State, id: ProviderId)
    requires Inv(state)
    ensures Retired(Step(state, ClearProviders), id, |state.refreshes|)
  {
    ClearGenerations(state);
    hide Inv, SupersedeAll;
    var after := SupersedeAll(state, state.providers + state.controllers.Keys);
    ClearKeeps(state);
    assert Generation(Step(state, ClearProviders), id) == Generation(after, id);
  }

  /** The effects that `to` adds for a provider stem from refreshes numbered `count` or later. */
  ghost predicate OnlyNewEffects(from: State, to: State, id: ProviderId, count: nat)
    requires Formed(to)
  {
    forall i :: |from.effects| <= i < |to.effects| && Source(to, i).provider == id
      ==> to.publications[to.effects[i].publication].refresh >= count
  }

  lemma StepRetired(before: State, after: State, id: ProviderId, count: nat)
    requires Formed(before) && Formed(after) && Later(before, after) && LegalStep(before, after) && Retired(before, id, count)
    ensures Retired(after, id, count) && OnlyNewEffects(before, after, id, count)
  {
    assert forall r :: 0 <= r < count ==> after.refreshes[r] == before.refreshes[r];
    assert Generation(before, id) <= Generation(after, id);
    if after.effects != before.effects {
      var e :| Legal(before, e) && after.effects == before.effects + [e];
      assert SameRequest(before.publications[e.publication], after.publications[e.publication]);
    }
  }

  lemma {:induction false} RetiredForever(from: State, actions: seq<Action>, to: State, id: ProviderId, count: nat)
    requires Inv(from) && Retired(from, id, count) && Reaches(from, actions, to)
    ensures Inv(to) && Later(from, to) && OnlyNewEffects(from, to, id, count)
    decreases actions
  {
    hide Step, Retired;
    if actions != [] {
      var middle := Step(from, actions[0]);
      StepInv(from, actions[0]);
      StepLegal(from, actions[0]);
      StepLater(from, actions[0]);
      StepRetired(from, middle, id, count);
      RetiredForever(middle, actions[1..], to, id, count);
      JoinEffects(from, middle, to, id, count);
    }
  }

  lemma JoinEffects(from: State, middle: State, to: State, id: ProviderId, count: nat)
    requires Formed(from) && Formed(middle) && Formed(to) && Later(from, middle) && Later(middle, to)
    requires OnlyNewEffects(from, middle, id, count) && OnlyNewEffects(middle, to, id, count)
    ensures Later(from, to) && OnlyNewEffects(from, to, id, count)
  {
    LaterSource(middle, to);
    forall i | |from.effects| <= i < |to.effects| && Source(to, i).provider == id
      ensures to.publications[to.effects[i].publication].refresh >= count
    {
      if i < |middle.effects| {
        assert SameRequest(middle.publications[middle.effects[i].publication], to.publications[middle.effects[i].publication]);
      }
    }
    LaterJoins(from, middle, to);
  }

  lemma LaterJoins(from: State, middle: State, to: State)
    requires Later(from, middle) && Later(middle, to)
    ensures Later(from, to)
  {
    forall id ensures Generation(from, id) <= Generation(to, id) {
      assert Generation(from, id) <= Generation(middle, id);
    }
    forall p | 0 <= p < |from.publications| ensures SameRequest(from.publications[p], to.publications[p]) {
      assert SameRequest(from.publications[p], middle.publications[p]) && SameRequest(middle.publications[p], to.publications[p]);
    }
  }

  /** After `setProvider`, `deleteProvider` or `clearProviders` no publication of an earlier refresh of
    the provider starts a store mutation or runs its update, whatever happens next. */
  lemma ReplacedProviderIsSafe(state: State, action: Action, actions: seq<Action>, to: State, id: ProviderId)
    requires Inv(state)
    requires action == SetProvider(id) || action == DeleteProvider(id) || action == ClearProviders
    requires Reaches(Step(state, action), actions, to)
    ensures Inv(to) && OnlyNewEffects(Step(state, action), to, id, |state.refreshes|)
  {
    StepInv(state, action);
    SetRetires(state, id);
    ClearRetires(state, id);
    RetiredForever(Step(state, action), actions, to, id, |state.refreshes|);
  }

  // ----- progress -----

  /** A chain never blocks itself: while a provider has an unsettled publication, its foremost one can
    wake up or is waiting only for the store. */
  lemma {:induction false} NeverStuck(state: State, p: nat) returns (q: nat)
    requires Inv(state) && p < |state.publications| && !state.publications[p].stage.Settled?
    ensures q <= p && state.publications[q].source.provider == state.publications[p].source.provider
    ensures Ready(state, q) || state.publications[q].stage.Storing?
    decreases p
  {
    var pubs := state.publications;
    if k :| 0 <= k < p && pubs[k].source.provider == pubs[p].source.provider && !pubs[k].stage.Settled? {
      q := NeverStuck(state, k);
    } else {
      q := p;
      assert Linked(pubs, p);
    }
  }
}
