/** Refreshing and publishing model catalogs.

  Models the refresh protocol of `ModelsImpl` in `packages/ai/src/models.ts` as atomic segments, cut
  at every `await`, that the environment interleaves in any order. The store is shared and its
  mutations take effect some time between their start and their settlement. */
module ModelsRefresh {
  import opened Wrappers

  type ProviderId = string
  type Catalog = string

  /** What a publication does to the store: nothing, delete, or write. */
  datatype Persist = Leave | Delete | Write(catalog: Catalog)

  datatype Verdict = Skipped | Failed | Applied

  /** Where a publication is: behind its predecessor, inside its store mutation, or settled. */
  datatype Stage = Waiting | Storing(effective: bool) | Settled(verdict: Verdict)

  /** One begun refresh of a provider: its generation and the two signals that stop it. */
  datatype Refresh = Refresh(provider: ProviderId, generation: nat, controller: nat, caller: nat)

  /** A queued publication of refresh number `refresh`; `previous` is the one it waits for. */
  datatype Publication = Publication(source: Refresh, refresh: nat, persist: Persist, previous: Option<nat>, stage: Stage)

  type Publications = seq<Publication>

  /** What the outside world can see: a store mutation starts, or an in-memory update runs; `seen` is
    the stored catalog at the time of the update. */
  datatype Effect = StoreStarted(publication: nat) | Updated(publication: nat, seen: Option<Catalog>)

  datatype State = State(
    providers: set<ProviderId>,
    generations: map<ProviderId, nat>,        // refreshGenerations
    controllers: map<ProviderId, nat>,        // refreshControllers
    chains: map<ProviderId, nat>,             // publicationChains: the publication at each tail
    refreshes: seq<Refresh>,                  // every refresh ever begun
    publications: Publications,               // every publication ever queued
    abortedControllers: set<nat>,
    abortedCallers: set<nat>,
    store: map<ProviderId, Catalog>,
    effects: seq<Effect>)

  const INITIAL := State({}, map[], map[], map[], [], [], {}, {}, map[], [])

  function Generation(state: State, id: ProviderId): nat {
    if id in state.generations then state.generations[id] else 0
  }

  // ----- segments -----

  function Supersede(state: State, id: ProviderId): State {
    var bumped := state.(generations := state.generations[id := Generation(state, id) + 1]);
    if id in state.controllers then
      bumped.(controllers := state.controllers - {id}, abortedControllers := state.abortedControllers + {state.controllers[id]})
    else bumped
  }

  /** Superseding a set of providers at once; the order of the loop does not matter. */
  function SupersedeAll(state: State, ids: set<ProviderId>): State {
    state.(generations := state.generations + map id | id in ids :: Generation(state, id) + 1,
           controllers := state.controllers - ids,
           abortedControllers := state.abortedControllers + set id | id in ids && id in state.controllers :: state.controllers[id])
  }

  function Begin(state: State, id: ProviderId, caller: nat): State {
    var superseded := Supersede(state, id);
    var controller := |state.refreshes|;
    superseded.(controllers := superseded.controllers[id := controller],
                refreshes := superseded.refreshes + [Refresh(id, Generation(superseded, id), controller, caller)])
  }

  function Finish(state: State, refresh: nat): State
    requires refresh < |state.refreshes|
  {
    var id := state.refreshes[refresh].provider;
    if id in state.controllers && state.controllers[id] == state.refreshes[refresh].controller then
      state.(controllers := state.controllers - {id})
    else state
  }

  function Publish(state: State, refresh: nat, persist: Persist): State
    requires refresh < |state.refreshes|
  {
    var id := state.refreshes[refresh].provider;
    var previous := if id in state.chains then Some(state.chains[id]) else None;
    state.(publications := state.publications + [Publication(state.refreshes[refresh], refresh, persist, previous, Waiting)],
           chains := state.chains[id := |state.publications|])
  }

  /** The check before the store mutation and again before the update. */
  predicate Stale(state: State, refresh: Refresh) {
    || refresh.controller in state.abortedControllers
    || refresh.caller in state.abortedCallers
    || Generation(state, refresh.provider) != refresh.generation
  }

  function Advance(state: State, p: nat, stage: Stage): State
    requires p < |state.publications|
  {
    state.(publications := state.publications[p := state.publications[p].(stage := stage)])
  }

  function Lookup(store: map<ProviderId, Catalog>, id: ProviderId): Option<Catalog> {
    if id in store then Some(store[id]) else None
  }

  /** The second check and the update. */
  function Apply(state: State, p: nat): State
    requires p < |state.publications|
  {
    if Stale(state, state.publications[p].source) then Advance(state, p, Settled(Skipped))
    else
      Advance(state, p, Settled(Applied)).(effects := state.effects + [Updated(p, Lookup(state.store, state.publications[p].source.provider))])
  }

  /** The wait is over: the first check, then the store mutation, or straight to the update. */
  function Wake(state: State, p: nat): State
    requires p < |state.publications|
  {
    if Stale(state, state.publications[p].source) then Advance(state, p, Settled(Skipped))
    else if state.publications[p].persist == Leave then Apply(state, p)
    else Advance(state, p, Storing(false)).(effects := state.effects + [StoreStarted(p)])
  }

  function StoreEffect(state: State, p: nat): State
    requires p < |state.publications|
  {
    var id := state.publications[p].source.provider;
    Advance(state, p, Storing(true)).(
      store := if state.publications[p].persist.Write? then state.store[id := state.publications[p].persist.catalog] else state.store - {id})
  }

  // ----- what can happen, in any order -----

  datatype Action =
    | SetProvider(id: ProviderId)
    | DeleteProvider(id: ProviderId)
    | ClearProviders
    | BeginRefresh(id: ProviderId, caller: nat)
    | FinishRefresh(refresh: nat)
    | AbortCaller(caller: nat)
    | PublishModels(refresh: nat, persist: Persist)
    | WakeUp(publication: nat)
    | TakeEffect(publication: nat)
    | StoreSettles(publication: nat, ok: bool)
    | TidyChain(publication: nat)

  /** A publication waits until the one before it in the chain has settled. */
  predicate Ready(state: State, p: nat) {
    && p < |state.publications|
    && state.publications[p].stage.Waiting?
    && (state.publications[p].previous.Some? ==>
          state.publications[p].previous.value < |state.publications| && state.publications[state.publications[p].previous.value].stage.Settled?)
  }

  predicate Enabled(state: State, action: Action) {
    match action
    case SetProvider(_) => true
    case DeleteProvider(_) => true
    case ClearProviders => true
    case BeginRefresh(id, caller) => id in state.providers && caller !in state.abortedCallers
    case FinishRefresh(refresh) => refresh < |state.refreshes|
    case AbortCaller(_) => true
    case PublishModels(refresh, _) => refresh < |state.refreshes|
    case WakeUp(p) => Ready(state, p)
    case TakeEffect(p) => p < |state.publications| && state.publications[p].stage == Storing(false)
    case StoreSettles(p, ok) => p < |state.publications| && state.publications[p].stage.Storing? && (ok ==> state.publications[p].stage.effective)
    case TidyChain(p) => p < |state.publications| && state.publications[p].stage.Settled?
  }

  function Step(state: State, action: Action): State {
    if !Enabled(state, action) then state
    else
      match action
      case SetProvider(id) => Supersede(state, id).(providers := state.providers + {id})
      case DeleteProvider(id) => Supersede(state, id).(providers := state.providers - {id})
      case ClearProviders => SupersedeAll(state, state.providers + state.controllers.Keys).(providers := {})
      case BeginRefresh(id, caller) => Begin(state, id, caller)
      case FinishRefresh(refresh) => Finish(state, refresh)
      case AbortCaller(caller) => state.(abortedCallers := state.abortedCallers + {caller})
      case PublishModels(refresh, persist) => Publish(state, refresh, persist)
      case WakeUp(p) => Wake(state, p)
      case TakeEffect(p) => StoreEffect(state, p)
      case StoreSettles(p, ok) => if ok then Apply(state, p) else Advance(state, p, Settled(Failed))
      case TidyChain(p) =>
        var id := state.publications[p].source.provider;
        if id in state.chains && state.chains[id] == p then state.(chains := state.chains - {id}) else state
  }

  // ----- the invariant -----

  /** Publications of one provider pass their wait one at a time, in order. */
  ghost predicate Serialized(pubs: Publications) {
    forall p, q :: 0 <= p < q < |pubs| && pubs[p].source.provider == pubs[q].source.provider && !pubs[q].stage.Waiting?
      ==> pubs[p].stage.Settled?
  }

  /** The predecessor of a publication is the provider's latest earlier one; without a predecessor,
    all earlier ones have settled. */
  ghost predicate Linked(pubs: Publications, q: nat)
    requires q < |pubs|
  {
    match pubs[q].previous
    case Some(previous) =>
      && previous < q && pubs[previous].source.provider == pubs[q].source.provider
      && forall p :: previous < p < q ==> pubs[p].source.provider != pubs[q].source.provider
    case None => forall p :: 0 <= p < q && pubs[p].source.provider == pubs[q].source.provider ==> pubs[p].stage.Settled?
  }

  ghost predicate Chained(pubs: Publications) {
    forall q :: 0 <= q < |pubs| ==> Linked(pubs, q)
  }

  /** The tail of a chain is the provider's last publication; without a tail all have settled. */
  ghost predicate Tailed(pubs: Publications, chains: map<ProviderId, nat>) {
    && (forall id :: id in chains ==> chains[id] < |pubs| && pubs[chains[id]].source.provider == id)
    && (forall p :: 0 <= p < |pubs| ==>
          if pubs[p].source.provider in chains then p <= chains[pubs[p].source.provider] else pubs[p].stage.Settled?)
  }

  ghost predicate Stored(store: map<ProviderId, Catalog>, id: ProviderId, persist: Persist) {
    match persist
    case Leave => true
    case Delete => Lookup(store, id) == None
    case Write(catalog) => Lookup(store, id) == Some(catalog)
  }

  /** A mutation that took effect is what the store holds until its publication settles, and only
    publications with a store part are in the store. */
  ghost predicate Persisted(pubs: Publications, store: map<ProviderId, Catalog>) {
    forall p :: 0 <= p < |pubs| && pubs[p].stage.Storing? ==>
      pubs[p].persist != Leave && (pubs[p].stage.effective ==> Stored(store, pubs[p].source.provider, pubs[p].persist))
  }

  ghost predicate Queues(pubs: Publications, chains: map<ProviderId, nat>, store: map<ProviderId, Catalog>) {
    Serialized(pubs) && Chained(pubs) && Tailed(pubs, chains) && Persisted(pubs, store)
  }

  /** Publications and effects refer to what was begun and queued. */
  ghost predicate Formed(state: State) {
    && (forall p :: 0 <= p < |state.publications| ==>
          state.publications[p].refresh < |state.refreshes| && state.publications[p].source == state.refreshes[state.publications[p].refresh])
    && (forall e :: 0 <= e < |state.effects| ==> state.effects[e].publication < |state.publications|)
  }

  /** Generations only grow, and only a registered provider has a refresh of the current one. */
  ghost predicate Current(state: State) {
    forall r :: 0 <= r < |state.refreshes| ==>
      var refresh := state.refreshes[r];
      && refresh.generation <= Generation(state, refresh.provider)
      && (refresh.generation == Generation(state, refresh.provider) ==> refresh.provider in state.providers)
  }

  ghost predicate Inv(state: State) {
    Formed(state) && Current(state) && Queues(state.publications, state.chains, state.store)
  }
}
