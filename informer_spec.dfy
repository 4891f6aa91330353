/**
 Value-level specification of the informer factory: the state of one
 multi-namespace informer, the state of the whole factory, and what each
 factory operation does to them. The classes in module Informers are proved
 to follow these functions; the lemmas here say what the functions promise.
 */
module InformerSpec {
  import opened Namespaces

  /** `schema.GroupVersionResource`: the key of the factory's informer map. */
  datatype GVR = GVR(group: string, version: string, resource: string)

  /**
   One per-namespace list-watch, as built by the factory's per-namespace
   constructor: the namespace it lists, whether its loop was started, and
   whether it has completed its initial list.
   */
  datatype WatchSource = WatchSource(namespace: string, started: bool, synced: bool)

  /**
   A cross-namespace informer: its scope, whether it has been run, and the
   watch it keeps for each tracked namespace.
   */
  datatype InformerState = InformerState(namespaced: bool, running: bool, sources: map<string, WatchSource>)

  /** The whole factory: the namespace set and the informer of each resource type. */
  datatype FactoryState = FactoryState(namespaces: set<string>, informers: map<GVR, InformerState>)

  /**
   The factory's per-namespace constructor (`newInformerFunc`): the namespace
   argument is ignored for cluster-scoped resources, which always watch all
   namespaces. A new source is not started: only `NonBlockingRun`, called
   by the factory's `Start`, starts the watches that are stopped.
   */
  function NewWatchSource(namespaced: bool, ns: string): (w: WatchSource)
    ensures !w.started && !w.synced
    ensures {w.namespace} == Scope(namespaced, {ns})
  {
    WatchSource(if namespaced then ns else NamespaceAll, false, false)
  }

  /** The namespaces an informer tracks. */
  function Tracked(s: InformerState): set<string>
  {
    s.sources.Keys
  }

  /** The namespaces an informer of the given scope should track when the factory holds `nss`. */
  function Scope(namespaced: bool, nss: set<string>): set<string>
  {
    if namespaced then nss else {NamespaceAll}
  }

  /**
   The informer's own invariant: a cluster-scoped informer has exactly the
   one all-namespaces watch; every watch lists the namespace it is kept for;
   only a started watch can have synced. A running informer may hold watches
   added since its last run, which stay stopped until the next `Start`.
   */
  ghost predicate WellFormed(s: InformerState)
  {
    && (!s.namespaced ==> Tracked(s) == {NamespaceAll})
    && (forall n | n in s.sources :: s.sources[n].namespace == n)
    && (forall n | n in s.sources :: s.sources[n].synced ==> s.sources[n].started)
  }

  /** `NewMultiNamespaceInformer`: a cluster-scoped informer is born with its single watch. */
  function NewInformer(namespaced: bool): (s: InformerState)
    ensures WellFormed(s) && !s.running
    ensures Tracked(s) == Scope(namespaced, {})
  {
    if namespaced then InformerState(true, false, map[])
    else InformerState(false, false, map[NamespaceAll := NewWatchSource(false, NamespaceAll)])
  }

  /**
   `AddNamespace`: a set insert for a namespaced informer, a no-op for a
   cluster-scoped one. A namespace already tracked keeps its watch; a new
   watch is stopped until the next `Start`.
   */
  function Added(s: InformerState, ns: string): (r: InformerState)
    ensures Tracked(r) == if s.namespaced then Tracked(s) + {ns} else Tracked(s)
    ensures r.namespaced == s.namespaced && r.running == s.running
  {
    if !s.namespaced || ns in s.sources then s
    else s.(sources := s.sources[ns := NewWatchSource(s.namespaced, ns)])
  }

  /**
   `RemoveNamespace`: a set delete for a namespaced informer, a no-op for a
   cluster-scoped one. Every other watch is kept.
   */
  function Removed(s: InformerState, ns: string): (r: InformerState)
    ensures Tracked(r) == if s.namespaced then Tracked(s) - {ns} else Tracked(s)
    ensures r.namespaced == s.namespaced && r.running == s.running
  {
    if !s.namespaced then s
    else s.(sources := s.sources - {ns})
  }

  /**
   `NonBlockingRun`: every stopped watch is started; a watch already running
   keeps its state.
   */
  function Run(s: InformerState): (r: InformerState)
    ensures r.running && r.namespaced == s.namespaced && Tracked(r) == Tracked(s)
  {
    s.(running := true, sources := map n | n in s.sources :: s.sources[n].(started := true))
  }

  /**
   `HasSynced`: every tracked watch has completed its initial list. An
   informer with no watches has synced at once; a synced informer has
   started every watch it holds.
   */
  predicate HasSynced(s: InformerState)
    ensures s.sources == map[] ==> HasSynced(s)
    ensures WellFormed(s) && HasSynced(s) ==> forall n | n in s.sources :: s.sources[n].started
  {
    forall n | n in s.sources :: s.sources[n].synced
  }

  /**
   The informer after a namespace reconfiguration: every namespace of
   `removed` is removed, then every namespace of `added` is added.
   */
  function Reconciled(s: InformerState, removed: set<string>, added: set<string>): (r: InformerState)
    ensures r.namespaced == s.namespaced && r.running == s.running
    ensures !s.namespaced ==> r == s
  {
    if !s.namespaced then s
    else s.(sources := map n | n in (s.sources.Keys - removed) + added ::
                              if n in s.sources && n !in removed then s.sources[n]
                              else NewWatchSource(true, n))
  }

  /** `Reconciled` for every informer of a map. */
  function ReconciledAll(m: map<GVR, InformerState>, removed: set<string>, added: set<string>): map<GVR, InformerState>
  {
    map g | g in m :: Reconciled(m[g], removed, added)
  }

  /** The informer `ForResource` stores: a new informer seeded with each of `nss`. */
  function Seeded(namespaced: bool, nss: set<string>): (r: InformerState)
    ensures Tracked(r) == Scope(namespaced, nss)
    ensures r.namespaced == namespaced && !r.running
  {
    if namespaced then InformerState(true, false, map n | n in nss :: NewWatchSource(true, n))
    else NewInformer(false)
  }

  /**
   `SetNamespaces`: the normalised list becomes the namespace set; every
   informer loses the namespaces of the old set missing from the new one and
   is then given every namespace of the new set.
   */
  function SetNamespacesSpec(f: FactoryState, xs: seq<string>): (r: FactoryState)
    ensures IsEffective(r.namespaces) && r.informers.Keys == f.informers.Keys
  {
    var nss := Normalize(xs);
    FactoryState(nss, ReconciledAll(f.informers, f.namespaces - nss, nss))
  }

  /** `ForResource`: get-or-create, the new informer seeded with the current namespaces. */
  function ForResourceSpec(f: FactoryState, gvr: GVR, namespaced: bool): (r: FactoryState)
    ensures r.namespaces == f.namespaces && r.informers.Keys == f.informers.Keys + {gvr}
    ensures gvr in f.informers ==> r == f
  {
    if gvr in f.informers then f
    else f.(informers := f.informers[gvr := Seeded(namespaced, f.namespaces)])
  }

  /** `Start`: every informer created so far is run. */
  function StartSpec(f: FactoryState): (r: FactoryState)
    ensures r.namespaces == f.namespaces && r.informers.Keys == f.informers.Keys
  {
    f.(informers := map g | g in f.informers :: Run(f.informers[g]))
  }

  /**
   The condition `WaitForCacheSync` waits for: every informer created so far
   has synced. A factory that has created no informer does not wait.
   */
  predicate AllSynced(f: FactoryState)
    ensures f.informers == map[] ==> AllSynced(f)
  {
    forall g | g in f.informers :: HasSynced(f.informers[g])
  }

  /** The factory just after `NewInformerFactory(xs)` succeeds. */
  function Initial(xs: seq<string>): FactoryState
  {
    SetNamespacesSpec(FactoryState({}, map[]), xs)
  }

  /** Every informer of the factory is well formed. */
  ghost predicate AllWellFormed(f: FactoryState)
  {
    forall g | g in f.informers :: WellFormed(f.informers[g])
  }

  /**
   The factory's promise: every namespaced informer tracks exactly the
   factory's namespace set and every cluster-scoped one only the sentinel.
   */
  ghost predicate Consistent(f: FactoryState)
  {
    forall g | g in f.informers :: Tracked(f.informers[g]) == Scope(f.informers[g].namespaced, f.namespaces)
  }
}
