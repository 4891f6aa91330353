/**
 The informer factory as the program runs it: a factory object holding the
 namespace set and a map from resource type to informer object, whose
 methods update those fields and call the informers' mutating methods in
 nested loops. Each method is proved to follow its function in InformerSpec.
 */
module Informers {
  import opened Wrappers
  import opened Namespaces
  import opened InformerSpec
  import opened InformerProperties

  /**
   A cross-namespace informer for one resource type. Its implementation is
   not part of this model; it is the abstract state machine the factory
   relies on.
   */
  class Informer {
    /** The resource type the factory created this informer for. */
    ghost const resource: GVR
    const namespaced: bool
    var running: bool
    var sources: map<string, WatchSource>

    function State(): InformerState
      reads this
    {
      InformerState(namespaced, running, sources)
    }

    /** `NewMultiNamespaceInformer`. */
    constructor (ghost resource: GVR, namespaced: bool)
      ensures State() == NewInformer(namespaced) && this.resource == resource
    {
      this.resource := resource;
      this.namespaced := namespaced;
      running := false;
      if namespaced {
        sources := map[];
      } else {
        sources := map[NamespaceAll := NewWatchSource(false, NamespaceAll)];
      }
    }

    method AddNamespace(ns: string)
      modifies this
      ensures State() == Added(old(State()), ns)
    {
      if namespaced && ns !in sources {
        sources := sources[ns := NewWatchSource(namespaced, ns)];
      }
    }

    method RemoveNamespace(ns: string)
      modifies this
      ensures State() == Removed(old(State()), ns)
    {
      if namespaced {
        sources := sources - {ns};
      }
    }

    method NonBlockingRun()
      modifies this
      ensures State() == Run(old(State()))
    {
      running := true;
      sources := map n | n in sources :: sources[n].(started := true);
    }

    /**
     The external watch loop of `ns` completing its initial list; the factory
     never calls this, it is the event `HasSynced` observes.
     */
    method ObserveSynced(ns: string)
      requires WellFormed(State())
      requires ns in sources && sources[ns].started
      modifies this
      ensures WellFormed(State()) && Tracked(State()) == Tracked(old(State()))
      ensures sources == old(sources)[ns := old(sources)[ns].(synced := true)]
      ensures running == old(running)
    {
      sources := sources[ns := sources[ns].(synced := true)];
    }

    /** `HasSynced`: a synced, well-formed informer has started every watch it holds. */
    predicate HasSynced()
      reads this
      ensures WellFormed(State()) && HasSynced() ==> forall n | n in sources :: sources[n].started
    {
      InformerSpec.HasSynced(State())
    }
  }

  /** `multiNamespaceInformerFactory`. */
  class InformerFactory {
    var namespaces: set<string>
    var informers: map<GVR, Informer>

    /** The value of every informer the factory holds. */
    ghost function Informers(): map<GVR, InformerState>
      reads this, informers.Values
    {
      map g | g in informers :: informers[g].State()
    }

    ghost function State(): FactoryState
      reads this, informers.Values
    {
      FactoryState(namespaces, Informers())
    }

    /**
     The factory's object invariant: each resource type has its own informer
     object, and every informer is well formed.
     */
    ghost predicate Valid()
      reads this, informers.Values
    {
      Keyed() && AllWellFormed(State())
    }

    /** Every informer is stored under its own resource type, so no two keys share one. */
    ghost predicate Keyed()
      reads this
    {
      forall g | g in informers :: informers[g].resource == g
    }

    /** The informer values are kept under the same resource types as the informer objects. */
    lemma InformersKeys()
      ensures Informers().Keys == informers.Keys
    {
    }

    /** The informers' values, known one by one, make up the map `m`. */
    lemma InformersAre(m: map<GVR, InformerState>)
      requires m.Keys == informers.Keys
      requires forall g | g in informers :: informers[g].State() == m[g]
      ensures Informers() == m
    {
    }

    /** The factory with no namespaces and no informers, before `SetNamespaces`. */
    constructor ()
      ensures Valid() && Consistent(State())
      ensures namespaces == {} && informers == map[]
    {
      namespaces := {};
      informers := map[];
    }

    /** Calls `RemoveNamespace(ns)` on every informer. */
    method RemoveFromAll(ns: string)
      requires Keyed()
      modifies informers.Values
      ensures forall g | g in informers :: informers[g].State() == Removed(old(informers[g].State()), ns)
    {
      var todo := informers.Keys;
      while todo != {}
        invariant todo <= informers.Keys
        invariant forall g | g in informers ::
                    informers[g].State() == if g in todo then old(informers[g].State()) else Removed(old(informers[g].State()), ns)
        decreases todo
      {
        var g :| g in todo;
        informers[g].RemoveNamespace(ns);
        todo := todo - {g};
      }
    }

    /** Calls `AddNamespace(ns)` on every informer. */
    method AddToAll(ns: string)
      requires Keyed()
      modifies informers.Values
      ensures forall g | g in informers :: informers[g].State() == Added(old(informers[g].State()), ns)
    {
      var todo := informers.Keys;
      while todo != {}
        invariant todo <= informers.Keys
        invariant forall g | g in informers ::
                    informers[g].State() == if g in todo then old(informers[g].State()) else Added(old(informers[g].State()), ns)
        decreases todo
      {
        var g :| g in todo;
        informers[g].AddNamespace(ns);
        todo := todo - {g};
      }
    }

    /**
     The first loop of `SetNamespaces`: every namespace of `removed` is
     removed from every informer.
     */
    method RemoveStale(removed: set<string>)
      requires Keyed()
      modifies informers.Values
      ensures forall g | g in informers :: informers[g].State() == Reconciled(old(informers[g].State()), removed, {})
    {
      forall g | g in informers ensures informers[g].State() == Reconciled(informers[g].State(), {}, {}) {
        ReconciledNothing(informers[g].State());
      }
      var todo := removed;
      assert removed - todo == {};
      while todo != {}
        invariant todo <= removed
        invariant forall g | g in informers :: informers[g].State() == Reconciled(old(informers[g].State()), removed - todo, {})
        decreases todo
      {
        var ns :| ns in todo;
        ghost var done := removed - todo;
        RemoveFromAll(ns);
        forall g | g in informers ensures informers[g].State() == Reconciled(old(informers[g].State()), done + {ns}, {}) {
          ReconciledRemoveStep(old(informers[g].State()), done, ns);
        }
        todo := todo - {ns};
        assert removed - todo == done + {ns};
      }
      assert removed - todo == removed;
    }

    /**
     The second loop of `SetNamespaces`: every namespace of `nss` is added to
     every informer, on top of the removals already done.
     */
    method AddEvery(nss: set<string>, ghost removed: set<string>, ghost start: map<GVR, InformerState>)
      requires Keyed() && start.Keys == informers.Keys
      requires forall g | g in informers :: informers[g].State() == Reconciled(start[g], removed, {})
      modifies informers.Values
      ensures forall g | g in informers :: informers[g].State() == Reconciled(start[g], removed, nss)
    {
      var todo := nss;
      assert nss - todo == {};
      while todo != {}
        invariant todo <= nss
        invariant forall g | g in informers :: informers[g].State() == Reconciled(start[g], removed, nss - todo)
        decreases todo
      {
        var ns :| ns in todo;
        ghost var done := nss - todo;
        AddStep(ns, removed, done, start);
        todo := todo - {ns};
        assert nss - todo == done + {ns};
      }
      assert nss - todo == nss;
    }

    /** One pass of the second loop: namespace `ns` is added to every informer. */
    method AddStep(ns: string, ghost removed: set<string>, ghost done: set<string>, ghost start: map<GVR, InformerState>)
      requires Keyed() && start.Keys == informers.Keys
      requires forall g | g in informers :: informers[g].State() == Reconciled(start[g], removed, done)
      modifies informers.Values
      ensures forall g | g in informers :: informers[g].State() == Reconciled(start[g], removed, done + {ns})
    {
      AddToAll(ns);
      forall g | g in informers ensures informers[g].State() == Reconciled(start[g], removed, done + {ns}) {
        ReconciledAddStep(start[g], removed, done, ns);
      }
    }

    /**
     `SetNamespaces`: removes the namespaces of old − new from every informer,
     replaces the namespace set, then adds every namespace of the new set to
     every informer.
     */
    method SetNamespaces(xs: seq<string>)
      requires Valid() && Consistent(State())
      modifies this, informers.Values
      ensures Valid() && Consistent(State())
      ensures informers == old(informers)
      ensures State() == SetNamespacesSpec(old(State()), xs)
    {
      ghost var start := State();
      InformersKeys();
      Reconfigure(Normalize(xs));
      ghost var after := SetNamespacesSpec(start, xs);
      SetNamespacesConsistent(start, xs);
      InformersAre(after.informers);
    }

    /**
     The two loops of `SetNamespaces` around the assignment of the new set
     `nss`: old − new is removed from every informer, then every namespace
     of `nss` is added to every informer.
     */
    method Reconfigure(nss: set<string>)
      requires Keyed()
      modifies this, informers.Values
      ensures namespaces == nss && informers == old(informers)
      ensures forall g | g in informers ::
                informers[g].State() == Reconciled(old(informers[g].State()), old(namespaces) - nss, nss)
    {
      ghost var start := Informers();
      InformersKeys();
      var removed := namespaces - nss;
      RemoveStale(removed);
      assert informers == old(informers);
      namespaces := nss;
      AddEvery(namespaces, removed, start);
      assert informers == old(informers);
    }

    /**
     `ForResource`: returns the informer stored for `gvr`, or creates one,
     seeds it with every current namespace and stores it.
     */
    method ForResource(gvr: GVR, namespaced: bool) returns (r: Informer)
      requires Valid() && Consistent(State())
      modifies this
      ensures Valid() && Consistent(State())
      ensures State() == ForResourceSpec(old(State()), gvr, namespaced)
      ensures gvr in informers && r == informers[gvr]
      ensures gvr in old(informers) ==> informers == old(informers)
      ensures gvr !in old(informers) ==> fresh(r) && informers == old(informers)[gvr := r]
    {
      if gvr in informers {
        return informers[gvr];
      }
      ghost var start := State();
      r := new Informer(gvr, namespaced);
      Seed(r);
      informers := informers[gvr := r];
      InformersAre(start.informers[gvr := Seeded(namespaced, start.namespaces)]);
      assert AllWellFormed(State()) && Consistent(State()) by { ForResourceConsistent(start, gvr, namespaced); }
    }

    /** The seeding loop of `ForResource`: a new informer is given every current namespace. */
    method Seed(r: Informer)
      requires r.State() == NewInformer(r.namespaced)
      modifies r
      ensures r.State() == Seeded(r.namespaced, namespaces)
    {
      SeededNothing(r.namespaced);
      var todo := namespaces;
      assert namespaces - todo == {};
      while todo != {}
        invariant todo <= namespaces
        invariant r.State() == Seeded(r.namespaced, namespaces - todo)
        decreases todo
      {
        var ns :| ns in todo;
        ghost var done := namespaces - todo;
        r.AddNamespace(ns);
        SeededStep(r.namespaced, done, ns);
        todo := todo - {ns};
        assert namespaces - todo == done + {ns};
      }
      assert namespaces - todo == namespaces;
    }

    /** `ClusterResource`: `ForResource` for a cluster-scoped type. */
    method ClusterResource(gvr: GVR) returns (r: Informer)
      requires Valid() && Consistent(State())
      modifies this
      ensures Valid() && Consistent(State())
      ensures State() == ForResourceSpec(old(State()), gvr, false)
      ensures gvr in informers && r == informers[gvr]
      ensures gvr in old(informers) ==> informers == old(informers)
      ensures gvr !in old(informers) ==> fresh(r) && informers == old(informers)[gvr := r]
    {
      r := ForResource(gvr, false);
    }

    /** `NamespacedResource`: `ForResource` for a namespaced type. */
    method NamespacedResource(gvr: GVR) returns (r: Informer)
      requires Valid() && Consistent(State())
      modifies this
      ensures Valid() && Consistent(State())
      ensures State() == ForResourceSpec(old(State()), gvr, true)
      ensures gvr in informers && r == informers[gvr]
      ensures gvr in old(informers) ==> informers == old(informers)
      ensures gvr !in old(informers) ==> fresh(r) && informers == old(informers)[gvr := r]
    {
      r := ForResource(gvr, true);
    }

    /** Calls `NonBlockingRun` on every informer. */
    method RunAll()
      requires Keyed()
      modifies informers.Values
      ensures forall g | g in informers :: informers[g].State() == Run(old(informers[g].State()))
    {
      var todo := informers.Keys;
      while todo != {}
        invariant todo <= informers.Keys
        invariant forall g | g in informers ::
                    informers[g].State() == if g in todo then old(informers[g].State()) else Run(old(informers[g].State()))
        decreases todo
      {
        var g :| g in todo;
        informers[g].NonBlockingRun();
        todo := todo - {g};
      }
    }

    /** `Start`: runs every informer created so far. */
    method Start()
      requires Valid() && Consistent(State())
      modifies informers.Values
      ensures Valid() && Consistent(State())
      ensures State() == StartSpec(old(State()))
    {
      ghost var start := State();
      InformersKeys();
      RunAll();
      InformersAre(StartSpec(start).informers);
      assert AllWellFormed(State()) && Consistent(State()) by { StartConsistent(start); }
    }

    /**
     The condition `WaitForCacheSync` polls for: every informer created so far
     reports `HasSynced`.
     */
    method CachesSynced() returns (synced: bool)
      ensures synced <==> AllSynced(State())
    {
      InformersKeys();
      synced := true;
      var todo := informers.Keys;
      while todo != {}
        invariant todo <= informers.Keys
        invariant synced <==> forall g | g in informers.Keys - todo :: informers[g].HasSynced()
        decreases todo
      {
        var g :| g in todo;
        synced := synced && informers[g].HasSynced();
        todo := todo - {g};
      }
    }
  }

  /**
   `NewInformerFactory`: fails without a factory when given no namespace;
   otherwise a new factory holding the normalised list and no informers.
   */
  method NewInformerFactory(xs: seq<string>) returns (r: Result<InformerFactory>)
    ensures r.Err? <==> |xs| < 1
    ensures r.Ok? ==> fresh(r.value) && r.value.Valid() && Consistent(r.value.State())
    ensures r.Ok? ==> r.value.State() == Initial(xs)
  {
    if |xs| < 1 {
      return Err("must provide at least one namespace");
    }
    var factory := new InformerFactory();
    factory.SetNamespaces(xs);
    return Ok(factory);
  }
}
