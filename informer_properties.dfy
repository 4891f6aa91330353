/**
 What the factory's operations promise, stated over the value-level
 specification: the steps the factory's loops take compose into the whole
 reconfiguration, reconfiguration keeps every informer tracking exactly the
 namespace set without restarting surviving watches, and the invariant holds
 after any sequence of operations.
 */
module InformerProperties {
  import opened Namespaces
  import opened InformerSpec

  /**
   `AddNamespace` keeps every existing watch as it was, so adding a tracked
   namespace again changes nothing, and it keeps the informer's invariant.
   */
  lemma AddedKeepsWatches(s: InformerState, ns: string)
    ensures forall n | n in s.sources :: n in Added(s, ns).sources && Added(s, ns).sources[n] == s.sources[n]
    ensures ns in s.sources ==> Added(s, ns) == s
    ensures WellFormed(s) ==> WellFormed(Added(s, ns))
  {
  }

  /** `RemoveNamespace` keeps every other watch as it was and keeps the informer's invariant. */
  lemma RemovedKeepsWatches(s: InformerState, ns: string)
    ensures forall n | n in Removed(s, ns).sources :: n in s.sources && Removed(s, ns).sources[n] == s.sources[n]
    ensures WellFormed(s) ==> WellFormed(Removed(s, ns))
  {
  }

  /**
   `NonBlockingRun` starts every watch, leaves a watch already started as it
   was (it is not restarted), and keeps the informer's invariant.
   */
  lemma RunStartsAll(s: InformerState)
    ensures forall n | n in Run(s).sources :: Run(s).sources[n].started
    ensures forall n | n in s.sources && s.sources[n].started :: Run(s).sources[n] == s.sources[n]
    ensures WellFormed(s) ==> WellFormed(Run(s))
    ensures Run(Run(s)) == Run(s)
  {
  }

  /**
   `RemoveNamespace` undoes `AddNamespace` of an untracked namespace, and
   `AddNamespace` after `RemoveNamespace` tracks the namespace again.
   */
  lemma AddRemoveInverse(s: InformerState, ns: string)
    ensures ns !in s.sources ==> Removed(Added(s, ns), ns) == s
    ensures s.namespaced ==> Tracked(Added(Removed(s, ns), ns)) == Tracked(s) + {ns}
  {
    if ns !in s.sources && s.namespaced {
      assert Removed(Added(s, ns), ns).sources == s.sources;
    }
  }

  /**
   A cluster-scoped informer ignores namespace changes, and the watch the
   per-namespace constructor builds for it lists all namespaces whatever
   namespace it is asked for.
   */
  lemma ClusterScopedIgnoresNamespaces(s: InformerState, ns: string)
    requires !s.namespaced
    ensures Added(s, ns) == s && Removed(s, ns) == s
    ensures NewWatchSource(false, ns).namespace == NamespaceAll
    ensures WellFormed(s) ==> Tracked(s) == {NamespaceAll} && s.sources[NamespaceAll].namespace == NamespaceAll
  {
  }

  /** Reconciling with nothing to remove and nothing to add changes nothing. */
  lemma ReconciledNothing(s: InformerState)
    ensures Reconciled(s, {}, {}) == s
  {
    if s.namespaced {
      assert Reconciled(s, {}, {}).sources == s.sources;
    }
  }

  /** One more `RemoveNamespace` extends the removed set of a reconciliation. */
  lemma ReconciledRemoveStep(s: InformerState, removed: set<string>, ns: string)
    ensures Removed(Reconciled(s, removed, {}), ns) == Reconciled(s, removed + {ns}, {})
  {
    if s.namespaced {
      assert Removed(Reconciled(s, removed, {}), ns).sources == Reconciled(s, removed + {ns}, {}).sources;
    }
  }

  /** One more `AddNamespace` extends the added set of a reconciliation. */
  lemma ReconciledAddStep(s: InformerState, removed: set<string>, added: set<string>, ns: string)
    ensures Added(Reconciled(s, removed, added), ns) == Reconciled(s, removed, added + {ns})
  {
    if s.namespaced {
      assert Added(Reconciled(s, removed, added), ns).sources == Reconciled(s, removed, added + {ns}).sources;
    }
  }

  /** One more seeding `AddNamespace` on a new informer seeds one more namespace. */
  lemma SeededStep(namespaced: bool, nss: set<string>, ns: string)
    ensures Added(Seeded(namespaced, nss), ns) == Seeded(namespaced, nss + {ns})
  {
    if namespaced {
      assert Added(Seeded(namespaced, nss), ns).sources == Seeded(namespaced, nss + {ns}).sources;
    }
  }

  /** A new informer before any seeding is the seeded informer of no namespace. */
  lemma SeededNothing(namespaced: bool)
    ensures Seeded(namespaced, {}) == NewInformer(namespaced)
  {
    if namespaced {
      assert Seeded(namespaced, {}).sources == map[];
    }
  }

  /**
   A seeded informer is well formed, not running, and tracks exactly what its
   scope demands; each namespaced watch lists its own namespace, a
   cluster-scoped one lists all namespaces.
   */
  lemma SeededTracksScope(namespaced: bool, nss: set<string>)
    ensures WellFormed(Seeded(namespaced, nss))
    ensures Tracked(Seeded(namespaced, nss)) == Scope(namespaced, nss)
    ensures forall n | n in Seeded(namespaced, nss).sources ::
              Seeded(namespaced, nss).sources[n] == NewWatchSource(namespaced, n)
  {
  }

  /**
   Reconfiguring an informer that tracked `before` for the set `after`: it
   keeps its invariant, it then tracks exactly what its scope demands of the
   new set, the watch of every namespace in both sets is kept as it was, and
   every namespace only in the new set gets a new, stopped watch that waits
   for the next `Start`.
   */
  lemma ReconciledTracksNewSet(s: InformerState, before: set<string>, after: set<string>)
    requires WellFormed(s) && Tracked(s) == Scope(s.namespaced, before)
    ensures WellFormed(Reconciled(s, before - after, after))
    ensures Tracked(Reconciled(s, before - after, after)) == Scope(s.namespaced, after)
    ensures Reconciled(s, before - after, after).running == s.running
    ensures s.namespaced ==> forall n | n in before && n in after ::
              Reconciled(s, before - after, after).sources[n] == s.sources[n]
    ensures s.namespaced ==> forall n | n in after && n !in before ::
              Reconciled(s, before - after, after).sources[n] == NewWatchSource(true, n)
  {
    var r := Reconciled(s, before - after, after);
    if s.namespaced {
      assert Tracked(r) == after;
      assert WellFormed(r);
    } else {
      assert r == s;
    }
  }

  /** After `SetNamespaces(xs)` the namespace set is the normalised list. */
  lemma SetNamespacesSetsNamespaces(f: FactoryState, xs: seq<string>)
    ensures SetNamespacesSpec(f, xs).namespaces == Normalize(xs)
    ensures NamespaceAll in xs ==> SetNamespacesSpec(f, xs).namespaces == {NamespaceAll}
    ensures SetNamespacesSpec(f, xs).informers.Keys == f.informers.Keys
  {
  }

  /**
   The headline promise of `SetNamespaces`: from a consistent factory, every
   informer afterwards tracks exactly its scope of the new namespace set, and
   every informer stays well formed.
   */
  lemma SetNamespacesConsistent(f: FactoryState, xs: seq<string>)
    requires AllWellFormed(f) && Consistent(f)
    ensures AllWellFormed(SetNamespacesSpec(f, xs)) && Consistent(SetNamespacesSpec(f, xs))
  {
    var r := SetNamespacesSpec(f, xs);
    forall g | g in r.informers
      ensures WellFormed(r.informers[g])
      ensures Tracked(r.informers[g]) == Scope(r.informers[g].namespaced, r.namespaces)
    {
      ReconciledTracksNewSet(f.informers[g], f.namespaces, r.namespaces);
    }
  }

  /**
   `SetNamespaces` drops exactly the watches of namespaces in old − new: a
   namespaced informer loses namespace `n` if and only if `n` was in the old
   set and is not in the new one; surviving watches are not restarted.
   */
  lemma SetNamespacesRemovesOnlyStale(f: FactoryState, xs: seq<string>, g: GVR, n: string)
    requires AllWellFormed(f) && Consistent(f)
    requires g in f.informers && f.informers[g].namespaced
    ensures var r := SetNamespacesSpec(f, xs).informers[g];
            (n in Tracked(f.informers[g]) && n !in Tracked(r)) <==> n in f.namespaces - Normalize(xs)
    ensures var r := SetNamespacesSpec(f, xs).informers[g];
            n in Tracked(f.informers[g]) && n in Tracked(r) ==> r.sources[n] == f.informers[g].sources[n]
  {
    ReconciledTracksNewSet(f.informers[g], f.namespaces, Normalize(xs));
  }

  /** Repeating `SetNamespaces` with the same list changes nothing. */
  lemma SetNamespacesIdempotent(f: FactoryState, xs: seq<string>)
    ensures SetNamespacesSpec(SetNamespacesSpec(f, xs), xs) == SetNamespacesSpec(f, xs)
  {
    var r := SetNamespacesSpec(f, xs);
    var nss := Normalize(xs);
    forall g | g in r.informers
      ensures Reconciled(r.informers[g], nss - nss, nss) == r.informers[g]
    {
      var s := r.informers[g];
      if s.namespaced {
        assert Reconciled(s, nss - nss, nss).sources == s.sources;
      }
    }
    assert ReconciledAll(r.informers, r.namespaces - nss, nss) == r.informers;
  }

  /**
   `ForResource` on a registered type changes nothing; on a new type it adds
   exactly one entry, seeded with the current namespaces, and leaves every
   other entry and the namespace set as they were. Either way consistency and
   well-formedness are kept.
   */
  lemma ForResourceConsistent(f: FactoryState, gvr: GVR, namespaced: bool)
    requires AllWellFormed(f) && Consistent(f)
    ensures var r := ForResourceSpec(f, gvr, namespaced);
            AllWellFormed(r) && Consistent(r)
    ensures var r := ForResourceSpec(f, gvr, namespaced);
            r.namespaces == f.namespaces && r.informers.Keys == f.informers.Keys + {gvr}
    ensures var r := ForResourceSpec(f, gvr, namespaced);
            forall g | g in f.informers :: r.informers[g] == f.informers[g]
    ensures gvr !in f.informers ==> Tracked(ForResourceSpec(f, gvr, namespaced).informers[gvr]) == Scope(namespaced, f.namespaces)
  {
    SeededTracksScope(namespaced, f.namespaces);
  }

  /** Asking twice for the same type gives the first answer, whatever scope the second asks for. */
  lemma ForResourceIdempotent(f: FactoryState, gvr: GVR, namespaced: bool, again: bool)
    ensures ForResourceSpec(ForResourceSpec(f, gvr, namespaced), gvr, again) == ForResourceSpec(f, gvr, namespaced)
  {
  }

  /**
   `Start` runs every informer created so far, starting every watch each of
   them holds, and keeps consistency and well-formedness; informers created
   later are not running.
   */
  lemma StartConsistent(f: FactoryState)
    requires AllWellFormed(f) && Consistent(f)
    ensures AllWellFormed(StartSpec(f)) && Consistent(StartSpec(f))
    ensures forall g | g in StartSpec(f).informers :: StartSpec(f).informers[g].running
    ensures forall g, n | g in StartSpec(f).informers && n in StartSpec(f).informers[g].sources ::
              StartSpec(f).informers[g].sources[n].started
  {
    forall g | g in f.informers ensures WellFormed(Run(f.informers[g])) {
      RunStartsAll(f.informers[g]);
    }
  }

  /**
   A namespace `SetNamespaces` adds to a namespaced informer gets a watch
   that stays stopped, even when the informer already runs, until the
   client calls `Start` again; that call starts it.
   */
  lemma NewNamespacesWaitForStart(f: FactoryState, xs: seq<string>, g: GVR, n: string)
    requires AllWellFormed(f) && Consistent(f)
    requires g in f.informers && f.informers[g].namespaced
    requires n in Normalize(xs) && n !in f.namespaces
    ensures var r := SetNamespacesSpec(f, xs);
            n in r.informers[g].sources && !r.informers[g].sources[n].started
    ensures var r := StartSpec(SetNamespacesSpec(f, xs));
            n in r.informers[g].sources && r.informers[g].sources[n].started
  {
    ReconciledTracksNewSet(f.informers[g], f.namespaces, Normalize(xs));
  }

  /** The calls a client makes on the factory after creating it. */
  datatype Op = SetNamespacesOp(xs: seq<string>) | ForResourceOp(gvr: GVR, namespaced: bool) | StartOp

  function Step(f: FactoryState, op: Op): FactoryState
  {
    match op
    case SetNamespacesOp(xs) => SetNamespacesSpec(f, xs)
    case ForResourceOp(gvr, namespaced) => ForResourceSpec(f, gvr, namespaced)
    case StartOp => StartSpec(f)
  }

  function Apply(f: FactoryState, ops: seq<Op>): FactoryState
    decreases |ops|
  {
    if ops == [] then f else Apply(Step(f, ops[0]), ops[1..])
  }

  /** A new factory is consistent. */
  lemma InitialConsistent(xs: seq<string>)
    ensures AllWellFormed(Initial(xs)) && Consistent(Initial(xs))
    ensures Initial(xs).namespaces == Normalize(xs) && Initial(xs).informers == map[]
  {
  }

  /**
   The factory's promise: after any sequence of `SetNamespaces`,
   `ForResource` and `Start` calls on a new factory, every namespaced
   informer tracks exactly the factory's namespace set and every
   cluster-scoped informer only the all-namespaces sentinel.
   */
  lemma {:induction false} AnySequenceConsistent(f: FactoryState, ops: seq<Op>)
    requires AllWellFormed(f) && Consistent(f)
    ensures AllWellFormed(Apply(f, ops)) && Consistent(Apply(f, ops))
    decreases |ops|
  {
    if ops != [] {
      match ops[0] {
        case SetNamespacesOp(xs) => SetNamespacesConsistent(f, xs);
        case ForResourceOp(gvr, namespaced) => ForResourceConsistent(f, gvr, namespaced);
        case StartOp => StartConsistent(f);
      }
      AnySequenceConsistent(Step(f, ops[0]), ops[1..]);
    }
  }

  /** The invariant holds for every factory a client can reach from `NewInformerFactory`. */
  lemma ReachableConsistent(xs: seq<string>, ops: seq<Op>, g: GVR)
    requires g in Apply(Initial(xs), ops).informers
    ensures var f := Apply(Initial(xs), ops);
            Tracked(f.informers[g]) == Scope(f.informers[g].namespaced, f.namespaces)
  {
    InitialConsistent(xs);
    AnySequenceConsistent(Initial(xs), ops);
  }
}
