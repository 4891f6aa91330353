# Cross-namespace informer bookkeeping, modelled in Dafny

This project models the namespace bookkeeping of xns-informer, which presents
Kubernetes resources from a changing set of namespaces as one informer per
resource type. Two pieces decide which per-namespace watches exist:

- **The informer factory** (`pkg/informers/factory.go`). The factory holds a
  namespace set and a map from resource type (`GroupVersionResource`) to a
  cross-namespace informer.
  - `SetNamespaces` normalises the new list. Duplicates go, and the
    all-namespaces sentinel `""` absorbs every other name. It then removes
    old − new from every informer, replaces the set, and adds every new
    namespace to every informer.
  - `ForResource` is get-or-create. A new informer is seeded with every
    current namespace.
  - `Start` runs every informer created so far. `WaitForCacheSync` waits
    until all of them have synced.
- **The namespace set**. Its source file is not part of this model. Its
  behaviour comes from `pkg/informers/namespace_set_test.go`:
  - membership, an `initialized` flag and add/remove handlers;
  - `SetNamespaces` fires the diff between the old and new effective sets;
  - a nil list unconfigures the set;
  - `List` is sorted and `Contains` tests membership.

Layout:

- `namespaces.dfy` (module `Namespaces`): the sentinel and the normalisation shared by both pieces.
- `informer_spec.dfy` (module `InformerSpec`): value-level states and one function per factory operation.
- `informer_properties.dfy` (module `InformerProperties`): what those functions promise, including the
  factory's headline invariant after any sequence of calls.
- `informer_factory.dfy` (module `Informers`): the factory and informer as classes. The nested loops of
  `SetNamespaces`, the seeding loop of `ForResource` and the loops of `Start` and `WaitForCacheSync`
  are proved to produce the state their specification functions describe.
- `namespace_set.dfy` (module `NamespaceSets`): the namespace set as a class, with its diff and handler lemmas.
- `namespace_set_scenarios.dfy` (module `NamespaceSetScenarios`): each test case of
  `namespace_set_test.go` as a method whose postcondition is what the test asserts.
- `string_order.dfy` (module `StringOrder`): the byte-wise string order behind `sort.Strings` and the
  sorted insertion `List` uses.
- `wrappers.dfy` (module `Wrappers`): `Option` (a nil slice is `None`) and `Result` (Go's error return).

The multi-namespace informer's implementation is not part of this model. The factory depends on it
only through `AddNamespace`, `RemoveNamespace`, `NonBlockingRun` and `HasSynced`, modelled abstractly:

- An informer keeps a map from namespace to watch source. A source records the namespace it lists,
  whether its loop was started, and whether it finished its initial list.
- `AddNamespace` and `RemoveNamespace` are map insert and delete. Both are no-ops for a cluster-scoped
  informer (factory.go:92-94). A cluster-scoped informer owns exactly one watch, for `""`.
- Adding a namespace that is already tracked keeps its watch.
- A new watch is stopped. Only `NonBlockingRun` starts watches, and it starts every stopped one
  (factory.go:152-154). So a namespace that `SetNamespaces` adds to a running informer waits for the
  next `Start`, as the comment at factory.go:57-61 asks of the caller.
- `HasSynced` holds when every watch has synced; it is vacuously true for an informer with no watches.

The test cases "initially populated" (namespace_set_test.go:30-39) and "uninitialized later"
(namespace_set_test.go:50-57) expect an add for `ns-one`, which was present before the handler was
registered. So `AddHandler` replays every current member as an add.

## Model

| member | source | states |
|---|---|---|
| `Namespaces.Normalize` | pkg/informers/factory.go:66-72 | the new namespace set is the list's members; when `""` is among them it is exactly `{""}` |
| `Namespaces.NormalizeIsEffective` | pkg/informers/factory.go:68-72 | a normalised set never mixes the sentinel with a concrete namespace |
| `Namespaces.NormalizeIgnoresOrder` | pkg/informers/factory.go:66 | normalisation depends only on which names occur, not on order or duplicates |
| `Namespaces.NormalizeIdempotent` | pkg/informers/factory.go:66-72 | normalising any listing of a normalised set gives that set back |
| `Namespaces.SentinelAbsorbs` | pkg/informers/namespace_set_test.go:40-49 | a list with `""` and other names has the same effect as `""` alone |
| `InformerSpec.NewWatchSource` | pkg/informers/factory.go:121-135 | the per-namespace constructor builds a stopped, unsynced watch for the namespace, or for `""` when the resource is cluster-scoped |
| `InformerSpec.Reconciled` | pkg/informers/factory.go:74-89 | a namespace reconfiguration keeps an informer's scope and run state and leaves a cluster-scoped informer unchanged; what it tracks afterwards is stated by `ReconciledTracksNewSet` |
| `InformerSpec.Seeded` | pkg/informers/factory.go:137-142 | a freshly seeded informer tracks exactly its scope of the namespaces and is not running |
| `InformerSpec.SetNamespacesSpec` | pkg/informers/factory.go:62-90 | the new namespace set never mixes `""` with a concrete namespace, and the informer map keeps its keys |
| `InformerSpec.ForResourceSpec` | pkg/informers/factory.go:112-150 | get-or-create keeps the namespace set, adds the requested type to the informer map, and changes nothing when the type is already registered |
| `InformerSpec.HasSynced` | pkg/informers/factory.go:171 | the informer's `HasSynced` that `WaitForCacheSync` collects: true at once for an informer with no watches; when it holds on a well-formed informer, every watch is started |
| `InformerSpec.AllSynced` | pkg/informers/factory.go:165-177 | the condition `WaitForCacheSync` waits for: every informer created so far has synced, which holds at once for a factory with no informers; `CachesSynced` is proved to compute it |
| `InformerSpec.NewInformer` | pkg/informers/factory.go:137 | a new informer is well formed and not running; a namespaced one tracks nothing, a cluster-scoped one tracks only `""` |
| `InformerSpec.Added` | pkg/informers/factory.go:92-94 | `AddNamespace` inserts the namespace into a namespaced informer's tracked set and leaves a cluster-scoped one unchanged |
| `InformerSpec.Removed` | pkg/informers/factory.go:92-94 | `RemoveNamespace` deletes the namespace from a namespaced informer's tracked set and leaves a cluster-scoped one unchanged |
| `InformerSpec.Run` | pkg/informers/factory.go:152-154 | `NonBlockingRun` leaves the informer running over the same tracked namespaces |
| `InformerSpec.StartSpec` | pkg/informers/factory.go:152-161 | `Start` keeps the namespace set and the set of informers |
| `InformerProperties.AddedKeepsWatches` | pkg/informers/factory.go:84-89 | adding a namespace keeps every existing watch; adding a tracked namespace again changes nothing; the informer stays well formed |
| `InformerProperties.RemovedKeepsWatches` | pkg/informers/factory.go:74-80 | removing a namespace keeps every other watch and keeps the informer well formed |
| `InformerProperties.RunStartsAll` | pkg/informers/factory.go:152-161 | running starts every watch, does not restart one already started, is idempotent, keeps the informer well formed |
| `InformerProperties.AddRemoveInverse` | pkg/informers/factory.go:74-89 | removing undoes adding an untracked namespace; adding after removing tracks the namespace again |
| `InformerProperties.ClusterScopedIgnoresNamespaces` | pkg/informers/factory.go:92-96 | a cluster-scoped informer ignores add and remove; the per-namespace constructor builds its watch for `""` whatever namespace it gets |
| `InformerProperties.ReconciledNothing` | pkg/informers/factory.go:74-89 | a reconfiguration with nothing to remove or add leaves an informer unchanged |
| `InformerProperties.ReconciledRemoveStep` | pkg/informers/factory.go:76-80 | one more `RemoveNamespace` call extends the set of namespaces removed so far |
| `InformerProperties.ReconciledAddStep` | pkg/informers/factory.go:85-89 | one more `AddNamespace` call extends the set of namespaces added so far |
| `InformerProperties.SeededStep` | pkg/informers/factory.go:140-142 | one more seeding `AddNamespace` on a new informer seeds one more namespace |
| `InformerProperties.SeededNothing` | pkg/informers/factory.go:137-142 | a new informer before any seeding is the informer seeded with no namespace |
| `InformerProperties.SeededTracksScope` | pkg/informers/factory.go:121-125 | a seeded informer is well formed, tracks exactly its scope of the namespaces, and each watch comes from the per-namespace constructor |
| `InformerProperties.ReconciledTracksNewSet` | pkg/informers/factory.go:74-89 | an informer that tracked the old set tracks exactly the new set afterwards; watches of namespaces in both sets are kept; new namespaces get a new, stopped watch that waits for the next `Start` |
| `InformerProperties.SetNamespacesSetsNamespaces` | pkg/informers/factory.go:82 | after `SetNamespaces(xs)` the namespace set is the normalised `xs`, `{""}` when `""` is in `xs`, and the informer map keeps its keys |
| `InformerProperties.SetNamespacesConsistent` | pkg/informers/factory.go:57-61 | from a consistent factory, every informer afterwards tracks exactly its scope of the new namespace set |
| `InformerProperties.SetNamespacesRemovesOnlyStale` | pkg/informers/factory.go:74-80 | a namespaced informer loses namespace `n` if and only if `n` is in old − new; surviving watches are unchanged |
| `InformerProperties.SetNamespacesIdempotent` | pkg/informers/factory.go:62-90 | calling `SetNamespaces` again with the same list changes nothing |
| `InformerProperties.ForResourceConsistent` | pkg/informers/factory.go:116-149 | get-or-create adds at most the requested entry, seeded with the current namespaces; every other entry and the namespace set are unchanged; consistency is kept |
| `InformerProperties.ForResourceIdempotent` | pkg/informers/factory.go:107-119 | asking again for a registered type returns the first informer, whatever scope is requested |
| `InformerProperties.StartConsistent` | pkg/informers/factory.go:152-161 | after `Start` every informer created so far is running, every watch it holds is started, and consistency is kept |
| `InformerProperties.NewNamespacesWaitForStart` | pkg/informers/factory.go:57-61 | a namespace `SetNamespaces` adds to a namespaced informer has a stopped watch, even if the informer runs; the next `Start` starts it |
| `InformerProperties.InitialConsistent` | pkg/informers/factory.go:46-54 | a new factory holds the normalised list, no informers, and is consistent |
| `InformerProperties.AnySequenceConsistent` | pkg/informers/factory.go:57-61 | after any sequence of `SetNamespaces`, `ForResource` and `Start` calls from a consistent factory, every informer still tracks exactly its scope of the namespace set |
| `InformerProperties.ReachableConsistent` | pkg/informers/factory.go:40-61 | in every factory reachable from `NewInformerFactory`, each namespaced informer tracks exactly the namespace set and each cluster-scoped one only `""` |
| `Informers.Informer.constructor` | pkg/informers/factory.go:137 | `NewMultiNamespaceInformer` builds the informer `NewInformer` describes |
| `Informers.Informer.AddNamespace` | pkg/informers/factory.go:92-94 | the informer's new state is `Added` of its old state |
| `Informers.Informer.RemoveNamespace` | pkg/informers/factory.go:92-94 | the informer's new state is `Removed` of its old state |
| `Informers.Informer.NonBlockingRun` | pkg/informers/factory.go:160 | the informer's new state is `Run` of its old state |
| `Informers.Informer.HasSynced` | pkg/informers/factory.go:171 | the informer object's `HasSynced`; when it holds on a well-formed informer, every watch it keeps is started |
| `Informers.InformerFactory.constructor` | pkg/informers/factory.go:46-50 | a factory with no namespaces and an empty informer map, valid and consistent |
| `Informers.InformerFactory.RemoveFromAll` | pkg/informers/factory.go:77-79 | the inner removal loop applies `RemoveNamespace` to every informer once |
| `Informers.InformerFactory.RemoveStale` | pkg/informers/factory.go:76-80 | the outer removal loop removes every namespace of old − new from every informer |
| `Informers.InformerFactory.AddToAll` | pkg/informers/factory.go:86-88 | the inner add loop applies `AddNamespace` to every informer once |
| `Informers.InformerFactory.AddEvery` | pkg/informers/factory.go:84-89 | the outer add loop adds every namespace of the new set to every informer |
| `Informers.InformerFactory.AddStep` | pkg/informers/factory.go:85-89 | one pass of the outer add loop extends, for every informer, the set of namespaces added so far by one |
| `Informers.InformerFactory.Reconfigure` | pkg/informers/factory.go:74-89 | the two loops and the assignment between them leave the new namespace set in place and every informer reconciled from old − new and the new set; the informer map is unchanged |
| `Informers.InformerFactory.SetNamespaces` | pkg/informers/factory.go:62-90 | the factory's new state is `SetNamespacesSpec` of its old state; the informer map is unchanged; validity and consistency are kept |
| `Informers.InformerFactory.ForResource` | pkg/informers/factory.go:112-150 | returns the stored informer unchanged, or a fresh one seeded with the namespaces and stored under the type; the new state is `ForResourceSpec` of the old |
| `Informers.InformerFactory.Seed` | pkg/informers/factory.go:140-142 | the seeding loop leaves the new informer seeded with every current namespace |
| `Informers.InformerFactory.ClusterResource` | pkg/informers/factory.go:95-97 | `ForResource` with cluster scope: a type requested before gets the same informer object back and the map is unchanged; otherwise a fresh informer is stored under the type and every other entry keeps its object |
| `Informers.InformerFactory.NamespacedResource` | pkg/informers/factory.go:103-105 | `ForResource` with namespaced scope: a type requested before gets the same informer object back and the map is unchanged; otherwise a fresh informer is stored under the type and every other entry keeps its object |
| `Informers.InformerFactory.RunAll` | pkg/informers/factory.go:159-161 | `NonBlockingRun` is applied to every informer created so far |
| `Informers.InformerFactory.Start` | pkg/informers/factory.go:155-162 | the factory's new state is `StartSpec` of its old state; validity and consistency are kept |
| `Informers.InformerFactory.CachesSynced` | pkg/informers/factory.go:165-177 | true exactly when every informer created so far reports `HasSynced` |
| `Informers.NewInformerFactory` | pkg/informers/factory.go:41-55 | fails, with no factory, exactly when the list is empty; otherwise returns a new valid, consistent factory whose state is the list normalised with no informers |
| `StringOrder.Insert` | pkg/informers/namespace_set_test.go:114-134 | inserting a new name into a strictly sorted list keeps it strictly sorted and adds exactly that name |
| `StringOrder.SortedUnique` | pkg/informers/namespace_set_test.go:132-133 | two strictly sorted lists with the same names are equal, so the sorted listing is determined by the members |
| `NamespaceSets.Effective` | pkg/informers/namespace_set_test.go:92-111 | the set a `SetNamespaces` argument stands for never mixes `""` with a name, and is empty exactly for nil or an empty list |
| `NamespaceSets.DiffOf` | pkg/informers/namespace_set_test.go:21-57 | names added are new members absent before; names removed were members and are absent after |
| `NamespaceSets.DiffApplies` | pkg/informers/namespace_set_test.go:30-39 | the fired diff turns the old set into the new one; adds and removes are disjoint; only absent names are added and only present names removed |
| `NamespaceSets.DiffEmptyIff` | pkg/informers/namespace_set_test.go:21-39 | no callback fires exactly when the effective set does not change |
| `NamespaceSets.NotifyKeepsMirror` | pkg/informers/namespace_set_test.go:31-39 | a handler whose adds net of removes equal the old members equals the new members after the diff |
| `NamespaceSets.MirrorsNetCount` | pkg/informers/namespace_set_test.go:51-57 | for a mirroring handler, each member was added once more than removed and each non-member as often added as removed |
| `NamespaceSets.NamespaceSet.NewNamespaceSet` | pkg/informers/namespace_set_test.go:93-96 | the set holds the normalised names; it is initialized only when names were given |
| `NamespaceSets.NamespaceSet.NewUninitializedNamespaceSet` | pkg/informers/namespace_set_test.go:127 | an empty, uninitialized set with no handlers |
| `NamespaceSets.NamespaceSet.SetNamespaces` | pkg/informers/namespace_set_test.go:50-57 | nil unconfigures and empties the set; a list configures it with the normalised names; every handler receives exactly the adds and removes of the difference; each handler keeps mirroring the members |
| `NamespaceSets.NamespaceSet.Fire` | pkg/informers/namespace_set_test.go:63-72 | every registered handler receives every callback of the diff |
| `NamespaceSets.NamespaceSet.AddHandler` | pkg/informers/namespace_set_test.go:31-39 | a new handler is appended and has received an add for every current member and no remove |
| `NamespaceSets.NamespaceSet.Initialized` | pkg/informers/namespace_set_test.go:92-111 | an uninitialized set has no members |
| `NamespaceSets.NamespaceSet.Contains` | pkg/informers/namespace_set_test.go:148-178 | true exactly for members, so never on an uninitialized set |
| `NamespaceSets.NamespaceSet.List` | pkg/informers/namespace_set_test.go:114-134 | a strictly sorted list of exactly the members; empty, never nil, for an uninitialized set |
| `NamespaceSetScenarios.InitiallyEmpty` | pkg/informers/namespace_set_test.go:21-29 | adds are exactly `ns-one` and `ns-two`; no removes |
| `NamespaceSetScenarios.InitiallyPopulated` | pkg/informers/namespace_set_test.go:30-39 | adds `ns-one`, `ns-two`, `ns-three`, `new-ns`; removes `ns-one`, `ns-two`, `ns-three` |
| `NamespaceSetScenarios.IncludesNamespaceAll` | pkg/informers/namespace_set_test.go:40-49 | a single add for `""`; no removes |
| `NamespaceSetScenarios.UninitializedLater` | pkg/informers/namespace_set_test.go:50-57 | one add and one remove of `ns-one`; the set ends uninitialized |
| `NamespaceSetScenarios.InitializedTransitions` | pkg/informers/namespace_set_test.go:92-111 | not initialized when new, initialized after a list and after an empty list, uninitialized after nil |
| `NamespaceSetScenarios.ListCases` | pkg/informers/namespace_set_test.go:114-134 | empty lists for the empty and uninitialized sets; `["a","b","c"]` for the set built from `c`, `a`, `b` |
| `NamespaceSetScenarios.ContainsCases` | pkg/informers/namespace_set_test.go:148-178 | false on empty and uninitialized sets and for an absent name; true for a member |

## Left out

- Locking: the factory's mutex is left out, and operations are modelled as sequential calls.
- Goroutines: `NonBlockingRun` starting a goroutine per watch is modelled as marking each watch started.
- Stop channels are left out.
- The namespace set's serialisation of concurrent and re-entrant `SetNamespaces` calls is left out.
- Informers.InformerFactory.CachesSynced: models only the conjunction `WaitForCacheSync` waits for. The bounded polling and the early return on the stop channel are not modelled.
- The client-go constructors are not modelled: `NewFilteredDynamicInformer`, the namespace indexer, `dynamiclister.New` and `NewRuntimeObjectShim`. A watch is an abstract `WatchSource` record, and the lister is not modelled.
- The merged index of cached objects is left out: listing, getting and purging a removed namespace's objects. Only the watches an informer keeps are modelled.
- Whether a watch has synced is set by the external list-watch loop. `Informers.Informer.ObserveSynced` stands for that event; the factory never calls it.
- The `dynamic.Interface` client and `resyncPeriod` are passed through untouched and are not modelled.
- The multi-namespace informer's own source is not part of this model. Its `AddNamespace`, `RemoveNamespace`, `NonBlockingRun` and `HasSynced` are modelled abstractly, as described above. Its constructor giving a cluster-scoped informer one `""` watch is an assumption of the model. So is the rule that a new watch stays stopped until the next `NonBlockingRun`, read from factory.go:57-61 and 152-154.
- The namespace set's source is not part of this model; the class follows the test assertions.
- Handlers on the namespace set are recorded as multisets of received adds and removes. Callback order is not modelled, because Go map iteration order is unspecified. A handler's arbitrary side effects are not modelled.
- NamespaceSets.NamespaceSet.SetNamespaces: each handler receives the whole diff in one step. The per-namespace calls of the Go loop are not modelled one by one.
- The generated per-type wrappers (`pkg/informers/kube/core/v1/service.go`, `pkg/generated/kube/...`) only delegate to the factory and to converters, and are not modelled.
- `sets.Set` is modelled by Dafny's `set<string>`.
- String order is compared by character, which matches Go's byte-wise order on UTF-8 text.
