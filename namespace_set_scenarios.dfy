/**
 The scenarios of the repository's namespace-set tests, restated over the
 model: each method builds the set as the test does, registers a recording
 handler, and returns what the test compares.
 */
module NamespaceSetScenarios {
  import opened Wrappers
  import opened Namespaces
  import opened StringOrder
  import opened NamespaceSets

  /** From a new empty set, two names are added and nothing is removed. */
  method InitiallyEmpty() returns (adds: multiset<string>, removes: multiset<string>)
    ensures adds == multiset{"ns-one", "ns-two"} && removes == multiset{}
  {
    var s := new NamespaceSet.NewNamespaceSet([]);
    var id := s.AddHandler();
    s.SetNamespaces(Some(["ns-one", "ns-two"]));
    assert s.members == {"ns-one", "ns-two"};
    adds, removes := s.handlers[id].adds, s.handlers[id].removes;
  }

  /**
   A handler registered on a set holding `ns-one` is told of it, then of
   every name added and removed by two reconfigurations.
   */
  method InitiallyPopulated() returns (adds: multiset<string>, removes: multiset<string>)
    ensures adds == multiset{"ns-one", "ns-two", "ns-three", "new-ns"}
    ensures removes == multiset{"ns-one", "ns-two", "ns-three"}
  {
    var s := new NamespaceSet.NewNamespaceSet(["ns-one"]);
    assert s.members == {"ns-one"};
    var id := s.AddHandler();
    PopulatedMembers();
    PopulatedFirstLog(s.handlers[id]);
    s.SetNamespaces(Some(["ns-one", "ns-two", "ns-three"]));
    ghost var h1 := s.handlers[id];
    s.SetNamespaces(Some(["new-ns"]));
    PopulatedSecondLog(h1);
    adds, removes := s.handlers[id].adds, s.handlers[id].removes;
  }

  /** The namespace sets the populated scenario configures. */
  lemma PopulatedMembers()
    ensures Normalize(["ns-one"]) == {"ns-one"}
    ensures Effective(Some(["ns-one", "ns-two", "ns-three"])) == {"ns-one", "ns-two", "ns-three"}
    ensures Effective(Some(["new-ns"])) == {"new-ns"}
  {
  }

  /** The first reconfiguration of the populated scenario adds `ns-two` and `ns-three`. */
  lemma PopulatedFirstLog(h0: HandlerLog)
    requires h0 == HandlerLog(multiset{"ns-one"}, multiset{})
    ensures Notify(h0, DiffOf({"ns-one"}, {"ns-one", "ns-two", "ns-three"}))
            == HandlerLog(multiset{"ns-one", "ns-two", "ns-three"}, multiset{})
  {
    var d := DiffOf({"ns-one"}, {"ns-one", "ns-two", "ns-three"});
    assert "ns-two"[3] != "ns-one"[3] && "ns-three"[3] != "ns-one"[3] && "ns-two"[4] != "ns-three"[4];
    assert d.added == {"ns-two", "ns-three"} && d.removed == {};
    assert multiset(d.added) == multiset{"ns-two", "ns-three"};
  }

  /** The second reconfiguration of the populated scenario swaps every name for `new-ns`. */
  lemma PopulatedSecondLog(h1: HandlerLog)
    requires h1 == HandlerLog(multiset{"ns-one", "ns-two", "ns-three"}, multiset{})
    ensures Notify(h1, DiffOf({"ns-one", "ns-two", "ns-three"}, {"new-ns"}))
            == HandlerLog(multiset{"ns-one", "ns-two", "ns-three", "new-ns"}, multiset{"ns-one", "ns-two", "ns-three"})
  {
    var d := DiffOf({"ns-one", "ns-two", "ns-three"}, {"new-ns"});
    assert "new-ns"[1] != "ns-one"[1] && "ns-two"[3] != "ns-one"[3] && "ns-three"[3] != "ns-one"[3] && "ns-two"[4] != "ns-three"[4];
    assert "new-ns"[1] != "ns-two"[1] && "new-ns"[1] != "ns-three"[1];
    assert d.added == {"new-ns"} && d.removed == {"ns-one", "ns-two", "ns-three"};
    assert multiset(d.removed) == multiset{"ns-one", "ns-two", "ns-three"};
  }

  /** The sentinel beside another name yields one add, for the sentinel. */
  method IncludesNamespaceAll() returns (adds: multiset<string>, removes: multiset<string>)
    ensures adds == multiset{NamespaceAll} && removes == multiset{}
  {
    var s := new NamespaceSet.NewNamespaceSet([]);
    var id := s.AddHandler();
    s.SetNamespaces(Some([NamespaceAll, "ns-ignored"]));
    adds, removes := s.handlers[id].adds, s.handlers[id].removes;
  }

  /** A nil reconfiguration removes every member and unconfigures the set. */
  method UninitializedLater() returns (adds: multiset<string>, removes: multiset<string>, initialized: bool)
    ensures adds == multiset{"ns-one"} && removes == multiset{"ns-one"} && !initialized
  {
    var s := new NamespaceSet.NewNamespaceSet(["ns-one"]);
    assert s.members == {"ns-one"};
    var id := s.AddHandler();
    s.SetNamespaces(None);
    adds, removes := s.handlers[id].adds, s.handlers[id].removes;
    initialized := s.Initialized();
  }

  /**
   `Initialized` along the test's calls: new, after a non-empty list, after
   an empty list, after nil.
   */
  method InitializedTransitions() returns (fresh0: bool, afterList: bool, afterEmpty: bool, afterNil: bool)
    ensures !fresh0 && afterList && afterEmpty && !afterNil
  {
    var s := new NamespaceSet.NewNamespaceSet([]);
    fresh0 := s.Initialized();
    s.SetNamespaces(Some(["foo"]));
    afterList := s.Initialized();
    s.SetNamespaces(Some([]));
    afterEmpty := s.Initialized();
    s.SetNamespaces(None);
    afterNil := s.Initialized();
  }

  /** `List` on an empty, an unconfigured and a populated set. */
  method ListCases() returns (empty: seq<string>, uninitialized: seq<string>, populated: seq<string>)
    ensures empty == [] && uninitialized == [] && populated == ["a", "b", "c"]
  {
    var s1 := new NamespaceSet.NewNamespaceSet([]);
    empty := s1.List();
    var s2 := new NamespaceSet.NewUninitializedNamespaceSet();
    uninitialized := s2.List();
    var s3 := new NamespaceSet.NewNamespaceSet(["c", "a", "b"]);
    assert s3.members == {"a", "b", "c"};
    populated := s3.List();
    assert Less("a", "b") && Less("b", "c") && Less("a", "c");
    SortedUnique(populated, ["a", "b", "c"]);
  }

  /** `Contains` on an empty set, an unconfigured set, a member and a stranger. */
  method ContainsCases() returns (empty: bool, uninitialized: bool, found: bool, notFound: bool)
    ensures !empty && !uninitialized && found && !notFound
  {
    var s1 := new NamespaceSet.NewNamespaceSet([]);
    empty := s1.Contains("a");
    var s2 := new NamespaceSet.NewUninitializedNamespaceSet();
    uninitialized := s2.Contains("a");
    var s3 := new NamespaceSet.NewNamespaceSet(["c", "a", "b"]);
    found := s3.Contains("b");
    var s4 := new NamespaceSet.NewNamespaceSet(["e", "f", "g"]);
    notFound := s4.Contains("z");
  }
}
