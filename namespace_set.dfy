/**
 The namespace set: the watched namespaces, whether they have been
 configured, and the handlers notified of namespace additions and removals.
 Its behaviour is the one pinned down by the repository's tests.

 A registered handler is modelled by the record of the callbacks it has
 received, kept in registration order; its identity is its position.
 */
module NamespaceSets {
  import opened Wrappers
  import opened Namespaces
  import opened StringOrder

  /** The add and remove callbacks one handler has received, in no particular order. */
  datatype HandlerLog = HandlerLog(adds: multiset<string>, removes: multiset<string>)

  /** The namespaces a reconfiguration adds and removes. */
  datatype Diff = Diff(added: set<string>, removed: set<string>)

  /** The set a `SetNamespaces` argument stands for: a nil slice stands for none. */
  function Effective(xs: Option<seq<string>>): (s: set<string>)
    ensures IsEffective(s)
    ensures s == {} <==> xs == None || xs == Some([])
  {
    match xs
    case None => {}
    case Some(l) => assert l != [] ==> l[0] in l; Normalize(l)
  }

  /** The callbacks that moving from `before` to `after` fires. */
  function DiffOf(before: set<string>, after: set<string>): (d: Diff)
    ensures d.added <= after && d.added !! before
    ensures d.removed <= before && d.removed !! after
  {
    Diff(after - before, before - after)
  }

  /** One handler receiving every callback of a diff. */
  function Notify(h: HandlerLog, d: Diff): HandlerLog
  {
    HandlerLog(h.adds + multiset(d.added), h.removes + multiset(d.removed))
  }

  /**
   A handler mirrors `members` when its adds, net of its removes, are
   exactly those members.
   */
  ghost predicate Mirrors(h: HandlerLog, members: set<string>)
  {
    h.adds == multiset(members) + h.removes
  }

  /**
   The diff is the symmetric difference: applying it to the old set yields
   the new one, its two halves are disjoint, nothing already present is
   added and nothing absent is removed.
   */
  lemma DiffApplies(before: set<string>, after: set<string>)
    ensures var d := DiffOf(before, after);
            (before - d.removed) + d.added == after
            && d.added !! d.removed && d.added !! before && d.removed <= before
  {
  }

  /** A reconfiguration fires no callback exactly when the set does not change. */
  lemma DiffEmptyIff(before: set<string>, after: set<string>)
    ensures DiffOf(before, after) == Diff({}, {}) <==> before == after
  {
    if DiffOf(before, after) == Diff({}, {}) {
      assert after - before == {} && before - after == {};
      assert forall x :: x in before <==> x in after;
    }
  }

  /**
   A handler that mirrored the old set mirrors the new one once it has
   received the diff's callbacks.
   */
  lemma NotifyKeepsMirror(h: HandlerLog, before: set<string>, after: set<string>)
    requires Mirrors(h, before)
    ensures Mirrors(Notify(h, DiffOf(before, after)), after)
  {
    var d := DiffOf(before, after);
    assert multiset(before) + multiset(d.added) == multiset(after) + multiset(d.removed) by {
      forall x ensures (multiset(before) + multiset(d.added))[x] == (multiset(after) + multiset(d.removed))[x] {
        if x in before && x in after {
          assert x !in d.added && x !in d.removed;
        }
      }
    }
  }

  /**
   What mirroring means for one namespace: a handler has seen it added once
   more than removed if it is a member, and as often added as removed
   otherwise.
   */
  lemma MirrorsNetCount(h: HandlerLog, members: set<string>, x: string)
    requires Mirrors(h, members)
    ensures h.adds[x] == h.removes[x] + (if x in members then 1 else 0)
  {
  }

  class NamespaceSet {
    var members: set<string>
    var initialized: bool
    var handlers: seq<HandlerLog>

    /**
     The set's invariant: an unconfigured set is empty, the sentinel is never
     mixed with other names, and every handler mirrors the members.
     */
    ghost predicate Valid()
      reads this
    {
      && (!initialized ==> members == {})
      && IsEffective(members)
      && forall i | 0 <= i < |handlers| :: Mirrors(handlers[i], members)
    }

    /**
     `NewNamespaceSet(namespaces...)`: configured with the given names; with
     no names the variadic slice is nil and the set starts unconfigured.
     */
    constructor NewNamespaceSet(xs: seq<string>)
      ensures Valid()
      ensures initialized == (|xs| > 0) && members == Normalize(xs) && handlers == []
    {
      members := Normalize(xs);
      initialized := |xs| > 0;
      handlers := [];
      NormalizeIsEffective(xs);
    }

    /** `NewUninitializedNamespaceSet`: empty and unconfigured. */
    constructor NewUninitializedNamespaceSet()
      ensures Valid()
      ensures !initialized && members == {} && handlers == []
    {
      members := {};
      initialized := false;
      handlers := [];
    }

    /**
     `SetNamespaces`: a nil argument unconfigures the set and empties it;
     any other list configures it with the normalised names. Every handler
     then receives the removes and adds of the difference.
     */
    method SetNamespaces(xs: Option<seq<string>>)
      requires Valid()
      modifies this
      ensures Valid()
      ensures initialized == xs.Some? && members == Effective(xs)
      ensures |handlers| == |old(handlers)|
      ensures forall i | 0 <= i < |handlers| :: handlers[i] == Notify(old(handlers[i]), DiffOf(old(members), members))
    {
      var newSet: set<string>;
      match xs {
        case None =>
          initialized := false;
          newSet := {};
        case Some(l) =>
          initialized := true;
          newSet := Normalize(l);
          NormalizeIsEffective(l);
      }
      ghost var before := members;
      var d := DiffOf(members, newSet);
      members := newSet;
      Fire(d);
      forall j | 0 <= j < |handlers| ensures Mirrors(handlers[j], members) {
        NotifyKeepsMirror(old(handlers[j]), before, members);
      }
    }

    /** Delivers every callback of `d` to every handler. */
    method Fire(d: Diff)
      modifies this`handlers
      ensures |handlers| == |old(handlers)|
      ensures forall i | 0 <= i < |handlers| :: handlers[i] == Notify(old(handlers[i]), d)
    {
      var i := 0;
      while i < |handlers|
        invariant 0 <= i <= |handlers| && |handlers| == |old(handlers)|
        invariant forall j | 0 <= j < i :: handlers[j] == Notify(old(handlers[j]), d)
        invariant forall j | i <= j < |handlers| :: handlers[j] == old(handlers[j])
      {
        handlers := handlers[i := Notify(handlers[i], d)];
        i := i + 1;
      }
    }

    /**
     `AddHandler`: registers a handler and replays every current member to it
     as an add; the new handler's position identifies it.
     */
    method AddHandler() returns (id: nat)
      requires Valid()
      modifies this
      ensures Valid()
      ensures members == old(members) && initialized == old(initialized)
      ensures id == |old(handlers)| && handlers == old(handlers) + [HandlerLog(multiset(members), multiset{})]
    {
      id := |handlers|;
      handlers := handlers + [HandlerLog(multiset(members), multiset{})];
    }

    /** `Initialized`: an unconfigured set has no members. */
    function Initialized(): (b: bool)
      reads this
      requires Valid()
      ensures !b ==> members == {}
    {
      initialized
    }

    /** `Contains`: a membership test, false on an unconfigured set. */
    function Contains(ns: string): (b: bool)
      reads this
      requires Valid()
      ensures b <==> ns in members
      ensures b ==> initialized
    {
      ns in members
    }

    /**
     `List`: the members sorted, without duplicates; an empty list (never
     nil) for an empty or unconfigured set.
     */
    method List() returns (r: seq<string>)
      requires Valid()
      ensures StrictlySorted(r)
      ensures forall x :: x in r <==> x in members
      ensures |r| == |members|
      ensures !initialized ==> r == []
    {
      r := [];
      var rest := members;
      while rest != {}
        invariant rest <= members
        invariant StrictlySorted(r)
        invariant forall x :: x in r <==> x in members && x !in rest
        invariant |r| + |rest| == |members|
        decreases rest
      {
        var x :| x in rest;
        r := Insert(r, x);
        rest := rest - {x};
      }
    }
  }
}
