/**
 The namespace vocabulary shared by the informer factory and the namespace set:
 the all-namespaces sentinel and the normalisation every namespace list goes
 through before it becomes a set of watched namespaces.
 */
module Namespaces {

  /** `metav1.NamespaceAll`: the empty name stands for every namespace. */
  const NamespaceAll: string := ""

  /** The members of a list, duplicates removed. */
  function Members(xs: seq<string>): set<string>
  {
    set x | x in xs
  }

  /**
   The effective namespace set of a list: duplicates are dropped, and when the
   sentinel is present every other name is discarded, since one informer for
   all namespaces already covers them.
   */
  function Normalize(xs: seq<string>): (s: set<string>)
    ensures NamespaceAll in xs ==> s == {NamespaceAll}
    ensures NamespaceAll !in xs ==> forall x :: x in s <==> x in xs
  {
    var all := Members(xs);
    if NamespaceAll in all then {NamespaceAll} else all
  }

  /** A normalised set never mixes the sentinel with a concrete namespace. */
  ghost predicate IsEffective(s: set<string>)
  {
    NamespaceAll in s ==> s == {NamespaceAll}
  }

  /** Every normalised set is effective. */
  lemma NormalizeIsEffective(xs: seq<string>)
    ensures IsEffective(Normalize(xs))
  {
  }

  /**
   Normalisation depends only on which names occur, not on their order or
   repetition.
   */
  lemma NormalizeIgnoresOrder(xs: seq<string>, ys: seq<string>)
    requires forall x :: x in xs <==> x in ys
    ensures Normalize(xs) == Normalize(ys)
  {
    assert Members(xs) == Members(ys);
  }

  /** Listing a normalised set in any order and normalising again changes nothing. */
  lemma NormalizeIdempotent(xs: seq<string>, listing: seq<string>)
    requires forall x :: x in listing <==> x in Normalize(xs)
    ensures Normalize(listing) == Normalize(xs)
  {
    if NamespaceAll in xs {
      assert NamespaceAll in listing;
    } else {
      assert Members(listing) == Members(xs);
    }
  }

  /** Adding names beside the sentinel has the same effect as the sentinel alone. */
  lemma SentinelAbsorbs(xs: seq<string>)
    ensures Normalize([NamespaceAll] + xs) == Normalize([NamespaceAll])
  {
    assert NamespaceAll in [NamespaceAll] + xs;
    assert NamespaceAll in [NamespaceAll];
  }
}
