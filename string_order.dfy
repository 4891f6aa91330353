/**
 The byte-wise order Go's `sort.Strings` uses. For UTF-8 text, comparing bytes
 agrees with comparing code points, so the model compares characters.
 */
module StringOrder {

  /** Strict lexicographic order: a proper prefix comes first. */
  predicate Less(a: string, b: string)
  {
    if |a| == 0 then |b| > 0
    else if |b| == 0 then false
    else if a[0] != b[0] then a[0] < b[0]
    else Less(a[1..], b[1..])
  }

  lemma {:induction false} LessIrreflexive(a: string)
    ensures !Less(a, a)
  {
    if |a| > 0 {
      LessIrreflexive(a[1..]);
    }
  }

  lemma {:induction false} LessAsymmetric(a: string, b: string)
    requires Less(a, b)
    ensures !Less(b, a)
  {
    if |a| > 0 && |b| > 0 && a[0] == b[0] {
      LessAsymmetric(a[1..], b[1..]);
    }
  }

  lemma {:induction false} LessTransitive(a: string, b: string, c: string)
    requires Less(a, b) && Less(b, c)
    ensures Less(a, c)
  {
    if |a| > 0 && a[0] == b[0] && b[0] == c[0] {
      LessTransitive(a[1..], b[1..], c[1..]);
    }
  }

  lemma {:induction false} LessTotal(a: string, b: string)
    requires a != b
    ensures Less(a, b) || Less(b, a)
  {
    if |a| > 0 && |b| > 0 && a[0] == b[0] {
      assert a == [a[0]] + a[1..] && b == [b[0]] + b[1..];
      LessTotal(a[1..], b[1..]);
    }
  }

  /** Sorted and free of duplicates. */
  ghost predicate StrictlySorted(s: seq<string>)
  {
    forall i, j :: 0 <= i < j < |s| ==> Less(s[i], s[j])
  }

  /** Inserts a new name into a strictly sorted list at its place. */
  function Insert(s: seq<string>, x: string): (r: seq<string>)
    requires StrictlySorted(s) && x !in s
    ensures StrictlySorted(r)
    ensures forall y :: y in r <==> y in s || y == x
    ensures |r| == |s| + 1
  {
    if s == [] then [x]
    else if Less(x, s[0]) then
      assert forall j :: 0 < j < |s| ==> Less(x, s[j]) by {
        forall j | 0 < j < |s| ensures Less(x, s[j]) {
          LessTransitive(x, s[0], s[j]);
        }
      }
      [x] + s
    else
      LessTotal(x, s[0]);
      var t := Insert(s[1..], x);
      assert forall y :: y in t ==> Less(s[0], y);
      [s[0]] + t
  }

  /**
   A strictly sorted list is determined by its members: two of them that hold
   the same names are equal.
   */
  lemma {:induction false} SortedUnique(a: seq<string>, b: seq<string>)
    requires StrictlySorted(a) && StrictlySorted(b)
    requires forall x :: x in a <==> x in b
    ensures a == b
  {
    if a != [] {
      assert a[0] in a && b != [] && b[0] in b;
      if a[0] != b[0] {
        var j :| 0 <= j < |a| && a[j] == b[0];
        var k :| 0 <= k < |b| && b[k] == a[0];
        assert Less(a[0], b[0]) && Less(b[0], a[0]);
        LessAsymmetric(a[0], b[0]);
      }
      forall x ensures x in a[1..] <==> x in b[1..] {
        if x in a[1..] {
          var i :| 0 <= i < |a| - 1 && a[1..][i] == x;
          assert Less(a[0], a[i + 1]);
          LessIrreflexive(x);
          assert a[i + 1] == x && x in a && x in b;
          var k :| 0 <= k < |b| && b[k] == x;
          assert k != 0 && b[1..][k - 1] == x;
        }
        if x in b[1..] {
          var i :| 0 <= i < |b| - 1 && b[1..][i] == x;
          assert Less(b[0], b[i + 1]);
          LessIrreflexive(x);
          assert b[i + 1] == x && x in b && x in a;
          var k :| 0 <= k < |a| && a[k] == x;
          assert k != 0 && a[1..][k - 1] == x;
        }
      }
      SortedUnique(a[1..], b[1..]);
    } else {
      forall x ensures multiset(b)[x] == 0 {
        assert x !in a;
      }
      assert multiset(b) == multiset{};
    }
  }
}
