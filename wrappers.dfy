/** Option, and facts about sequences without repeated elements, shared by every module. */
module Wrappers {

  datatype Option<+T> = None | Some(value: T)

  /**
   * The element at position `i`. `NoDup` is stated through it, so that its quantifier is
   * only used where a proof names positions with `At`.
   */
  function At<T>(s: seq<T>, i: nat): T
    requires i < |s|
  {
    s[i]
  }

  /** No element occurs twice (Python lists of objects compared by identity). */
  predicate NoDup<T(==)>(s: seq<T>)
  {
    forall i, j :: 0 <= i < j < |s| ==> At(s, i) != At(s, j)
  }

  /** In a duplicate-free sequence, distinct positions hold distinct elements. */
  lemma NoDupDistinct<T>(s: seq<T>, i: nat, j: nat)
    requires NoDup(s) && i < |s| && j < |s| && i != j
    ensures s[i] != s[j]
  {
    if i < j {
      assert At(s, i) != At(s, j);
    } else {
      assert At(s, j) != At(s, i);
    }
  }

  /** In a sequence without repetition a value occurs at most once. */
  lemma NoDupOnce<T>(s: seq<T>, x: T)
    requires NoDup(s)
    ensures forall i, j :: 0 <= i < j < |s| && s[i] == x ==> s[j] != x
  {
    forall i, j | 0 <= i < j < |s| && s[i] == x ensures s[j] != x {
      NoDupDistinct(s, i, j);
    }
  }

  /** In a duplicate-free sequence, no element occurs before its own position. */
  lemma NoDupNotBefore<T>(s: seq<T>, i: nat)
    requires NoDup(s) && i < |s|
    ensures s[i] !in s[..i]
  {
    if s[i] in s[..i] {
      var k :| 0 <= k < i && s[..i][k] == s[i];
      NoDupDistinct(s, k, i);
    }
  }

  /** Dropping the head keeps a sequence duplicate-free, and the head does not recur. */
  lemma NoDupTail<T>(s: seq<T>)
    requires NoDup(s) && s != []
    ensures NoDup(s[1..]) && s[0] !in s[1..]
  {
    var t := s[1..];
    forall i, j | 0 <= i < j < |t| ensures At(t, i) != At(t, j) {
      NoDupDistinct(s, i + 1, j + 1);
    }
    if s[0] in t {
      var k :| 0 <= k < |t| && t[k] == s[0];
      NoDupDistinct(s, 0, k + 1);
    }
  }

  /** Appending an element not yet present keeps a sequence duplicate-free. */
  lemma NoDupAppend<T>(s: seq<T>, x: T)
    requires NoDup(s) && x !in s
    ensures NoDup(s + [x])
  {
    var t := s + [x];
    forall i, j | 0 <= i < j < |t| ensures At(t, i) != At(t, j) {
      if j < |s| {
        NoDupDistinct(s, i, j);
      } else {
        assert t[i] == s[i];
      }
    }
  }

  /** The elements of a sequence as a set. */
  function Elems<T(==)>(s: seq<T>): set<T>
  {
    set x | x in s
  }

  /** A sequence has at least as many positions as distinct elements. */
  lemma {:induction false} ElemsSize<T>(s: seq<T>)
    ensures |Elems(s)| <= |s|
    ensures NoDup(s) ==> |Elems(s)| == |s|
  {
    if s != [] {
      var t := s[1..];
      ElemsSize(t);
      assert Elems(s) == Elems(t) + {s[0]};
      if NoDup(s) {
        NoDupTail(s);
        assert s[0] !in Elems(t);
      }
    }
  }

  /** A duplicate-free sequence whose elements all occur in `b` is no longer than `b`. */
  lemma DistinctSubsetLength<T>(a: seq<T>, b: seq<T>)
    requires NoDup(a)
    requires forall x :: x in a ==> x in b
    ensures |a| <= |b|
  {
    ElemsSize(a);
    ElemsSize(b);
    assert Elems(a) <= Elems(b);
    SubsetSize(Elems(a), Elems(b));
  }

  lemma {:induction false} SubsetSize<T>(x: set<T>, y: set<T>)
    requires x <= y
    ensures |x| <= |y|
  {
    if x != {} {
      var e :| e in x;
      SubsetSize(x - {e}, y - {e});
    }
  }

  /** Being duplicate-free is a property of the multiset of elements. */
  lemma {:induction false} NoDupByMultiset<T>(s: seq<T>)
    ensures NoDup(s) <==> forall x :: multiset(s)[x] <= 1
  {
    if s != [] {
      var t := s[1..];
      assert s == [s[0]] + t;
      NoDupByMultiset(t);
      if NoDup(s) {
        NoDupTail(s);
        forall x ensures multiset(s)[x] <= 1 {
          assert multiset(s)[x] == multiset([s[0]])[x] + multiset(t)[x];
        }
      }
      if forall x :: multiset(s)[x] <= 1 {
        forall x ensures multiset(t)[x] <= 1 {
          assert multiset(s)[x] == multiset([s[0]])[x] + multiset(t)[x];
        }
        assert multiset(s)[s[0]] == 1 + multiset(t)[s[0]];
        assert s[0] !in t;
        forall i, j | 0 <= i < j < |s| ensures At(s, i) != At(s, j) {
          if i == 0 {
            assert s[j] == t[j - 1];
          } else {
            assert s[i] == t[i - 1] && s[j] == t[j - 1];
            assert At(t, i - 1) != At(t, j - 1);
          }
        }
      }
    }
  }

  /** A rearrangement of a duplicate-free sequence is duplicate-free. */
  lemma PermutationKeepsNoDup<T>(a: seq<T>, b: seq<T>)
    requires multiset(a) == multiset(b)
    requires NoDup(a)
    ensures NoDup(b)
  {
    NoDupByMultiset(a);
    NoDupByMultiset(b);
  }

  /** Joining two duplicate-free sequences with no element in common gives a duplicate-free one. */
  lemma NoDupConcat<T>(a: seq<T>, b: seq<T>)
    requires NoDup(a) && NoDup(b)
    requires forall x :: x in a ==> x !in b
    ensures NoDup(a + b)
  {
    forall i, j | 0 <= i < j < |a + b| ensures At(a + b, i) != At(a + b, j) {
      if j < |a| {
        NoDupDistinct(a, i, j);
      } else if i >= |a| {
        NoDupDistinct(b, i - |a|, j - |a|);
      } else {
        assert (a + b)[i] in a && (a + b)[j] == b[j - |a|];
      }
    }
  }

  /** `list.remove(x)`: drops the first occurrence of `x`. */
  function RemoveFirst<T(==)>(s: seq<T>, x: T): (r: seq<T>)
    requires x in s
    ensures |r| == |s| - 1
  {
    if s[0] == x then s[1..] else [s[0]] + RemoveFirst(s[1..], x)
  }

  /** When `x` does not occur before the given position, `remove` takes out exactly that position. */
  lemma {:induction false} RemoveFirstAt<T>(a: seq<T>, x: T, b: seq<T>)
    requires x !in a
    ensures RemoveFirst(a + [x] + b, x) == a + b
    decreases |a|
  {
    if a != [] {
      assert (a + [x] + b)[1..] == a[1..] + [x] + b;
      RemoveFirstAt(a[1..], x, b);
      assert a + b == [a[0]] + (a[1..] + b);
    }
  }
}
