/**
 * The bookkeeping of known and unknown quantities: lists of cell pointers,
 * compared by identity, and the reclassification `Set_Known` performs when a
 * quantity becomes known.
 */
module Unknowns {
  import opened Units

  /** No element occurs twice. */
  predicate Distinct<T(==)>(s: seq<T>) {
    forall i, j :: 0 <= i < j < |s| ==> s[i] != s[j]
  }

  /** No element occurs in both. */
  predicate Disjoint<T(==)>(a: seq<T>, b: seq<T>) {
    forall x :: x in a ==> x !in b
  }

  /** `std::find`: the index of the first occurrence of `value`, or `|vec|` (the end) when there is none. */
  function Find<T(==)>(vec: seq<T>, value: T): (i: nat)
    ensures i <= |vec|
    ensures i < |vec| ==> vec[i] == value
    ensures forall k :: 0 <= k < i ==> vec[k] != value
  {
    if |vec| == 0 then 0
    else if vec[0] == value then 0
    else 1 + Find(vec[1..], value)
  }

  /** `in_vector`: whether `find` stops before the end. */
  function InVector<T(==)>(vec: seq<T>, value: T): (b: bool)
    ensures b <==> value in vec
  {
    Find(vec, value) != |vec|
  }

  /** `vec` without any occurrence of `value`, the others in their original order. */
  function RemoveAll<T(==)>(vec: seq<T>, value: T): (r: seq<T>)
    ensures |r| <= |vec|
    ensures value !in r
    ensures forall x :: x in r ==> x in vec
  {
    if |vec| == 0 then []
    else if vec[0] == value then RemoveAll(vec[1..], value)
    else [vec[0]] + RemoveAll(vec[1..], value)
  }

  lemma {:induction false} RemoveAllAppend<T>(a: seq<T>, b: seq<T>, value: T)
    ensures RemoveAll(a + b, value) == RemoveAll(a, value) + RemoveAll(b, value)
  {
    if |a| == 0 {
      assert a + b == b;
    } else {
      assert (a + b)[1..] == a[1..] + b;
      RemoveAllAppend(a[1..], b, value);
    }
  }

  /**
   * Removal takes out every copy of `value` and exactly that: every other
   * element keeps its number of occurrences.
   */
  lemma {:induction false} RemoveAllCounts<T>(vec: seq<T>, value: T)
    ensures multiset(RemoveAll(vec, value)) == multiset(vec)[value := 0]
  {
    if |vec| > 0 {
      RemoveAllCounts(vec[1..], value);
      assert vec == [vec[0]] + vec[1..];
      assert multiset(vec) == multiset{vec[0]} + multiset(vec[1..]);
    }
  }

  /** Removing an absent value leaves the list as it is. */
  lemma {:induction false} RemoveAllAbsent<T>(vec: seq<T>, value: T)
    requires value !in vec
    ensures RemoveAll(vec, value) == vec
  {
    if |vec| > 0 {
      assert value !in vec[1..];
      RemoveAllAbsent(vec[1..], value);
    }
  }

  /** Removal keeps a duplicate-free list duplicate-free. */
  lemma {:induction false} RemoveAllDistinct<T>(vec: seq<T>, value: T)
    requires Distinct(vec)
    ensures Distinct(RemoveAll(vec, value))
  {
    if |vec| > 0 {
      RemoveAllDistinct(vec[1..], value);
      if vec[0] != value {
        RemoveAllCounts(vec[1..], value);
        assert vec[0] !in vec[1..];
        assert multiset(vec[1..])[vec[0]] == 0;
        assert vec[0] !in RemoveAll(vec[1..], value) by {
          assert multiset(RemoveAll(vec[1..], value))[vec[0]] == 0;
        }
        var r := RemoveAll(vec[1..], value);
        assert RemoveAll(vec, value) == [vec[0]] + r;
        forall i, j | 0 <= i < j < |[vec[0]] + r|
          ensures ([vec[0]] + r)[i] != ([vec[0]] + r)[j]
        {
          if i > 0 {
            assert ([vec[0]] + r)[i] == r[i - 1];
          }
          assert ([vec[0]] + r)[j] == r[j - 1];
        }
      }
    }
  }

  /** `std::remove` followed by `erase`: a single pass that keeps what differs from `value`. */
  method EraseRemove<T(==)>(vec: seq<T>, value: T) returns (r: seq<T>)
    ensures r == RemoveAll(vec, value)
  {
    r := [];
    var i := 0;
    while i < |vec|
      invariant 0 <= i <= |vec|
      invariant r == RemoveAll(vec[..i], value)
    {
      assert vec[..i + 1] == vec[..i] + [vec[i]];
      RemoveAllAppend(vec[..i], [vec[i]], value);
      assert RemoveAll([vec[i]], value) == if vec[i] == value then [] else [vec[i]] by {
        assert [vec[i]][1..] == [];
      }
      if vec[i] != value {
        r := r + [vec[i]];
      }
      i := i + 1;
    }
    assert vec[..i] == vec;
  }

  /** The two lists after `p` became known: appended to `known` unless already there, gone from `unknown`. */
  datatype Lists<T> = Lists(known: seq<T>, unknown: seq<T>)

  function Reclassified<T(==)>(known: seq<T>, unknown: seq<T>, p: T): (l: Lists<T>)
    ensures |known| <= |l.known| <= |known| + 1 && l.known[..|known|] == known
    ensures p in l.known && p !in l.unknown
    ensures |l.unknown| <= |unknown|
  {
    Lists(if p in known then known else known + [p],
          if p in unknown then RemoveAll(unknown, p) else unknown)
  }

  /**
   * After reclassification `p` is known and not unknown, and every other
   * element is known, respectively unknown, exactly when it was before.
   */
  lemma ReclassifiedMoves<T>(known: seq<T>, unknown: seq<T>, p: T)
    ensures p in Reclassified(known, unknown, p).known
    ensures p !in Reclassified(known, unknown, p).unknown
    ensures forall x :: x != p ==> (x in Reclassified(known, unknown, p).known <==> x in known)
    ensures forall x :: x != p ==> (x in Reclassified(known, unknown, p).unknown <==> x in unknown)
  {
    RemoveAllCounts(unknown, p);
    var u := Reclassified(known, unknown, p).unknown;
    assert p !in u by {
      if p in unknown {
        assert multiset(u)[p] == 0;
      }
    }
    forall x | x != p
      ensures x in u <==> x in unknown
    {
      if p in unknown {
        assert x in u <==> multiset(u)[x] > 0;
        assert x in unknown <==> multiset(unknown)[x] > 0;
      }
    }
  }

  /** The guard on the removal changes nothing: removing an absent element is the identity. */
  lemma ReclassifiedIsUnguardedRemoval<T>(known: seq<T>, unknown: seq<T>, p: T)
    ensures Reclassified(known, unknown, p).unknown == RemoveAll(unknown, p)
  {
    if p !in unknown {
      RemoveAllAbsent(unknown, p);
    }
  }

  /** A second identical call leaves both lists as the first left them. */
  lemma ReclassifiedIdempotent<T>(known: seq<T>, unknown: seq<T>, p: T)
    ensures var once := Reclassified(known, unknown, p);
            Reclassified(once.known, once.unknown, p) == once
  {
    ReclassifiedMoves(known, unknown, p);
  }

  /** Neither list gains a duplicate. */
  lemma ReclassifiedDistinct<T>(known: seq<T>, unknown: seq<T>, p: T)
    requires Distinct(known) && Distinct(unknown)
    ensures Distinct(Reclassified(known, unknown, p).known)
    ensures Distinct(Reclassified(known, unknown, p).unknown)
  {
    if p in unknown {
      RemoveAllDistinct(unknown, p);
    }
    var k := Reclassified(known, unknown, p).known;
    if p !in known {
      forall i, j | 0 <= i < j < |k|
        ensures k[i] != k[j]
      {
        if j == |known| {
          assert k[i] == known[i];
        }
      }
    }
  }

  /** Known and unknown stay disjoint. */
  lemma ReclassifiedDisjoint<T>(known: seq<T>, unknown: seq<T>, p: T)
    requires Disjoint(known, unknown)
    ensures Disjoint(Reclassified(known, unknown, p).known, Reclassified(known, unknown, p).unknown)
  {
    ReclassifiedMoves(known, unknown, p);
  }

  /** A quantity that was unknown exactly once moves over: the total number of entries is kept. */
  lemma ReclassifiedKeepsTotal<T>(known: seq<T>, unknown: seq<T>, p: T)
    requires p !in known
    requires multiset(unknown)[p] == 1
    ensures |Reclassified(known, unknown, p).known| + |Reclassified(known, unknown, p).unknown|
         == |known| + |unknown|
  {
    RemoveAllCounts(unknown, p);
    var u := RemoveAll(unknown, p);
    assert |multiset(u)| == |multiset(unknown)| - 1 by {
      assert multiset(unknown) == multiset(u) + multiset{p};
    }
  }

  /**
   * `Set_Known`: writes `value` into the cell `p`, appends `p` to `known`
   * unless it is there already, and erases every occurrence of `p` from
   * `unknown`.
   */
  method SetKnown<D>(p: Cell<D>, value: real, known: seq<Cell<D>>, unknown: seq<Cell<D>>)
    returns (known': seq<Cell<D>>, unknown': seq<Cell<D>>)
    modifies p
    ensures p.val == value
    ensures Lists(known', unknown') == Reclassified(known, unknown, p)
  {
    p.val := value;
    known' := known;
    if !InVector(known, p) {
      known' := known + [p];
    }
    unknown' := unknown;
    if InVector(unknown, p) {
      unknown' := EraseRemove(unknown, p);
    }
  }
}
