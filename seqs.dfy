/** Option, plus the whole-table operations the pipeline is built from:
    row filters, column maps and a sort on an integer key. */
module Seqs {

  datatype Option<+T> = None | Some(value: T)

  /** Rows of `s` satisfying `p`, in their original order (a boolean-mask selection). */
  function Filter<T>(s: seq<T>, p: T -> bool): (r: seq<T>)
    ensures |r| <= |s|
    ensures forall i :: 0 <= i < |r| ==> r[i] in s && p(r[i])
    ensures forall i :: 0 <= i < |s| && p(s[i]) ==> s[i] in r
    decreases |s|
  {
    if s == [] then []
    else if p(s[0]) then [s[0]] + Filter(s[1..], p)
    else Filter(s[1..], p)
  }

  lemma {:induction false} FilterAppend<T>(a: seq<T>, b: seq<T>, p: T -> bool)
    ensures Filter(a + b, p) == Filter(a, p) + Filter(b, p)
    decreases |a|
  {
    if a == [] {
      assert a + b == b;
    } else {
      assert (a + b)[1..] == a[1..] + b;
      FilterAppend(a[1..], b, p);
    }
  }

  /** Filtering with a predicate that no row satisfies leaves nothing. */
  lemma {:induction false} FilterNone<T>(s: seq<T>, p: T -> bool)
    requires forall i :: 0 <= i < |s| ==> !p(s[i])
    ensures Filter(s, p) == []
    decreases |s|
  {
    if s != [] {
      FilterNone(s[1..], p);
    }
  }

  /** A selected row is kept exactly as many times as it occurs; a rejected one not at all. */
  lemma {:induction false} FilterMultiset<T>(s: seq<T>, p: T -> bool)
    ensures forall x :: multiset(Filter(s, p))[x] == if p(x) then multiset(s)[x] else 0
    decreases |s|
  {
    if s != [] {
      FilterMultiset(s[1..], p);
      assert s == [s[0]] + s[1..];
    }
  }

  /** Order is kept: the `k`-th selected row sits at some position `j` of `s`,
      and the rows selected before it are exactly those selected from `s[..j]`. */
  lemma {:induction false} FilterIndex<T>(s: seq<T>, p: T -> bool, k: nat)
    requires k < |Filter(s, p)|
    ensures exists j :: 0 <= j < |s| && s[j] == Filter(s, p)[k] && Filter(s[..j], p) == Filter(s, p)[..k]
    decreases |s|
  {
    var r := Filter(s, p);
    if p(s[0]) && k == 0 {
      assert s[..0] == [];
    } else {
      var k' := if p(s[0]) then k - 1 else k;
      FilterIndex(s[1..], p, k');
      var j' :| 0 <= j' < |s[1..]| && s[1..][j'] == Filter(s[1..], p)[k'] &&
                Filter(s[1..][..j'], p) == Filter(s[1..], p)[..k'];
      var j := j' + 1;
      assert s[..j][0] == s[0] && s[..j][1..] == s[1..][..j'];
      assert s[j] == r[k];
    }
  }

  /** A row the predicate rejects makes the selection strictly shorter. */
  lemma {:induction false} FilterDrops<T>(s: seq<T>, p: T -> bool, j: nat)
    requires j < |s| && !p(s[j])
    ensures |Filter(s, p)| < |s|
    decreases |s|
  {
    if j > 0 {
      FilterDrops(s[1..], p, j - 1);
    }
  }

  /** Filtering with a predicate that exactly one row satisfies selects that row. */
  lemma {:induction false} FilterUnique<T>(s: seq<T>, p: T -> bool, j: nat)
    requires j < |s|
    requires forall i :: 0 <= i < |s| ==> (p(s[i]) <==> i == j)
    ensures Filter(s, p) == [s[j]]
    decreases |s|
  {
    if j == 0 {
      FilterNone(s[1..], p);
    } else {
      FilterUnique(s[1..], p, j - 1);
    }
  }

  /** Pre-selecting with a weaker predicate does not change a selection. */
  lemma {:induction false} FilterNarrow<T>(s: seq<T>, p: T -> bool, q: T -> bool)
    requires forall i :: 0 <= i < |s| && q(s[i]) ==> p(s[i])
    ensures Filter(Filter(s, p), q) == Filter(s, q)
    decreases |s|
  {
    if s != [] {
      FilterNarrow(s[1..], p, q);
    }
  }

  /** A column computed row by row. */
  function Map<T, U>(s: seq<T>, f: T -> U): (r: seq<U>)
    ensures |r| == |s|
    ensures forall i :: 0 <= i < |s| ==> r[i] == f(s[i])
  {
    seq(|s|, i requires 0 <= i < |s| => f(s[i]))
  }

  /** Mapping one more element appends its image. */
  lemma MapSnoc<T, U>(s: seq<T>, x: T, f: T -> U)
    ensures Map(s + [x], f) == Map(s, f) + [f(x)]
  {
  }

  /** A selected row's mapped value appears in the mapped selection. */
  lemma MapFilterHas<T, U>(s: seq<T>, p: T -> bool, f: T -> U, j: nat)
    requires j < |s| && p(s[j])
    ensures f(s[j]) in Map(Filter(s, p), f)
  {
    var r := Filter(s, p);
    assert s[j] in r;
    var k :| 0 <= k < |r| && r[k] == s[j];
    assert Map(r, f)[k] == f(s[j]);
  }

  /** Every value of a mapped selection comes from a selected row. */
  lemma MapFilterFrom<T, U>(s: seq<T>, p: T -> bool, f: T -> U, y: U)
    requires y in Map(Filter(s, p), f)
    ensures exists j :: 0 <= j < |s| && p(s[j]) && y == f(s[j])
  {
    var r := Filter(s, p);
    var k :| 0 <= k < |r| && Map(r, f)[k] == y;
    assert r[k] in s;
    var j :| 0 <= j < |s| && s[j] == r[k];
    assert p(s[j]) && y == f(s[j]);
  }

  function AsSeq<T>(o: Option<T>): seq<T>
  {
    if o.Some? then [o.value] else []
  }

  /** The present values of `f` over `s`, in order. */
  function FilterMap<T, U>(s: seq<T>, f: T -> Option<U>): seq<U>
    decreases |s|
  {
    if s == [] then [] else AsSeq(f(s[0])) + FilterMap(s[1..], f)
  }

  /** At most one value per element. */
  lemma {:induction false} FilterMapLength<T, U>(s: seq<T>, f: T -> Option<U>)
    ensures |FilterMap(s, f)| <= |s|
    decreases |s|
  {
    if s != [] {
      FilterMapLength(s[1..], f);
    }
  }

  /** The values are exactly those `f` yields for some element. */
  lemma {:induction false} FilterMapMembers<T, U>(s: seq<T>, f: T -> Option<U>, y: U)
    ensures y in FilterMap(s, f) <==> exists j :: 0 <= j < |s| && f(s[j]) == Some(y)
    decreases |s|
  {
    if s != [] {
      assert y in FilterMap(s, f) <==> f(s[0]) == Some(y) || y in FilterMap(s[1..], f);
      FilterMapMembers(s[1..], f, y);
      if y in FilterMap(s[1..], f) {
        var j :| 0 <= j < |s[1..]| && f(s[1..][j]) == Some(y);
        assert f(s[j + 1]) == Some(y);
      }
      if exists j :: 0 <= j < |s| && f(s[j]) == Some(y) {
        var j :| 0 <= j < |s| && f(s[j]) == Some(y);
        if j > 0 {
          assert f(s[1..][j - 1]) == Some(y);
        }
      }
    }
  }

  /** Selecting, then collecting: the values come from selected elements, at most one each. */
  lemma FilterMapOfFilter<T, U>(s: seq<T>, p: T -> bool, f: T -> Option<U>, y: U)
    ensures y in FilterMap(Filter(s, p), f) <==> exists j :: 0 <= j < |s| && p(s[j]) && f(s[j]) == Some(y)
    ensures |FilterMap(Filter(s, p), f)| <= |s|
  {
    var r := Filter(s, p);
    FilterMapLength(r, f);
    FilterMapMembers(r, f, y);
    if y in FilterMap(r, f) {
      var k :| 0 <= k < |r| && f(r[k]) == Some(y);
      assert r[k] in s;
      var j :| 0 <= j < |s| && s[j] == r[k];
      assert p(s[j]) && f(s[j]) == Some(y);
    }
    if exists j :: 0 <= j < |s| && p(s[j]) && f(s[j]) == Some(y) {
      var j :| 0 <= j < |s| && p(s[j]) && f(s[j]) == Some(y);
      assert s[j] in r;
      var k :| 0 <= k < |r| && r[k] == s[j];
      assert f(r[k]) == Some(y);
    }
  }

  ghost predicate SortedBy<T>(s: seq<T>, key: T -> int)
  {
    forall i, j :: 0 <= i < j < |s| ==> key(s[i]) <= key(s[j])
  }

  /** Places `x` in front of the first element whose key is not smaller,
      so earlier elements stay ahead of later ones with the same key. */
  function Insert<T>(x: T, s: seq<T>, key: T -> int): seq<T>
  {
    if s == [] || key(x) <= key(s[0]) then [x] + s
    else [s[0]] + Insert(x, s[1..], key)
  }

  /** The rows of `s` ordered by ascending `key` (a sort of a table on one column). */
  function SortBy<T>(s: seq<T>, key: T -> int): seq<T>
  {
    if s == [] then [] else Insert(s[0], SortBy(s[1..], key), key)
  }

  /** Inserting adds exactly `x`. */
  lemma {:induction false} InsertPerm<T>(x: T, s: seq<T>, key: T -> int)
    ensures multiset(Insert(x, s, key)) == multiset(s) + multiset{x}
    ensures |Insert(x, s, key)| == |s| + 1
    decreases |s|
  {
    if s != [] && key(x) > key(s[0]) {
      InsertPerm(x, s[1..], key);
      assert s == [s[0]] + s[1..];
    }
  }

  /** A lower bound on the keys of `s` and of `x` bounds the keys after insertion. */
  lemma {:induction false} InsertBounded<T>(x: T, s: seq<T>, key: T -> int, lo: int)
    requires lo <= key(x)
    requires forall i :: 0 <= i < |s| ==> lo <= key(s[i])
    ensures forall i :: 0 <= i < |Insert(x, s, key)| ==> lo <= key(Insert(x, s, key)[i])
    decreases |s|
  {
    if s != [] && key(x) > key(s[0]) {
      InsertBounded(x, s[1..], key, lo);
    }
  }

  /** Inserting into a sorted sequence keeps it sorted. */
  lemma {:induction false} InsertSorted<T>(x: T, s: seq<T>, key: T -> int)
    requires SortedBy(s, key)
    ensures SortedBy(Insert(x, s, key), key)
    decreases |s|
  {
    if s == [] || key(x) <= key(s[0]) {
      var r := [x] + s;
      assert Insert(x, s, key) == r;
      forall i, j | 0 <= i < j < |r| ensures key(r[i]) <= key(r[j]) {
        if i > 0 {
          assert r[i] == s[i - 1] && r[j] == s[j - 1];
        } else {
          assert r[j] == s[j - 1];
          assert key(s[0]) <= key(s[j - 1]);
        }
      }
    } else {
      var rest := Insert(x, s[1..], key);
      var r := [s[0]] + rest;
      assert Insert(x, s, key) == r;
      InsertSorted(x, s[1..], key);
      InsertBounded(x, s[1..], key, key(s[0]));
      forall i, j | 0 <= i < j < |r| ensures key(r[i]) <= key(r[j]) {
        assert r[j] == rest[j - 1];
        if i > 0 {
          assert r[i] == rest[i - 1];
        }
      }
    }
  }

  /** The sort returns a sorted permutation of its input. */
  lemma {:induction false} SortBySorted<T>(s: seq<T>, key: T -> int)
    ensures SortedBy(SortBy(s, key), key)
    ensures multiset(SortBy(s, key)) == multiset(s)
    ensures |SortBy(s, key)| == |s|
  {
    if s != [] {
      SortBySorted(s[1..], key);
      InsertSorted(s[0], SortBy(s[1..], key), key);
      InsertPerm(s[0], SortBy(s[1..], key), key);
      assert SortBy(s, key) == Insert(s[0], SortBy(s[1..], key), key);
      assert multiset(s) == multiset(s[1..]) + multiset{s[0]} by {
        assert s == [s[0]] + s[1..];
      }
    }
  }
}
