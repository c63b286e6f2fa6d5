/** Sequence operations that the client borrows from JavaScript's Array:
    filter, a concatenating reduce, the order-preserving de-duplication
    `[...new Set(s)]` and the first index of a value. */
module Seqs {

  datatype Option<T> = None | Some(value: T)

  /** `s.filter(keep)`: the elements of `s` that satisfy `keep`, in order. */
  function Filter<T(==,!new)>(s: seq<T>, keep: T -> bool): (r: seq<T>)
    ensures |r| <= |s|
    ensures forall x :: x in r <==> x in s && keep(x)
  {
    if s == [] then []
    else
      assert s == [s[0]] + s[1..];
      (if keep(s[0]) then [s[0]] else []) + Filter(s[1..], keep)
  }

  /** The filter keeps every copy of a kept value and no copy of a dropped one. */
  lemma {:induction false} FilterCounts<T(!new)>(s: seq<T>, keep: T -> bool)
    ensures forall x :: keep(x) ==> multiset(Filter(s, keep))[x] == multiset(s)[x]
    ensures forall x :: !keep(x) ==> multiset(Filter(s, keep))[x] == 0
  {
    if s != [] {
      assert s == [s[0]] + s[1..];
      FilterCounts(s[1..], keep);
    }
  }

  /** Filtering a concatenation filters each part: relative order is kept. */
  lemma {:induction false} FilterConcat<T(!new)>(a: seq<T>, b: seq<T>, keep: T -> bool)
    ensures Filter(a + b, keep) == Filter(a, keep) + Filter(b, keep)
  {
    if a == [] {
      assert a + b == b;
    } else {
      assert (a + b)[0] == a[0];
      assert (a + b)[1..] == a[1..] + b;
      FilterConcat(a[1..], b, keep);
    }
  }

  /** A filter that keeps every element of `s` returns `s` itself. */
  lemma {:induction false} FilterKeepsAll<T(!new)>(s: seq<T>, keep: T -> bool)
    requires forall i :: 0 <= i < |s| ==> keep(s[i])
    ensures Filter(s, keep) == s
  {
    if s != [] {
      FilterKeepsAll(s[1..], keep);
    }
  }

  /** `x` occurs before `y` in `s`. */
  ghost predicate Precedes<T>(s: seq<T>, x: T, y: T) {
    exists a, b :: 0 <= a < b < |s| && s[a] == x && s[b] == y
  }

  /** Filtering keeps the relative order of every two kept elements. */
  lemma FilterKeepsAllOrder<T(!new)>(s: seq<T>, keep: T -> bool)
    ensures forall i, j :: 0 <= i < j < |s| && keep(s[i]) && keep(s[j]) ==> Precedes(Filter(s, keep), s[i], s[j])
  {
    forall i, j | 0 <= i < j < |s| && keep(s[i]) && keep(s[j]) ensures Precedes(Filter(s, keep), s[i], s[j]) {
      FilterKeepsOrder(s, keep, i, j);
    }
  }

  /** Two elements the filter keeps stay in the order they had. */
  lemma FilterKeepsOrder<T(!new)>(s: seq<T>, keep: T -> bool, i: nat, j: nat)
    requires i < j < |s| && keep(s[i]) && keep(s[j])
    ensures exists a, b :: 0 <= a < b < |Filter(s, keep)| && Filter(s, keep)[a] == s[i] && Filter(s, keep)[b] == s[j]
  {
    var front, back := s[..j], s[j..];
    assert s == front + back;
    FilterConcat(front, back, keep);
    var f, g := Filter(front, keep), Filter(back, keep);
    assert g[0] == s[j];
    assert s[i] in front;
    var a :| 0 <= a < |f| && f[a] == s[i];
    assert (f + g)[a] == s[i] && (f + g)[|f|] == s[j];
  }

  /** The concatenation of all lists, in order (`[].concat(...ls)`). */
  function Concat<T>(ls: seq<seq<T>>): (r: seq<T>)
    ensures r == [] <==> forall i :: 0 <= i < |ls| ==> ls[i] == []
  {
    if ls == [] then [] else ls[0] + Concat(ls[1..])
  }

  /** Membership in a concatenation: `x` is in some list. */
  lemma {:induction false} InConcat<T>(ls: seq<seq<T>>, x: T)
    ensures x in Concat(ls) <==> exists i :: 0 <= i < |ls| && x in ls[i]
  {
    if ls != [] {
      InConcat(ls[1..], x);
      assert forall i :: 1 <= i < |ls| ==> ls[i] == ls[1..][i - 1];
      if x in Concat(ls[1..]) {
        var i :| 0 <= i < |ls[1..]| && x in ls[1..][i];
        assert x in ls[i + 1];
      }
    }
  }

  /** The reducer `(arr1, arr2) => [...arr1, ...arr2]` folded from `acc`
      over `rest`. */
  function FoldConcat<T>(acc: seq<T>, rest: seq<seq<T>>): (r: seq<T>)
    ensures r == acc + Concat(rest)
    decreases |rest|
  {
    if rest == [] then acc
    else
      assert acc + Concat(rest) == (acc + rest[0]) + Concat(rest[1..]);
      FoldConcat(acc + rest[0], rest[1..])
  }

  /** `ls.reduce((arr1, arr2) => [...arr1, ...arr2])` called without an
      initial value: on an empty array JavaScript throws a TypeError
      (None); otherwise the first element is the starting accumulator. */
  function ReduceConcat<T>(ls: seq<seq<T>>): (r: Option<seq<T>>)
    ensures r.None? <==> ls == []
    ensures r.Some? ==> r.value == Concat(ls)
  {
    if ls == [] then None
    else
      assert Concat(ls) == ls[0] + Concat(ls[1..]);
      Some(FoldConcat(ls[0], ls[1..]))
  }

  /** Dropping the empty lists from a list of lists changes neither its
      concatenation nor whether that concatenation is empty. */
  lemma {:induction false} ConcatOfNonEmpty<T(!new)>(ls: seq<seq<T>>, keep: seq<T> -> bool)
    requires forall l :: keep(l) <==> |l| > 0
    ensures Concat(Filter(ls, keep)) == Concat(ls)
    ensures Filter(ls, keep) == [] <==> Concat(ls) == []
  {
    if ls != [] {
      ConcatOfNonEmpty(ls[1..], keep);
      if keep(ls[0]) {
        assert Filter(ls, keep) == [ls[0]] + Filter(ls[1..], keep);
        assert ([ls[0]] + Filter(ls[1..], keep))[1..] == Filter(ls[1..], keep);
      } else {
        assert ls[0] == [];
        assert Filter(ls, keep) == Filter(ls[1..], keep);
      }
    }
  }

  /** The flattening in `setAllData`:
      `ls.filter(l => l.length).reduce((arr1, arr2) => [...arr1, ...arr2], ...[])`.
      The spread `...[]` passes no argument at all, so the reduce has no
      initial value and fails when no list is non-empty. */
  function FlattenAsWritten<T(==,!new)>(ls: seq<seq<T>>): (r: Option<seq<T>>)
    ensures r.None? <==> Concat(ls) == []
    ensures r.Some? ==> r.value == Concat(ls)
  {
    var keep := (l: seq<T>) => |l| > 0;
    ConcatOfNonEmpty(ls, keep);
    ReduceConcat(Filter(ls, keep))
  }

  /** The flattening with the initial value `[]` the reduce evidently
      meant to pass: total, and empty exactly when every list is. */
  function Flatten<T>(ls: seq<seq<T>>): (r: seq<T>)
    ensures r == FoldConcat([], ls)
    ensures r == [] <==> forall i :: 0 <= i < |ls| ==> ls[i] == []
  {
    assert [] + Concat(ls) == Concat(ls);
    Concat(ls)
  }

  /** The first position of `x` in `s` (`s.indexOf(x)` for a present `x`). */
  function FirstIndex<T(==)>(s: seq<T>, x: T): (i: nat)
    requires x in s
    ensures i < |s| && s[i] == x && x !in s[..i]
  {
    if s[0] == x then 0
    else
      assert s[1..][..FirstIndex(s[1..], x)] == s[1..1 + FirstIndex(s[1..], x)];
      1 + FirstIndex(s[1..], x)
  }

  /** The first index of an element of a prefix is the same in the whole. */
  lemma FirstIndexOfPrefix<T>(s: seq<T>, n: nat, x: T)
    requires n <= |s| && x in s[..n]
    ensures x in s && FirstIndex(s, x) == FirstIndex(s[..n], x)
  {
    var i, j := FirstIndex(s, x), FirstIndex(s[..n], x);
    assert s[..n][j] == s[j];
    assert s[..n][..j] == s[..j];
    assert forall k :: 0 <= k < i ==> s[k] == s[..i][k];
    assert forall k :: 0 <= k < j ==> s[k] == s[..j][k];
  }

  ghost predicate NoDuplicates<T>(s: seq<T>) {
    forall i, j :: 0 <= i < j < |s| ==> s[i] != s[j]
  }

  /** `[...new Set(s)]`: the distinct values of `s`, each once, in the order
      in which they first occur. */
  function SetSpread<T(==,!new)>(s: seq<T>): (r: seq<T>)
    ensures NoDuplicates(r)
    ensures forall x :: x in r <==> x in s
  {
    if s == [] then []
    else
      var u := SetSpread(s[..|s| - 1]);
      assert s == s[..|s| - 1] + [s[|s| - 1]];
      if s[|s| - 1] in u then u else u + [s[|s| - 1]]
  }

  /** The values of `[...new Set(s)]` are listed in first-occurrence order. */
  lemma {:induction false} SetSpreadOrder<T(!new)>(s: seq<T>)
    ensures forall i, j :: 0 <= i < j < |SetSpread(s)| ==>
      FirstIndex(s, SetSpread(s)[i]) < FirstIndex(s, SetSpread(s)[j])
  {
    if s != [] {
      var init, last := s[..|s| - 1], s[|s| - 1];
      var u := SetSpread(init);
      SetSpreadOrder(init);
      forall y | y in u ensures FirstIndex(s, y) == FirstIndex(init, y) {
        FirstIndexOfPrefix(s, |s| - 1, y);
      }
      if last !in u {
        assert last !in init;
        assert FirstIndex(s, last) == |s| - 1 by {
          assert s[|s| - 1] == last;
          assert s[..|s| - 1] == init;
        }
        var r := u + [last];
        forall i, j | 0 <= i < j < |r|
          ensures r[i] in s && r[j] in s && FirstIndex(s, r[i]) < FirstIndex(s, r[j])
        {
          assert r[i] in u;
          if j < |u| {
            assert r[i] == u[i] && r[j] == u[j];
          } else {
            assert FirstIndex(init, r[i]) < |init|;
          }
        }
      }
    }
  }
}
