/**
 Go's sort.SliceStable and sort.Strings: a stable in-place sort, specified by insertion on sequences.
 An order is given by its "not after" relation, which must be total and transitive for the result to be sorted.
 */
module Sorting {

  ghost predicate TotalPreorder<T(!new)>(le: (T, T) -> bool) {
    && (forall x, y :: le(x, y) || le(y, x))
    && (forall x, y, z :: le(x, y) && le(y, z) ==> le(x, z))
  }

  predicate Sorted<T>(le: (T, T) -> bool, s: seq<T>) {
    forall i, j | 0 <= i < j < |s| :: le(s[i], s[j])
  }

  /** Puts x after everything that may stand before it. */
  function Insert<T>(le: (T, T) -> bool, s: seq<T>, x: T): (r: seq<T>)
    ensures |r| == |s| + 1
  {
    if s == [] then [x]
    else if le(s[|s| - 1], x) then s + [x]
    else Insert(le, s[..|s| - 1], x) + [s[|s| - 1]]
  }

  function StableSort<T>(le: (T, T) -> bool, s: seq<T>): (r: seq<T>)
    ensures |r| == |s|
  {
    if s == [] then [] else Insert(le, StableSort(le, s[..|s| - 1]), s[|s| - 1])
  }

  lemma {:induction false} InsertKeepsElements<T>(le: (T, T) -> bool, s: seq<T>, x: T)
    ensures multiset(Insert(le, s, x)) == multiset(s) + multiset{x}
  {
    if s != [] && !le(s[|s| - 1], x) {
      InsertKeepsElements(le, s[..|s| - 1], x);
      assert s == s[..|s| - 1] + [s[|s| - 1]];
    }
  }

  lemma {:induction false} SortKeepsElements<T>(le: (T, T) -> bool, s: seq<T>)
    ensures multiset(StableSort(le, s)) == multiset(s)
  {
    if s != [] {
      SortKeepsElements(le, s[..|s| - 1]);
      InsertKeepsElements(le, StableSort(le, s[..|s| - 1]), s[|s| - 1]);
      assert s == s[..|s| - 1] + [s[|s| - 1]];
    }
  }

  lemma {:induction false} InsertSorts<T(!new)>(le: (T, T) -> bool, s: seq<T>, x: T)
    requires TotalPreorder(le) && Sorted(le, s)
    ensures Sorted(le, Insert(le, s, x))
  {
    if s != [] && !le(s[|s| - 1], x) {
      var front, last := s[..|s| - 1], s[|s| - 1];
      InsertSorts(le, front, x);
      InsertKeepsElements(le, front, x);
      var r := Insert(le, front, x);
      forall i | 0 <= i < |r| ensures le(r[i], last) {
        assert r[i] in multiset(r);
        if r[i] != x {
          assert r[i] in multiset(front);
        }
      }
    }
  }

  lemma {:induction false} SortSorts<T(!new)>(le: (T, T) -> bool, s: seq<T>)
    requires TotalPreorder(le)
    ensures Sorted(le, StableSort(le, s))
  {
    if s != [] {
      SortSorts(le, s[..|s| - 1]);
      InsertSorts(le, StableSort(le, s[..|s| - 1]), s[|s| - 1]);
    }
  }

  /** In a sorted sequence nothing stands after the last element. */
  lemma LastIsLargest<T(!new)>(le: (T, T) -> bool, s: seq<T>, x: T)
    requires TotalPreorder(le) && Sorted(le, s) && x in multiset(s)
    ensures s != [] && le(x, s[|s| - 1])
  {
    var i :| 0 <= i < |s| && s[i] == x;
    assert le(s[i], s[|s| - 1]);
  }

  lemma DropLast<T>(s: seq<T>)
    requires s != []
    ensures multiset(s[..|s| - 1]) == multiset(s) - multiset{s[|s| - 1]}
  {
    assert s == s[..|s| - 1] + [s[|s| - 1]];
  }

  /** Two equal elements count twice. */
  lemma TwiceInMultiset<T>(s: seq<T>, i: nat, j: nat)
    requires i < j < |s|
    ensures s[i] == s[j] ==> multiset(s)[s[i]] >= 2
  {
    assert s == s[..j] + s[j..];
    assert s[i] == s[..j][i] && s[j] == s[j..][0];
    assert s[i] in multiset(s[..j]) && s[j] in multiset(s[j..]);
  }

  /** With an antisymmetric order, a sorted arrangement is unique. */
  lemma {:induction false} SortedIsUnique<T(!new)>(le: (T, T) -> bool, s: seq<T>, t: seq<T>)
    requires TotalPreorder(le)
    requires forall x, y :: le(x, y) && le(y, x) ==> x == y
    requires Sorted(le, s) && Sorted(le, t) && multiset(s) == multiset(t)
    ensures s == t
    decreases |s|
  {
    if s == [] {
      assert |multiset(t)| == 0;
    } else {
      SameLast(le, s, t);
      SameFront(s, t);
      SortedIsUnique(le, s[..|s| - 1], t[..|t| - 1]);
      SameWhole(s, t);
    }
  }

  lemma SameFront<T>(s: seq<T>, t: seq<T>)
    requires s != [] && t != [] && s[|s| - 1] == t[|t| - 1] && multiset(s) == multiset(t)
    ensures multiset(s[..|s| - 1]) == multiset(t[..|t| - 1])
  {
    DropLast(s);
    DropLast(t);
  }

  lemma SameWhole<T>(s: seq<T>, t: seq<T>)
    requires s != [] && t != [] && s[|s| - 1] == t[|t| - 1] && s[..|s| - 1] == t[..|t| - 1]
    ensures s == t
  {
    assert s == s[..|s| - 1] + [s[|s| - 1]] && t == t[..|t| - 1] + [t[|t| - 1]];
  }

  lemma SameLast<T(!new)>(le: (T, T) -> bool, s: seq<T>, t: seq<T>)
    requires TotalPreorder(le)
    requires forall x, y :: le(x, y) && le(y, x) ==> x == y
    requires Sorted(le, s) && Sorted(le, t) && multiset(s) == multiset(t) && s != []
    ensures t != [] && s[|s| - 1] == t[|t| - 1]
  {
    assert s[|s| - 1] in multiset(s);
    LastIsLargest(le, t, s[|s| - 1]);
    assert t[|t| - 1] in multiset(t);
    LastIsLargest(le, s, t[|t| - 1]);
  }

  method SortInPlace<T>(le: (T, T) -> bool, a: array<T>)
    modifies a
    ensures a[..] == StableSort(le, old(a[..]))
  {
    for i := 0 to a.Length
      invariant a[..i] == StableSort(le, old(a[..])[..i])
      invariant a[i..] == old(a[..])[i..]
    {
      assert old(a[..])[..i + 1][..i] == old(a[..])[..i];
      Sink(le, a, i);
    }
    assert old(a[..])[..a.Length] == old(a[..]) && a[..a.Length] == a[..];
  }

  /** The last element stays behind an element that belongs before it. */
  lemma InsertPassesLast<T>(le: (T, T) -> bool, s: seq<T>, j: nat, i: nat, x: T)
    requires 0 < j <= i <= |s| && !le(s[j - 1], x)
    ensures Insert(le, s[..j], x) + s[j..i] == Insert(le, s[..j - 1], x) + s[j - 1..i]
  {
    assert s[..j][..j - 1] == s[..j - 1] && [s[j - 1]] + s[j..i] == s[j - 1..i];
  }

  /** s with its i-th element x moved down to place j. */
  function Moved<T>(s: seq<T>, j: nat, i: nat, x: T): (r: seq<T>)
    requires j <= i < |s|
    ensures |r| == |s| && r[j] == x && forall k | 0 <= k < j :: r[k] == s[k]
  {
    s[..j] + [x] + s[j..i] + s[i + 1..]
  }

  lemma MovedFurther<T>(s: seq<T>, j: nat, i: nat, x: T)
    requires 0 < j <= i < |s|
    ensures Moved(s, j - 1, i, x) == Moved(s, j, i, x)[j - 1 := x][j := s[j - 1]]
  {
  }

  /** Moves a[i] down to its place among the sorted a[..i]. */
  method Sink<T>(le: (T, T) -> bool, a: array<T>, i: nat)
    requires i < a.Length
    modifies a
    ensures a[..i + 1] == Insert(le, old(a[..i]), old(a[i]))
    ensures a[i + 1..] == old(a[i + 1..])
  {
    ghost var s := a[..];
    var x := a[i];
    var j := i;
    assert a[..] == Moved(s, i, i, x);
    while j > 0 && !le(a[j - 1], x)
      invariant 0 <= j <= i && a[..] == Moved(s, j, i, x)
      invariant Insert(le, s[..i], x) == Insert(le, s[..j], x) + s[j..i]
    {
      InsertPassesLast(le, s, j, i, x);
      MovedFurther(s, j, i, x);
      a[j - 1], a[j] := a[j], a[j - 1];
      j := j - 1;
    }
    MovedIsInserted(le, s, j, i, x);
    assert a[..i + 1] == a[..][..i + 1] && a[i + 1..] == a[..][i + 1..];
  }

  lemma MovedIsInserted<T>(le: (T, T) -> bool, s: seq<T>, j: nat, i: nat, x: T)
    requires j <= i < |s| && (j == 0 || le(s[j - 1], x))
    requires Insert(le, s[..i], x) == Insert(le, s[..j], x) + s[j..i]
    ensures Moved(s, j, i, x)[..i + 1] == Insert(le, s[..i], x) && Moved(s, j, i, x)[i + 1..] == s[i + 1..]
  {
    assert Insert(le, s[..j], x) == s[..j] + [x];
  }
}
