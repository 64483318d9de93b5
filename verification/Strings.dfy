/** Strings as Go's libraries treat them: sort.Strings, strings.TrimSpace, strings.ToLower (on ASCII) and
    filepath.Dir. */
module Strings {
  import opened Common
  import opened Sorting

  /** Not after, in the order of sort.Strings. */
  predicate StringLe(a: string, b: string) {
    a == "" || (b != "" && (a[0] < b[0] || (a[0] == b[0] && StringLe(a[1..], b[1..]))))
  }

  lemma {:induction false} StringLeIsTotal(a: string, b: string)
    ensures StringLe(a, b) || StringLe(b, a)
  {
    if a != "" && b != "" {
      StringLeIsTotal(a[1..], b[1..]);
    }
  }

  lemma {:induction false} StringLeIsTransitive(a: string, b: string, c: string)
    requires StringLe(a, b) && StringLe(b, c)
    ensures StringLe(a, c)
  {
    if a != "" && a[0] == b[0] == c[0] {
      StringLeIsTransitive(a[1..], b[1..], c[1..]);
    }
  }

  lemma {:induction false} StringLeIsAntisymmetric(a: string, b: string)
    requires StringLe(a, b) && StringLe(b, a)
    ensures a == b
  {
    if a != "" {
      StringLeIsAntisymmetric(a[1..], b[1..]);
      assert a == [a[0]] + a[1..] && b == [b[0]] + b[1..];
    }
  }

  lemma StringLeIsAnOrder()
    ensures TotalPreorder(StringLe)
    ensures forall a, b :: StringLe(a, b) && StringLe(b, a) ==> a == b
  {
    forall a, b ensures StringLe(a, b) || StringLe(b, a) { StringLeIsTotal(a, b); }
    forall a, b, c | StringLe(a, b) && StringLe(b, c) ensures StringLe(a, c) { StringLeIsTransitive(a, b, c); }
    forall a, b | StringLe(a, b) && StringLe(b, a) ensures a == b { StringLeIsAntisymmetric(a, b); }
  }

  /** The order is the dictionary's: a is not after b exactly when a is a beginning of b, or the first characters in
      which they differ ascend. */
  lemma {:induction false} StringLeMeans(a: string, b: string)
    ensures StringLe(a, b) <==>
              a <= b || exists i :: 0 <= i < |a| && i < |b| && a[..i] == b[..i] && a[i] < b[i]
    decreases |a|
  {
    if a != "" && b != "" {
      if a[0] == b[0] {
        StringLeMeans(a[1..], b[1..]);
        assert a == [a[0]] + a[1..] && b == [b[0]] + b[1..];
        if i :| 0 <= i < |a[1..]| && i < |b[1..]| && a[1..][..i] == b[1..][..i] && a[1..][i] < b[1..][i] {
          assert a[..i + 1] == [a[0]] + a[1..][..i] && b[..i + 1] == [b[0]] + b[1..][..i];
          assert a[i + 1] < b[i + 1];
        }
        if j :| 0 <= j < |a| && j < |b| && a[..j] == b[..j] && a[j] < b[j] {
          assert a[1..][..j - 1] == a[..j][1..] && b[1..][..j - 1] == b[..j][1..];
          assert a[1..][j - 1] < b[1..][j - 1];
        }
      } else {
        assert a[..0] == b[..0];
        if j :| 0 < j < |a| && j < |b| && a[..j] == b[..j] && a[j] < b[j] {
          SameBeginning(a, b, j);
        }
      }
    }
  }

  lemma SameBeginning(a: string, b: string, j: nat)
    requires 0 < j <= |a| && j <= |b| && a[..j] == b[..j]
    ensures a[0] == b[0]
  {
    assert a[..j][0] == a[0] && b[..j][0] == b[0];
  }

  /** sort.Strings on a slice. */
  method SortStrings(s: seq<string>) returns (r: seq<string>)
    ensures r == StableSort(StringLe, s) && multiset(r) == multiset(s) && Sorted(StringLe, r)
  {
    var a := new string[|s|](i requires 0 <= i < |s| => s[i]);
    assert a[..] == s;
    SortInPlace(StringLe, a);
    StringLeIsAnOrder();
    SortKeepsElements(StringLe, s);
    SortSorts(StringLe, s);
    r := a[..];
  }

  predicate IsSpace(c: char) { c in " \t\n\r\U{B}\U{C}\U{85}\U{A0}" }

  function TrimLeft(s: string): string {
    if s != "" && IsSpace(s[0]) then TrimLeft(s[1..]) else s
  }

  function TrimRight(s: string): string {
    if s != "" && IsSpace(s[|s| - 1]) then TrimRight(s[..|s| - 1]) else s
  }

  function TrimSpace(s: string): string { TrimRight(TrimLeft(s)) }

  function ToLower(s: string): string {
    seq(|s|, i requires 0 <= i < |s| => if 'A' <= s[i] <= 'Z' then s[i] + 32 as char else s[i])
  }

  /** Only capital letters change, each to its small one. */
  lemma ToLowerMeans(s: string, i: nat)
    requires i < |s|
    ensures |ToLower(s)| == |s|
    ensures ToLower(s)[i] != s[i] <==> 'A' <= s[i] <= 'Z'
    ensures 'A' <= s[i] <= 'Z' ==> 'a' <= ToLower(s)[i] <= 'z' && ToLower(s)[i] - 'a' == s[i] - 'A'
  {
  }

  /** strings.Split. */
  function Split(s: string, sep: char): (parts: seq<string>)
    ensures parts != []
  {
    if s == "" then [""]
    else
      var rest := Split(s[1..], sep);
      if s[0] == sep then [""] + rest else [[s[0]] + rest[0]] + rest[1..]
  }

  /** The parts, with the separator between them. */
  function Join(parts: seq<string>, sep: char): string
    requires parts != []
  {
    if |parts| == 1 then parts[0] else parts[0] + [sep] + Join(parts[1..], sep)
  }

  /** Split takes a string apart at every separator: the parts hold none, and joined they give the string. */
  lemma {:induction false} SplitMeans(s: string, sep: char)
    ensures Join(Split(s, sep), sep) == s && forall p | p in Split(s, sep) :: sep !in p
    decreases |s|
  {
    if s != "" {
      var parts, rest := Split(s, sep), Split(s[1..], sep);
      SplitMeans(s[1..], sep);
      var tail := if s[0] == sep then rest else rest[1..];
      assert parts[1..] == tail;
      assert s == [s[0]] + s[1..];
      forall p | p in parts ensures sep !in p {
        if p != parts[0] { assert p in tail; }
      }
    }
  }

  lemma {:induction false} SplitOfOne(s: string, sep: char)
    requires sep !in s
    ensures Split(s, sep) == [s]
    decreases |s|
  {
    if s != "" {
      SplitOfOne(s[1..], sep);
      assert s == [s[0]] + s[1..];
    }
  }

  /** Two parts without a separator are found again. */
  lemma {:induction false} SplitOfTwo(a: string, b: string, sep: char)
    requires sep !in a && sep !in b
    ensures Split(a + [sep] + b, sep) == [a, b]
    decreases |a|
  {
    var s := a + [sep] + b;
    if a == "" {
      assert s[1..] == b;
      SplitOfOne(b, sep);
    } else {
      assert s[1..] == a[1..] + [sep] + b;
      SplitOfTwo(a[1..], b, sep);
      assert a == [a[0]] + a[1..];
    }
  }

  /** What is left of a string has no space at its ends, and only spaces were cut off. */
  lemma {:induction false} TrimLeftMeans(s: string)
    ensures var r := TrimLeft(s);
            |r| <= |s| && s[|s| - |r|..] == r && (forall c | c in s[..|s| - |r|] :: IsSpace(c))
            && (r != "" ==> !IsSpace(r[0]))
    decreases |s|
  {
    if s != "" && IsSpace(s[0]) {
      TrimLeftMeans(s[1..]);
      assert s == [s[0]] + s[1..];
    }
  }

  lemma {:induction false} TrimRightMeans(s: string)
    ensures var r := TrimRight(s);
            |r| <= |s| && s[..|r|] == r && (forall c | c in s[|r|..] :: IsSpace(c))
            && (r != "" ==> !IsSpace(Last(r)) && r[0] == s[0])
    decreases |s|
  {
    if s != "" && IsSpace(s[|s| - 1]) {
      var front := s[..|s| - 1];
      TrimRightMeans(front);
      assert s == front + [s[|s| - 1]];
    }
  }

  /** So TrimSpace cuts off exactly the spaces at both ends. */
  lemma TrimSpaceMeans(s: string) returns (before: string, after: string)
    ensures s == before + TrimSpace(s) + after && forall c | c in before + after :: IsSpace(c)
    ensures TrimSpace(s) != "" ==> !IsSpace(TrimSpace(s)[0]) && !IsSpace(Last(TrimSpace(s)))
  {
    var left := TrimLeft(s);
    TrimLeftMeans(s);
    TrimRightMeans(left);
    before, after := s[..|s| - |left|], left[|TrimRight(left)|..];
    assert left == TrimRight(left) + after;
  }

  /** The directory of a path is all before its last slash; the root keeps it, and without any it is the working
      directory. */
  lemma {:induction false} DirMeans(p: string) returns (base: string)
    requires |p| >= 2 ==> p[..2] != "//"
    ensures '/' !in base
    ensures p == if '/' !in p then base else if Dir(p) == "/" then "/" + base else Dir(p) + "/" + base
    ensures '/' !in p ==> Dir(p) == "."
    decreases |p|
  {
    if '/' !in p {
      base := p;
      if p != "" { var _ := DirMeans(p[..|p| - 1]); }
    } else {
      var front, last := p[..|p| - 1], p[|p| - 1];
      assert p == front + [last];
      if last == '/' {
        base := "";
      } else {
        var b := DirMeans(front);
        base := b + [last];
      }
    }
  }

  /** filepath.Dir of a clean path: all before the last slash. */
  function Dir(p: string): (d: string)
    ensures d == "." || d == "/" || |d| < |p|
  {
    if p == "" then "."
    else if p[|p| - 1] != '/' then Dir(p[..|p| - 1])
    else if |p| == 1 then "/"
    else p[..|p| - 1]
  }
}
