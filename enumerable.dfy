/**
  The parts of Ruby's Enumerable that the catalog's queries are built from:
  `find` (first element a block accepts) and `find_all` (every element it
  accepts, in order). A block is a total function `T -> bool`.
 */
module Enumerable {
  import opened Wrappers

  /** `r` is obtained from `s` by deleting elements, keeping the order of the rest. */
  predicate IsSubsequence<T(==)>(r: seq<T>, s: seq<T>)
    decreases |s|
  {
    if r == [] then true
    else if s == [] then false
    else (r[0] == s[0] && IsSubsequence(r[1..], s[1..])) || IsSubsequence(r, s[1..])
  }

  /** `s.find(&keep)`: the element at the smallest index that `keep` accepts, or `nil`. */
  function Find<T>(s: seq<T>, keep: T -> bool): (r: Option<T>)
    ensures r.None? <==> forall i :: 0 <= i < |s| ==> !keep(s[i])
    ensures r.Some? ==> keep(r.value) && r.value in s
    ensures forall i :: 0 <= i < |s| && keep(s[i]) && (forall j :: 0 <= j < i ==> !keep(s[j])) ==>
              r == Some(s[i])
  {
    if s == [] then None
    else if keep(s[0]) then Some(s[0])
    else
      var r := Find(s[1..], keep);
      assert forall i :: 1 <= i < |s| ==> s[1..][i - 1] == s[i];
      r
  }

  /** `s.find_all(&keep)`: the elements `keep` accepts, in their order in `s`. */
  function FindAll<T>(s: seq<T>, keep: T -> bool): (r: seq<T>)
    ensures forall i :: 0 <= i < |r| ==> r[i] in s && keep(r[i])
    ensures forall i :: 0 <= i < |s| && keep(s[i]) ==> s[i] in r
    ensures |r| <= |s|
  {
    if s == [] then []
    else
      var rest := FindAll(s[1..], keep);
      if keep(s[0]) then
        assert ([s[0]] + rest)[1..] == rest;
        [s[0]] + rest
      else rest
  }

  /** `find_all` keeps the elements it keeps in their order in `s`. */
  lemma {:induction false} FindAllIsSubsequence<T>(s: seq<T>, keep: T -> bool)
    ensures IsSubsequence(FindAll(s, keep), s)
  {
    if s != [] {
      var rest := FindAll(s[1..], keep);
      FindAllIsSubsequence(s[1..], keep);
      if keep(s[0]) {
        assert ([s[0]] + rest)[1..] == rest;
      }
    }
  }

  /** `find_all` keeps every copy of an accepted element and no copy of any other. */
  lemma {:induction false} FindAllMultiplicity<T>(s: seq<T>, keep: T -> bool)
    ensures forall x :: multiset(FindAll(s, keep))[x] == if keep(x) then multiset(s)[x] else 0
  {
    if s != [] {
      var rest := FindAll(s[1..], keep);
      FindAllMultiplicity(s[1..], keep);
      assert s == [s[0]] + s[1..];
      if keep(s[0]) {
        assert ([s[0]] + rest)[1..] == rest;
      }
    }
  }

  /** `find_all` on a sequence with a first element decides that element, then goes on with the rest. */
  lemma FindAllCons<T>(x: T, s: seq<T>, keep: T -> bool)
    ensures FindAll([x] + s, keep) == (if keep(x) then [x] else []) + FindAll(s, keep)
  {
    assert ([x] + s)[1..] == s;
  }

  /** Searching a concatenation searches the second part only when the first has no match. */
  lemma {:induction false} FindAppend<T>(a: seq<T>, b: seq<T>, keep: T -> bool)
    ensures Find(a + b, keep) == if Find(a, keep).Some? then Find(a, keep) else Find(b, keep)
  {
    if a == [] {
      assert a + b == b;
    } else {
      assert (a + b)[0] == a[0];
      assert (a + b)[1..] == a[1..] + b;
      if !keep(a[0]) {
        FindAppend(a[1..], b, keep);
      }
    }
  }

  /** `find_all` distributes over concatenation, so it keeps the order of `s`. */
  lemma {:induction false} FindAllAppend<T>(a: seq<T>, b: seq<T>, keep: T -> bool)
    ensures FindAll(a + b, keep) == FindAll(a, keep) + FindAll(b, keep)
  {
    if a == [] {
      assert a + b == b;
    } else {
      assert (a + b)[0] == a[0];
      assert (a + b)[1..] == a[1..] + b;
      FindAllAppend(a[1..], b, keep);
    }
  }

  /** `find_all` keeps more than one element exactly when two distinct positions are accepted. */
  lemma FindAllSeveral<T>(s: seq<T>, keep: T -> bool)
    ensures |FindAll(s, keep)| > 1 <==>
            exists i, j :: 0 <= i < j < |s| && keep(s[i]) && keep(s[j])
  {
    if |FindAll(s, keep)| > 1 {
      var i, j := SeveralKeptPositions(s, keep);
    }
    if exists i, j :: 0 <= i < j < |s| && keep(s[i]) && keep(s[j]) {
      var i, j :| 0 <= i < j < |s| && keep(s[i]) && keep(s[j]);
      SeveralPositionsKept(s, keep, i, j);
    }
  }

  lemma {:induction false} SeveralKeptPositions<T>(s: seq<T>, keep: T -> bool) returns (i: nat, j: nat)
    requires |FindAll(s, keep)| > 1
    ensures i < j < |s| && keep(s[i]) && keep(s[j])
  {
    var t := s[1..];
    var rest := FindAll(t, keep);
    if keep(s[0]) {
      assert rest[0] in t;
      var k :| 0 <= k < |t| && t[k] == rest[0];
      i, j := 0, k + 1;
    } else {
      var i', j' := SeveralKeptPositions(t, keep);
      i, j := i' + 1, j' + 1;
    }
  }

  lemma {:induction false} SeveralPositionsKept<T>(s: seq<T>, keep: T -> bool, i: nat, j: nat)
    requires i < j < |s| && keep(s[i]) && keep(s[j])
    ensures |FindAll(s, keep)| > 1
  {
    var t := s[1..];
    assert t[j - 1] == s[j];
    if i == 0 {
      assert t[j - 1] in FindAll(t, keep);
    } else {
      assert t[i - 1] == s[i];
      SeveralPositionsKept(t, keep, i - 1, j - 1);
    }
  }
}
