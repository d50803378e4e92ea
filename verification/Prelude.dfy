/** Small shared vocabulary: optional values, duplicate-free sequences and sums
    of multisets. */
module Prelude {

  datatype Option<+T> = None | Some(value: T)

  /** No element occurs at two positions. */
  ghost predicate NoDup<T>(s: seq<T>) {
    forall i, j :: 0 <= i < j < |s| ==> s[i] != s[j]
  }

  ghost function Elements<T>(s: seq<T>): set<T> {
    set x | x in s
  }

  lemma NoDupSnoc<T>(s: seq<T>, x: T)
    requires NoDup(s) && x !in s
    ensures NoDup(s + [x])
    ensures Elements(s + [x]) == Elements(s) + {x}
  {
  }

  lemma {:induction false} NoDupLength<T>(s: seq<T>)
    requires NoDup(s)
    ensures |Elements(s)| == |s|
  {
    if s == [] {
      assert Elements(s) == {};
    } else {
      var t, x := s[..|s| - 1], s[|s| - 1];
      assert s == t + [x];
      NoDupLength(t);
      NoDupSnoc(t, x);
    }
  }

  /** The union, with multiplicity, of the first `n` of a list of multisets. */
  ghost function SumTo<T>(parts: seq<multiset<T>>, n: nat): multiset<T>
    requires n <= |parts|
  {
    if n == 0 then multiset{} else SumTo(parts, n - 1) + parts[n - 1]
  }

  ghost function Sum<T>(parts: seq<multiset<T>>): multiset<T> {
    SumTo(parts, |parts|)
  }

  lemma {:induction false} SumToSame<T>(parts: seq<multiset<T>>, parts': seq<multiset<T>>, n: nat)
    requires n <= |parts| && n <= |parts'| && forall i :: 0 <= i < n ==> parts[i] == parts'[i]
    ensures SumTo(parts, n) == SumTo(parts', n)
  {
    if n > 0 { SumToSame(parts, parts', n - 1); }
  }

  lemma SumSnoc<T>(parts: seq<multiset<T>>, m: multiset<T>)
    ensures Sum(parts + [m]) == Sum(parts) + m
  {
    SumToSame(parts, parts + [m], |parts|);
  }

  lemma {:induction false} SumToUpdate<T>(parts: seq<multiset<T>>, i: nat, m: multiset<T>, n: nat)
    requires i < n <= |parts|
    ensures parts[i] <= SumTo(parts, n)
    ensures SumTo(parts[i := m], n) == SumTo(parts, n) - parts[i] + m
  {
    if i == n - 1 {
      SumToSame(parts, parts[i := m], n - 1);
    } else {
      SumToUpdate(parts, i, m, n - 1);
    }
  }

  lemma SumUpdate<T>(parts: seq<multiset<T>>, i: nat, m: multiset<T>)
    requires i < |parts|
    ensures parts[i] <= Sum(parts)
    ensures Sum(parts[i := m]) == Sum(parts) - parts[i] + m
  {
    SumToUpdate(parts, i, m, |parts|);
  }

  lemma {:induction false} SumToMember<T>(parts: seq<multiset<T>>, x: T, n: nat) returns (i: nat)
    requires n <= |parts| && x in SumTo(parts, n)
    ensures i < n && x in parts[i]
  {
    if x in parts[n - 1] {
      i := n - 1;
    } else {
      i := SumToMember(parts, x, n - 1);
    }
  }
}
