/**
 * Sequence operations that the dashboard uses everywhere through JavaScript's
 * Array methods: filter, reduce-to-a-sum, map-where, join, split, sort and
 * slice, plus a Set-like "distinct in order of first occurrence".
 * Each is stated once here and reused by the modules of the pages.
 */
module Seqs {

  datatype Option<T> = None | Some(value: T)

  /** Array.prototype.filter: keeps, in order, the elements satisfying p. */
  function Filter<T>(s: seq<T>, p: T -> bool): (r: seq<T>)
    ensures |r| <= |s|
    ensures forall i :: 0 <= i < |r| ==> p(r[i])
  {
    if s == [] then [] else (if p(s[0]) then [s[0]] else []) + Filter(s[1..], p)
  }

  /** Filter keeps exactly the elements satisfying p. */
  lemma {:induction false} FilterMembers<T>(s: seq<T>, p: T -> bool)
    ensures forall i :: 0 <= i < |Filter(s, p)| ==> Filter(s, p)[i] in s
    ensures forall i :: 0 <= i < |s| && p(s[i]) ==> s[i] in Filter(s, p)
  {
    if s != [] {
      FilterMembers(s[1..], p);
      var head := if p(s[0]) then [s[0]] else [];
      assert Filter(s, p) == head + Filter(s[1..], p);
      forall i | 0 <= i < |s| && p(s[i])
        ensures s[i] in Filter(s, p)
      {
        if i > 0 {
          assert s[i] == s[1..][i - 1];
        }
      }
    }
  }

  /** `r` occurs in `s` in the same order, possibly with gaps. */
  predicate IsSubsequence<T(==)>(r: seq<T>, s: seq<T>)
    decreases |s|
  {
    if r == [] then true
    else if s == [] then false
    else if r[0] == s[0] then IsSubsequence(r[1..], s[1..])
    else IsSubsequence(r, s[1..])
  }

  lemma {:induction false} SubsequenceCons<T>(r: seq<T>, x: T, t: seq<T>)
    requires IsSubsequence(r, t)
    ensures IsSubsequence(r, [x] + t)
    decreases |t|, 1
  {
    if r != [] && r[0] == x {
      SubsequenceDropFirst(r, t);
      assert ([x] + t)[1..] == t;
    } else {
      assert ([x] + t)[1..] == t;
    }
  }

  lemma {:induction false} SubsequenceDropFirst<T>(r: seq<T>, t: seq<T>)
    requires r != [] && IsSubsequence(r, t)
    ensures IsSubsequence(r[1..], t)
    decreases |t|, 0
  {
    if r[0] == t[0] {
      SubsequenceCons(r[1..], t[0], t[1..]);
      assert [t[0]] + t[1..] == t;
    } else {
      SubsequenceDropFirst(r, t[1..]);
      SubsequenceCons(r[1..], t[0], t[1..]);
      assert [t[0]] + t[1..] == t;
    }
  }

  /** Filtering keeps the survivors in their original order. */
  lemma {:induction false} FilterIsSubsequence<T>(s: seq<T>, p: T -> bool)
    ensures IsSubsequence(Filter(s, p), s)
  {
    if s != [] {
      var rest := Filter(s[1..], p);
      FilterIsSubsequence(s[1..], p);
      if p(s[0]) {
        assert Filter(s, p) == [s[0]] + rest;
        assert ([s[0]] + rest)[1..] == rest;
      } else {
        assert Filter(s, p) == rest;
        SubsequenceCons(rest, s[0], s[1..]);
        assert [s[0]] + s[1..] == s;
      }
    }
  }

  /** Two filters in a row keep exactly what one filter on both conditions keeps. */
  lemma {:induction false} FilterCompose<T>(s: seq<T>, p: T -> bool, q: T -> bool, both: T -> bool)
    requires forall x :: both(x) <==> p(x) && q(x)
    ensures Filter(Filter(s, p), q) == Filter(s, both)
  {
    if s != [] {
      FilterCompose(s[1..], p, q, both);
      FilterAppend((if p(s[0]) then [s[0]] else []), Filter(s[1..], p), q);
    }
  }

  lemma {:induction false} FilterAppend<T>(a: seq<T>, b: seq<T>, p: T -> bool)
    ensures Filter(a + b, p) == Filter(a, p) + Filter(b, p)
  {
    if a == [] {
      assert a + b == b;
    } else {
      var head := if p(a[0]) then [a[0]] else [];
      FilterAppend(a[1..], b, p);
      assert (a + b)[0] == a[0];
      assert (a + b)[1..] == a[1..] + b;
      calc {
        Filter(a + b, p);
        head + Filter(a[1..] + b, p);
        head + (Filter(a[1..], p) + Filter(b, p));
        (head + Filter(a[1..], p)) + Filter(b, p);
      }
    }
  }

  /** Two tests that agree on every element keep the same elements. */
  lemma {:induction false} FilterEquiv<T>(s: seq<T>, p: T -> bool, q: T -> bool)
    requires forall x :: x in s ==> (p(x) <==> q(x))
    ensures Filter(s, p) == Filter(s, q)
  {
    if s != [] {
      assert forall x :: x in s[1..] ==> x in s;
      FilterEquiv(s[1..], p, q);
    }
  }

  /** Filtering with a condition every element meets changes nothing. */
  lemma {:induction false} FilterAll<T>(s: seq<T>, p: T -> bool)
    requires forall x :: x in s ==> p(x)
    ensures Filter(s, p) == s
  {
    if s != [] {
      FilterAll(s[1..], p);
      assert [s[0]] + s[1..] == s;
    }
  }

  /** The elements kept by p and by its negation together form the whole input. */
  lemma {:induction false} FilterPartition<T>(s: seq<T>, p: T -> bool, notP: T -> bool)
    requires forall x :: notP(x) <==> !p(x)
    ensures |Filter(s, p)| + |Filter(s, notP)| == |s|
    ensures multiset(Filter(s, p)) + multiset(Filter(s, notP)) == multiset(s)
  {
    if s != [] {
      FilterPartition(s[1..], p, notP);
      assert s == [s[0]] + s[1..];
    }
  }

  /** reduce((sum, x) => sum + f(x), 0). */
  function SumOf<T>(s: seq<T>, f: T -> int): int
  {
    if s == [] then 0 else f(s[0]) + SumOf(s[1..], f)
  }

  lemma {:induction false} SumAppend<T>(a: seq<T>, b: seq<T>, f: T -> int)
    ensures SumOf(a + b, f) == SumOf(a, f) + SumOf(b, f)
  {
    if a == [] {
      assert a + b == b;
    } else {
      SumAppend(a[1..], b, f);
      assert (a + b)[1..] == a[1..] + b;
    }
  }

  /** Sums over the two sides of a filter add up to the sum over everything. */
  lemma {:induction false} SumFilterSplit<T>(s: seq<T>, p: T -> bool, notP: T -> bool, f: T -> int)
    requires forall x :: notP(x) <==> !p(x)
    ensures SumOf(Filter(s, p), f) + SumOf(Filter(s, notP), f) == SumOf(s, f)
  {
    if s != [] {
      SumFilterSplit(s[1..], p, notP, f);
      var a := if p(s[0]) then [s[0]] else [];
      var b := if notP(s[0]) then [s[0]] else [];
      SumAppend(a, Filter(s[1..], p), f);
      SumAppend(b, Filter(s[1..], notP), f);
    }
  }

  /** Summing the elements that satisfy p equals summing f where p holds and 0 elsewhere. */
  lemma {:induction false} SumFilterMasked<T>(s: seq<T>, p: T -> bool, f: T -> int, masked: T -> int)
    requires forall x :: masked(x) == if p(x) then f(x) else 0
    ensures SumOf(Filter(s, p), f) == SumOf(s, masked)
  {
    if s != [] {
      SumFilterMasked(s[1..], p, f, masked);
      SumAppend(if p(s[0]) then [s[0]] else [], Filter(s[1..], p), f);
    }
  }

  /** Sums of pointwise-added functions add up. */
  lemma {:induction false} SumPlus<T>(s: seq<T>, f: T -> int, g: T -> int, h: T -> int)
    requires forall i :: 0 <= i < |s| ==> h(s[i]) == f(s[i]) + g(s[i])
    ensures SumOf(s, h) == SumOf(s, f) + SumOf(s, g)
  {
    if s != [] {
      SumPlus(s[1..], f, g, h);
    }
  }

  /** arr.map(x => p(x) ? f(x) : x): the update-by-id pattern of the store. */
  function MapWhere<T>(s: seq<T>, p: T -> bool, f: T -> T): (r: seq<T>)
    ensures |r| == |s|
    ensures forall i :: 0 <= i < |s| ==> r[i] == if p(s[i]) then f(s[i]) else s[i]
  {
    if s == [] then [] else [if p(s[0]) then f(s[0]) else s[0]] + MapWhere(s[1..], p, f)
  }

  /** arr.filter(x => key(x) !== k): every element whose key is k is dropped. */
  function RemoveKey<T>(s: seq<T>, key: T -> string, k: string): (r: seq<T>)
    ensures |r| <= |s|
    ensures forall i :: 0 <= i < |r| ==> key(r[i]) != k && r[i] in s
    ensures forall i :: 0 <= i < |s| && key(s[i]) != k ==> s[i] in r
    ensures r == Filter(s, KeyIsNot(key, k))
  {
    if s == [] then []
    else (if key(s[0]) == k then [] else [s[0]]) + RemoveKey(s[1..], key, k)
  }

  /** The test that keeps the elements whose key is not k. */
  function KeyIsNot<T>(key: T -> string, k: string): T -> bool
  {
    (x: T) => key(x) != k
  }

  /** Deleting by key keeps the remaining elements in their order. */
  lemma RemoveKeyInOrder<T>(s: seq<T>, key: T -> string, k: string)
    ensures IsSubsequence(RemoveKey(s, key, k), s)
  {
    FilterIsSubsequence(s, KeyIsNot(key, k));
  }

  /** arr.map(x => key(x) === key(y) ? y : x): y takes the place of every element with its key. */
  function ReplaceKey<T>(s: seq<T>, key: T -> string, y: T): (r: seq<T>)
    ensures |r| == |s|
    ensures forall i :: 0 <= i < |s| ==> r[i] == if key(s[i]) == key(y) then y else s[i]
  {
    if s == [] then [] else [if key(s[0]) == key(y) then y else s[0]] + ReplaceKey(s[1..], key, y)
  }

  /** Removing a key that no element carries changes nothing. */
  lemma {:induction false} RemoveAbsentKey<T>(s: seq<T>, key: T -> string, k: string)
    requires forall i :: 0 <= i < |s| ==> key(s[i]) != k
    ensures RemoveKey(s, key, k) == s
  {
    if s != [] {
      RemoveAbsentKey(s[1..], key, k);
      assert [s[0]] + s[1..] == s;
    }
  }

  /** Appending an element under a fresh key and then removing that key restores the sequence. */
  lemma {:induction false} RemoveAppended<T>(s: seq<T>, key: T -> string, x: T)
    requires forall i :: 0 <= i < |s| ==> key(s[i]) != key(x)
    ensures RemoveKey(s + [x], key, key(x)) == s
  {
    if s == [] {
      assert [x][1..] == [];
    } else {
      var t := s + [x];
      assert t[0] == s[0] && key(s[0]) != key(x);
      assert t[1..] == s[1..] + [x];
      RemoveAppended(s[1..], key, x);
      assert RemoveKey(t, key, key(x)) == [s[0]] + RemoveKey(t[1..], key, key(x));
      assert [s[0]] + s[1..] == s;
    }
  }

  /** Removing a key after replacing under it is the same as removing it at once. */
  lemma {:induction false} RemoveAfterReplace<T>(s: seq<T>, key: T -> string, y: T)
    ensures RemoveKey(ReplaceKey(s, key, y), key, key(y)) == RemoveKey(s, key, key(y))
  {
    if s != [] {
      RemoveAfterReplace(s[1..], key, y);
    }
  }

  /** Replacing twice with the same element is replacing once. */
  lemma ReplaceIdempotent<T>(s: seq<T>, key: T -> string, y: T)
    ensures ReplaceKey(ReplaceKey(s, key, y), key, y) == ReplaceKey(s, key, y)
  {
  }

  /** The elements of `s` without repetitions, in order of first occurrence (a JS Set). */
  function Distinct<T(==)>(s: seq<T>): (r: seq<T>)
    ensures NoDuplicates(r)
    ensures |r| <= |s|
  {
    if s == [] then []
    else
      var d := Distinct(s[..|s| - 1]);
      if s[|s| - 1] in d then d else d + [s[|s| - 1]]
  }

  /** The elements of Distinct(s) are exactly those of s. */
  lemma {:induction false} DistinctMembers<T>(s: seq<T>)
    ensures forall x :: x in Distinct(s) <==> x in s
  {
    if s != [] {
      DistinctMembers(s[..|s| - 1]);
      assert s == s[..|s| - 1] + [s[|s| - 1]];
    }
  }

  /** indexOf: the position of the first x in s, or |s| when there is none. */
  function FirstIndex<T(==)>(s: seq<T>, x: T): (n: nat)
    ensures n <= |s| && (n < |s| ==> s[n] == x) && x !in s[..n]
  {
    if s == [] then 0
    else if s[0] == x then 0
    else
      var n := 1 + FirstIndex(s[1..], x);
      assert s[..n] == [s[0]] + s[1..][..n - 1];
      n
  }

  /** A position holding x with no x before it is the first index of x. */
  lemma FirstIndexAt<T>(s: seq<T>, x: T, k: int)
    requires 0 <= k < |s| && s[k] == x && x !in s[..k]
    ensures FirstIndex(s, x) == k
  {
  }

  /** Appending an element does not move the first index of an element already present. */
  lemma FirstIndexSnoc<T>(p: seq<T>, x: T, y: T)
    requires y in p
    ensures FirstIndex(p + [x], y) == FirstIndex(p, y)
  {
    var k := FirstIndex(p, y);
    assert (p + [x])[..k] == p[..k];
    FirstIndexAt(p + [x], y, k);
  }

  /**
   * Distinct lists the elements in the order of their first occurrence: of
   * two elements of the result, the earlier one first occurs earlier in s.
   */
  lemma {:induction false} DistinctFirstOccurrence<T>(s: seq<T>)
    ensures forall i, j :: 0 <= i < j < |Distinct(s)| ==>
              FirstIndex(s, Distinct(s)[i]) < FirstIndex(s, Distinct(s)[j]) < |s|
  {
    if s != [] {
      var p := s[..|s| - 1];
      var x := s[|s| - 1];
      assert s == p + [x];
      var d := Distinct(p);
      DistinctFirstOccurrence(p);
      forall i | 0 <= i < |d|
        ensures FirstIndex(s, d[i]) == FirstIndex(p, d[i]) < |p|
      {
        DistinctSnocKeepsIndex(p, x, i);
      }
      if x !in d {
        DistinctSnocNewIndex(p, x);
      }
    }
  }

  lemma DistinctSnocKeepsIndex<T>(p: seq<T>, x: T, i: int)
    requires 0 <= i < |Distinct(p)|
    ensures FirstIndex(p + [x], Distinct(p)[i]) == FirstIndex(p, Distinct(p)[i]) < |p|
  {
    DistinctMembers(p);
    var d := Distinct(p);
    assert d[i] in d;
    FirstIndexSnoc(p, x, d[i]);
  }

  lemma DistinctSnocNewIndex<T>(p: seq<T>, x: T)
    requires x !in Distinct(p)
    ensures FirstIndex(p + [x], x) == |p|
  {
    DistinctMembers(p);
    assert (p + [x])[..|p|] == p;
    FirstIndexAt(p + [x], x, |p|);
  }

  predicate NoDuplicates<T(==)>(s: seq<T>)
  {
    forall i, j :: 0 <= i < j < |s| ==> s[i] != s[j]
  }

  /** Array.prototype.map. */
  function Map<T, U>(s: seq<T>, f: T -> U): (r: seq<U>)
    ensures |r| == |s|
    ensures forall i :: 0 <= i < |s| ==> r[i] == f(s[i])
  {
    if s == [] then [] else [f(s[0])] + Map(s[1..], f)
  }

  /** arr.slice(0, n). */
  function Take<T>(s: seq<T>, n: nat): (r: seq<T>)
    ensures |r| == if n < |s| then n else |s|
    ensures r == s[..|r|]
  {
    if n < |s| then s[..n] else s
  }

  /** Array.prototype.join with a separator. */
  function Join(parts: seq<string>, sep: string): string
  {
    if |parts| == 0 then ""
    else if |parts| == 1 then parts[0]
    else parts[0] + sep + Join(parts[1..], sep)
  }

  lemma JoinCons(p: string, rest: seq<string>, sep: string)
    requires |rest| >= 1
    ensures Join([p] + rest, sep) == p + sep + Join(rest, sep)
  {
    assert ([p] + rest)[1..] == rest;
  }

  /** Joining one more part at the end adds the separator and that part. */
  lemma {:induction false} JoinSnoc(parts: seq<string>, last: string, sep: string)
    requires |parts| >= 1
    ensures Join(parts + [last], sep) == Join(parts, sep) + sep + last
  {
    if |parts| == 1 {
      assert parts + [last] == [parts[0], last];
      assert [parts[0], last][1..] == [last];
    } else {
      JoinSnoc(parts[1..], last, sep);
      assert (parts + [last])[1..] == parts[1..] + [last];
    }
  }

  /** String.prototype.split on a one-character separator. */
  function Split(s: string, sep: char): (r: seq<string>)
    ensures |r| >= 1
    ensures forall i :: 0 <= i < |r| ==> sep !in r[i]
  {
    if s == [] then [""]
    else
      var rest := Split(s[1..], sep);
      if s[0] == sep then [""] + rest
      else [[s[0]] + rest[0]] + rest[1..]
  }

  /** Splitting on a separator and joining again with it rebuilds the text. */
  lemma {:induction false} JoinSplit(s: string, sep: char)
    ensures Join(Split(s, sep), [sep]) == s
  {
    if s != [] {
      var rest := Split(s[1..], sep);
      JoinSplit(s[1..], sep);
      if s[0] == sep {
        JoinCons("", rest, [sep]);
        assert [sep] + s[1..] == s;
      } else {
        JoinExtendFirst(s[0], rest, [sep]);
        assert [s[0]] + s[1..] == s;
      }
    }
  }

  /** Putting a character in front of the first part puts it in front of the joined text. */
  lemma JoinExtendFirst(c: char, parts: seq<string>, sep: string)
    requires |parts| >= 1
    ensures Join([[c] + parts[0]] + parts[1..], sep) == [c] + Join(parts, sep)
  {
    if |parts| > 1 {
      var tail := parts[1..];
      JoinCons([c] + parts[0], tail, sep);
      JoinCons(parts[0], tail, sep);
      assert [parts[0]] + tail == parts;
      assert [c] + parts[0] + sep + Join(tail, sep) == [c] + (parts[0] + sep + Join(tail, sep));
    }
  }

  /** A piece without the separator splits into just itself. */
  lemma {:induction false} SplitNoSep(w: string, sep: char)
    requires sep !in w
    ensures Split(w, sep) == [w]
  {
    if w != [] {
      SplitNoSep(w[1..], sep);
      assert [w[0]] + w[1..] == w;
    }
  }

  /** A separator after a separator-free piece ends that piece. */
  lemma {:induction false} SplitAtSep(w: string, rest: string, sep: char)
    requires sep !in w
    ensures Split(w + [sep] + rest, sep) == [w] + Split(rest, sep)
  {
    var s := w + [sep] + rest;
    if w == [] {
      assert s[0] == sep && s[1..] == rest;
    } else {
      assert s[0] == w[0] && s[1..] == w[1..] + [sep] + rest;
      SplitAtSep(w[1..], rest, sep);
      assert [w[0]] + w[1..] == w;
    }
  }

  /** Joining separator-free pieces and splitting again gives the pieces back. */
  lemma {:induction false} SplitJoin(parts: seq<string>, sep: char)
    requires |parts| >= 1
    requires forall i :: 0 <= i < |parts| ==> sep !in parts[i]
    ensures Split(Join(parts, [sep]), sep) == parts
  {
    if |parts| == 1 {
      SplitNoSep(parts[0], sep);
    } else {
      SplitJoin(parts[1..], sep);
      SplitAtSep(parts[0], Join(parts[1..], [sep]), sep);
      assert [parts[0]] + parts[1..] == parts;
    }
  }

  /** String.prototype.includes: `sub` occurs in `s` as a contiguous block. */
  predicate Contains(s: string, sub: string)
    decreases |s|
  {
    |sub| <= |s| && (s[..|sub|] == sub || (s != [] && Contains(s[1..], sub)))
  }

  /** `sub` starts at position i of `s`. */
  predicate OccursAt(s: string, sub: string, i: int)
  {
    0 <= i <= |s| - |sub| && s[i..i + |sub|] == sub
  }

  /** `Contains` means there is a position where `sub` starts. */
  lemma {:induction false} ContainsAt(s: string, sub: string)
    ensures Contains(s, sub) <==> exists i :: OccursAt(s, sub, i)
    decreases |s|
  {
    if |sub| <= |s| {
      assert OccursAt(s, sub, 0) <==> s[..|sub|] == sub;
      if s != [] {
        ContainsAt(s[1..], sub);
        if Contains(s[1..], sub) {
          var i :| OccursAt(s[1..], sub, i);
          assert s[1..][i..i + |sub|] == s[i + 1..i + 1 + |sub|];
          assert OccursAt(s, sub, i + 1);
        }
        if exists i :: OccursAt(s, sub, i) {
          var i :| OccursAt(s, sub, i);
          if i > 0 {
            assert s[1..][i - 1..i - 1 + |sub|] == s[i..i + |sub|];
            assert OccursAt(s[1..], sub, i - 1);
          }
        }
      }
    }
  }

  /** Sorted by key, largest first. */
  predicate SortedDesc<T>(s: seq<T>, key: T -> int)
  {
    forall i, j :: 0 <= i < j < |s| ==> key(s[i]) >= key(s[j])
  }

  /** Insertion of x before the first element whose key is not larger. */
  function InsertDesc<T>(x: T, s: seq<T>, key: T -> int): (r: seq<T>)
    ensures |r| == |s| + 1
    ensures r[0] == if s == [] || key(x) >= key(s[0]) then x else s[0]
  {
    if s == [] || key(x) >= key(s[0]) then [x] + s
    else [s[0]] + InsertDesc(x, s[1..], key)
  }

  /** Inserting adds exactly one copy of x. */
  lemma {:induction false} InsertDescPermutes<T>(x: T, s: seq<T>, key: T -> int)
    ensures multiset(InsertDesc(x, s, key)) == multiset(s) + multiset{x}
  {
    if s != [] && key(x) < key(s[0]) {
      InsertDescPermutes(x, s[1..], key);
      assert s == [s[0]] + s[1..];
    }
  }

  /** Inserting into a sorted sequence keeps it sorted. */
  lemma {:induction false} InsertDescSorted<T>(x: T, s: seq<T>, key: T -> int)
    requires SortedDesc(s, key)
    ensures SortedDesc(InsertDesc(x, s, key), key)
  {
    if s != [] && key(x) < key(s[0]) {
      var t := InsertDesc(x, s[1..], key);
      InsertDescSorted(x, s[1..], key);
      assert key(s[0]) >= key(t[0]);
      assert forall j :: 0 <= j < |t| ==> key(t[0]) >= key(t[j]);
      var r := [s[0]] + t;
      forall i, j | 0 <= i < j < |r|
        ensures key(r[i]) >= key(r[j])
      {
        if i > 0 {
          assert r[i] == t[i - 1] && r[j] == t[j - 1];
        } else {
          assert r[j] == t[j - 1];
        }
      }
    }
  }

  /**
   * arr.sort((a, b) => key(b) - key(a)): a stable sort, largest key first.
   * The result holds the same elements, and it is ordered.
   */
  function SortDesc<T>(s: seq<T>, key: T -> int): (r: seq<T>)
    ensures |r| == |s|
    ensures multiset(r) == multiset(s)
    ensures SortedDesc(r, key)
  {
    if s == [] then []
    else
      var t := SortDesc(s[1..], key);
      InsertDescPermutes(s[0], t, key);
      InsertDescSorted(s[0], t, key);
      HeadTailMultiset(s);
      InsertDesc(s[0], t, key)
  }

  /** A non-empty sequence holds its head and the elements of its tail. */
  lemma HeadTailMultiset<T>(s: seq<T>)
    requires s != []
    ensures multiset(s) == multiset(s[1..]) + multiset{s[0]}
  {
    assert s == [s[0]] + s[1..];
  }

  /**
   * The first n elements of a sorted copy: the selection of a "top n" list.
   * It comes from the input, it is ordered, nothing left out has a larger key
   * than anything kept, and kept plus left out is the whole input.
   */
  lemma TopN<T>(s: seq<T>, key: T -> int, n: nat)
    ensures var r := Take(SortDesc(s, key), n);
            var rest := SortDesc(s, key)[|r|..];
            && |r| <= n
            && SortedDesc(r, key)
            && multiset(r) + multiset(rest) == multiset(s)
            && (forall i, j :: 0 <= i < |r| && 0 <= j < |rest| ==> key(rest[j]) <= key(r[i]))
  {
    var sorted := SortDesc(s, key);
    var r := Take(sorted, n);
    var rest := sorted[|r|..];
    assert sorted == r + rest;
    forall i, j | 0 <= i < |r| && 0 <= j < |rest|
      ensures key(rest[j]) <= key(r[i])
    {
      assert rest[j] == sorted[|r| + j];
      assert r[i] == sorted[i];
    }
  }
}
