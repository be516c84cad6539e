/**
 * The chart data of the expense and income pages: a `reduce` that adds each
 * item's amount into a dictionary keyed by a name, followed by
 * `Object.entries` (one name/value pair per key, in order of first
 * insertion).
 */
module Grouping {
  import opened Seqs

  datatype Entry = Entry(name: string, value: int)

  function EntryName(e: Entry): string { e.name }
  function EntryValue(e: Entry): int { e.value }

  /**
   * acc[k] += v on the list of entries: the entry named k grows by v, or a
   * new entry for k goes at the end.
   */
  function AddTo(es: seq<Entry>, k: string, v: int): (r: seq<Entry>)
    ensures |r| == |es| || |r| == |es| + 1
  {
    if es == [] then [Entry(k, v)]
    else if es[0].name == k then [Entry(k, es[0].value + v)] + es[1..]
    else [es[0]] + AddTo(es[1..], k, v)
  }

  /** The entries that the reduce builds, item by item from the first. */
  function GroupSums<T>(s: seq<T>, key: T -> string, f: T -> int): seq<Entry>
  {
    if s == [] then []
    else AddTo(GroupSums(s[..|s| - 1], key, f), key(s[|s| - 1]), f(s[|s| - 1]))
  }

  /** The total of the items whose key is k: a definition independent of any dictionary. */
  function KeySum<T>(s: seq<T>, key: T -> string, f: T -> int, k: string): int
  {
    if s == [] then 0
    else KeySum(s[..|s| - 1], key, f, k) + (if key(s[|s| - 1]) == k then f(s[|s| - 1]) else 0)
  }

  // ------------------------------------------------------------- the names

  lemma {:induction false} AddToNames(es: seq<Entry>, k: string, v: int)
    ensures Map(AddTo(es, k, v), EntryName)
         == if k in Map(es, EntryName) then Map(es, EntryName) else Map(es, EntryName) + [k]
  {
    if es != [] {
      AddToNames(es[1..], k, v);
      assert Map(es, EntryName) == [es[0].name] + Map(es[1..], EntryName);
      if es[0].name == k {
        assert Map(AddTo(es, k, v), EntryName) == [k] + Map(es[1..], EntryName);
      } else {
        assert Map(AddTo(es, k, v), EntryName) == [es[0].name] + Map(AddTo(es[1..], k, v), EntryName);
      }
    }
  }

  /** The keys of the items, dropping the last. */
  lemma MapInit<T>(s: seq<T>, key: T -> string)
    requires s != []
    ensures Map(s, key) == Map(s[..|s| - 1], key) + [key(s[|s| - 1])]
  {
    var a := Map(s, key);
    var b := Map(s[..|s| - 1], key) + [key(s[|s| - 1])];
    assert |a| == |b|;
    forall i | 0 <= i < |a|
      ensures a[i] == b[i]
    {
      if i < |s| - 1 {
        assert s[..|s| - 1][i] == s[i];
      }
    }
  }

  /**
   * One entry per distinct key, in order of first occurrence: the names are
   * exactly the JavaScript Set of the keys.
   */
  lemma {:induction false} GroupNames<T>(s: seq<T>, key: T -> string, f: T -> int)
    ensures Map(GroupSums(s, key, f), EntryName) == Distinct(Map(s, key))
  {
    if s != [] {
      var init := s[..|s| - 1];
      GroupNames(init, key, f);
      AddToNames(GroupSums(init, key, f), key(s[|s| - 1]), f(s[|s| - 1]));
      MapInit(s, key);
      assert Map(s, key)[..|Map(s, key)| - 1] == Map(init, key);
    }
  }

  // ------------------------------------------------------------ the values

  /** acc[k] read back from the list of entries (0 when the name is absent). */
  function Lookup(es: seq<Entry>, k: string): int
  {
    if es == [] then 0
    else if es[0].name == k then es[0].value
    else Lookup(es[1..], k)
  }

  lemma {:induction false} AddToLookup(es: seq<Entry>, k: string, v: int, j: string)
    ensures Lookup(AddTo(es, k, v), j) == Lookup(es, j) + (if j == k then v else 0)
  {
    if es != [] && es[0].name != k {
      AddToLookup(es[1..], k, v, j);
    }
  }

  /** With distinct names, each entry is what a lookup of its name finds. */
  lemma {:induction false} LookupAt(es: seq<Entry>, i: int)
    requires NoDuplicates(Map(es, EntryName)) && 0 <= i < |es|
    ensures es[i].value == Lookup(es, es[i].name)
  {
    if i > 0 {
      assert Map(es, EntryName)[0] != Map(es, EntryName)[i];
      assert Map(es[1..], EntryName) == Map(es, EntryName)[1..];
      LookupAt(es[1..], i - 1);
    }
  }

  /** A lookup in the grouped entries finds the total of the items with that key. */
  lemma {:induction false} GroupLookup<T>(s: seq<T>, key: T -> string, f: T -> int, k: string)
    ensures Lookup(GroupSums(s, key, f), k) == KeySum(s, key, f, k)
  {
    if s != [] {
      GroupLookup(s[..|s| - 1], key, f, k);
      AddToLookup(GroupSums(s[..|s| - 1], key, f), key(s[|s| - 1]), f(s[|s| - 1]), k);
    }
  }

  /**
   * Each entry's value is the total of the items bearing its name, so every
   * value is the sum of that category's amounts.
   */
  lemma {:induction false} GroupValues<T>(s: seq<T>, key: T -> string, f: T -> int)
    ensures forall i :: 0 <= i < |GroupSums(s, key, f)| ==>
      GroupSums(s, key, f)[i].value == KeySum(s, key, f, GroupSums(s, key, f)[i].name)
  {
    var g := GroupSums(s, key, f);
    GroupNames(s, key, f);
    forall i | 0 <= i < |g|
      ensures g[i].value == KeySum(s, key, f, g[i].name)
    {
      LookupAt(g, i);
      GroupLookup(s, key, f, g[i].name);
    }
  }

  /** A key that no item carries totals 0. */
  lemma {:induction false} KeySumAbsent<T>(s: seq<T>, key: T -> string, f: T -> int, k: string)
    requires k !in Map(s, key)
    ensures KeySum(s, key, f, k) == 0
  {
    if s != [] {
      MapInit(s, key);
      KeySumAbsent(s[..|s| - 1], key, f, k);
    }
  }

  /** acc[k] += v adds v to the sum of all values. */
  lemma {:induction false} AddToTotal(es: seq<Entry>, k: string, v: int)
    ensures SumOf(AddTo(es, k, v), EntryValue) == SumOf(es, EntryValue) + v
  {
    if es != [] && es[0].name != k {
      AddToTotal(es[1..], k, v);
      assert AddTo(es, k, v)[1..] == AddTo(es[1..], k, v);
    } else if es != [] {
      assert AddTo(es, k, v)[1..] == es[1..];
    }
  }

  /** The values together add up to the total of all items. */
  lemma {:induction false} GroupTotal<T>(s: seq<T>, key: T -> string, f: T -> int)
    ensures SumOf(GroupSums(s, key, f), EntryValue) == SumOf(s, f)
  {
    if s != [] {
      var init := s[..|s| - 1];
      GroupTotal(init, key, f);
      AddToTotal(GroupSums(init, key, f), key(s[|s| - 1]), f(s[|s| - 1]));
      assert s == init + [s[|s| - 1]];
      SumAppend(init, [s[|s| - 1]], f);
    }
  }

  // -------------------------------------------------- the dictionary itself

  /** Object.entries of a dictionary whose keys were inserted in `order`. */
  function Entries(order: seq<string>, acc: map<string, int>): (r: seq<Entry>)
    requires forall k :: k in order ==> k in acc
    ensures |r| == |order|
    ensures forall i :: 0 <= i < |order| ==> r[i] == Entry(order[i], acc[order[i]])
  {
    if order == [] then []
    else [Entry(order[0], acc[order[0]])] + Entries(order[1..], acc)
  }

  /**
   * A dictionary holding, for each distinct key in order of first insertion,
   * the total of that key's items has exactly the grouped entries.
   */
  lemma {:induction false} EntriesOfTotals<T>(s: seq<T>, key: T -> string, f: T -> int,
                                               order: seq<string>, acc: map<string, int>)
    requires order == Distinct(Map(s, key))
    requires forall k :: k in order ==> k in acc && acc[k] == KeySum(s, key, f, k)
    ensures Entries(order, acc) == GroupSums(s, key, f)
  {
    var g := GroupSums(s, key, f);
    var e := Entries(order, acc);
    GroupNames(s, key, f);
    GroupValues(s, key, f);
    assert |g| == |order|;
    forall i | 0 <= i < |g|
      ensures e[i] == g[i]
    {
      assert g[i].name == Map(g, EntryName)[i] == order[i];
    }
  }

  /** The total for k after one more item. */
  lemma KeySumStep<T>(s: seq<T>, key: T -> string, f: T -> int, i: int, k: string)
    requires 0 <= i < |s|
    ensures KeySum(s[..i + 1], key, f, k) == KeySum(s[..i], key, f, k) + (if key(s[i]) == k then f(s[i]) else 0)
  {
    assert s[..i + 1][..i] == s[..i];
  }

  /** The set of keys after one more item. */
  lemma DistinctStep<T>(s: seq<T>, key: T -> string, i: int)
    requires 0 <= i < |s|
    ensures Distinct(Map(s[..i + 1], key))
         == if key(s[i]) in Distinct(Map(s[..i], key)) then Distinct(Map(s[..i], key))
            else Distinct(Map(s[..i], key)) + [key(s[i])]
  {
    MapInit(s[..i + 1], key);
    assert s[..i + 1][..i] == s[..i];
    var m := Map(s[..i + 1], key);
    assert m[..|m| - 1] == Map(s[..i], key);
  }

  /**
   * The dictionary after the first i items: its keys in order of first
   * insertion are the distinct keys so far, and each holds its key's total.
   */
  ghost predicate Accumulated<T>(s: seq<T>, key: T -> string, f: T -> int, i: int,
                                 order: seq<string>, acc: map<string, int>)
    requires 0 <= i <= |s|
  {
    && (forall k :: k in order <==> k in acc)
    && order == Distinct(Map(s[..i], key))
    && (forall k :: k in acc ==> acc[k] == KeySum(s[..i], key, f, k))
  }

  /** One item through the dictionary keeps the loop's invariant. */
  lemma LoopStep<T>(s: seq<T>, key: T -> string, f: T -> int, i: int,
                    o0: seq<string>, a0: map<string, int>, o1: seq<string>, a1: map<string, int>)
    requires 0 <= i < |s|
    requires Accumulated(s, key, f, i, o0, a0)
    requires o1 == if key(s[i]) in a0 then o0 else o0 + [key(s[i])]
    requires a1 == a0[key(s[i]) := (if key(s[i]) in a0 then a0[key(s[i])] else 0) + f(s[i])]
    ensures Accumulated(s, key, f, i + 1, o1, a1)
  {
    var k := key(s[i]);
    DistinctStep(s, key, i);
    DistinctMembers(Map(s[..i], key));
    DistinctMembers(Map(s[..i + 1], key));
    if k !in a0 {
      KeySumAbsent(s[..i], key, f, k);
    }
    AccStep(s, key, f, i, a0, a1);
  }

  /** The totals after one more item. */
  lemma AccStep<T>(s: seq<T>, key: T -> string, f: T -> int, i: int, a0: map<string, int>, a1: map<string, int>)
    requires 0 <= i < |s|
    requires forall k :: k in a0 ==> a0[k] == KeySum(s[..i], key, f, k)
    requires key(s[i]) !in a0 ==> KeySum(s[..i], key, f, key(s[i])) == 0
    requires a1 == a0[key(s[i]) := (if key(s[i]) in a0 then a0[key(s[i])] else 0) + f(s[i])]
    ensures forall k :: k in a1 ==> a1[k] == KeySum(s[..i + 1], key, f, k)
  {
    forall j | j in a1
      ensures a1[j] == KeySum(s[..i + 1], key, f, j)
    {
      KeySumStep(s, key, f, i, j);
    }
  }

  /**
   * The reduce as the source runs it: a dictionary `acc`, the keys in order
   * of first insertion, `if (!acc[k]) acc[k] = 0; acc[k] += f(x)` for each
   * item, then Object.entries.
   */
  method GroupByKey<T>(s: seq<T>, key: T -> string, f: T -> int) returns (entries: seq<Entry>)
    ensures entries == GroupSums(s, key, f)
  {
    var acc: map<string, int> := map[];
    var order: seq<string> := [];
    var i := 0;
    while i < |s|
      invariant 0 <= i <= |s|
      invariant Accumulated(s, key, f, i, order, acc)
    {
      var k := key(s[i]);
      ghost var a0 := acc;
      ghost var o0 := order;
      if k !in acc || acc[k] == 0 {
        if k !in acc {
          order := order + [k];
        }
        acc := acc[k := 0];
      }
      acc := acc[k := acc[k] + f(s[i])];
      LoopStep(s, key, f, i, o0, a0, order, acc);
      i := i + 1;
    }
    assert s[..i] == s;
    EntriesOfTotals(s, key, f, order, acc);
    entries := Entries(order, acc);
  }
}
