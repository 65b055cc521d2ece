/** Python's Counter and defaultdict(int) as used for tallies, and the
    sorting of a tally by key (backend/app/services/dummy_data.py).
    A tally is an association list that keeps keys in the order they were
    first seen, as a Python dict does. */
module Counting {

  type Counts = seq<(string, nat)>

  /** The count recorded for k, 0 when k is absent (defaultdict(int)). */
  function Get(cs: Counts, k: string): nat {
    if cs == [] then 0 else if cs[0].0 == k then cs[0].1 else Get(cs[1..], k)
  }

  function Keys(cs: Counts): seq<string> {
    seq(|cs|, i requires 0 <= i < |cs| => cs[i].0)
  }

  /** The sum of all the counts. */
  function Total(cs: Counts): nat {
    if cs == [] then 0 else cs[0].1 + Total(cs[1..])
  }

  predicate DistinctKeys(cs: Counts) {
    forall i, j :: 0 <= i < j < |cs| ==> cs[i].0 != cs[j].0
  }

  /** Every recorded key was seen at least once. */
  predicate Positive(cs: Counts) {
    forall i :: 0 <= i < |cs| ==> cs[i].1 >= 1
  }

  /** `d[k] += 1`: bumps k in place, or appends it with count 1. */
  function Bump(cs: Counts, k: string): (r: Counts)
    ensures |r| == |cs| || |r| == |cs| + 1
  {
    if cs == [] then [(k, 1)]
    else if cs[0].0 == k then [(k, cs[0].1 + 1)] + cs[1..]
    else [cs[0]] + Bump(cs[1..], k)
  }

  /** Counter(keys): one bump per key, in order. */
  function Count(keys: seq<string>): Counts {
    if keys == [] then [] else Bump(Count(keys[..|keys| - 1]), keys[|keys| - 1])
  }

  /** Number of occurrences of k in keys. */
  function Occ(keys: seq<string>, k: string): nat {
    multiset(keys)[k]
  }

  lemma {:induction false} BumpGet(cs: Counts, k: string, j: string)
    ensures Get(Bump(cs, k), j) == Get(cs, j) + (if j == k then 1 else 0)
  {
    if cs != [] && cs[0].0 != k {
      BumpGet(cs[1..], k, j);
    }
  }

  lemma {:induction false} BumpTotal(cs: Counts, k: string)
    ensures Total(Bump(cs, k)) == Total(cs) + 1
  {
    if cs != [] && cs[0].0 != k {
      BumpTotal(cs[1..], k);
    }
  }

  /** Bumping adds k to the keys and no other. */
  lemma {:induction false} BumpKeys(cs: Counts, k: string)
    ensures forall j :: j in Keys(Bump(cs, k)) <==> j in Keys(cs) || j == k
  {
    if cs == [] {
      assert Keys(Bump(cs, k)) == [k];
    } else if cs[0].0 != k {
      BumpKeys(cs[1..], k);
      assert Keys(cs) == [cs[0].0] + Keys(cs[1..]);
      assert Keys(Bump(cs, k)) == [cs[0].0] + Keys(Bump(cs[1..], k));
    } else {
      assert Keys(Bump(cs, k)) == Keys(cs);
      assert Keys(cs)[0] == k;
    }
  }

  /** Bumping keeps the counts positive. */
  lemma {:induction false} BumpPositive(cs: Counts, k: string)
    requires Positive(cs)
    ensures Positive(Bump(cs, k))
  {
    if cs != [] && cs[0].0 != k {
      BumpPositive(cs[1..], k);
      var r := Bump(cs, k);
      assert r[1..] == Bump(cs[1..], k);
    }
  }

  /** Bumping keeps the keys distinct. */
  lemma {:induction false} BumpDistinct(cs: Counts, k: string)
    requires DistinctKeys(cs)
    ensures DistinctKeys(Bump(cs, k))
  {
    var r := Bump(cs, k);
    if cs == [] {
      assert |r| == 1;
    } else if cs[0].0 == k {
      forall i, j | 0 <= i < j < |r|
        ensures r[i].0 != r[j].0
      {
        assert r[i].0 == cs[i].0 && r[j].0 == cs[j].0;
      }
    } else {
      var b := Bump(cs[1..], k);
      BumpDistinct(cs[1..], k);
      BumpKeys(cs[1..], k);
      assert r == [cs[0]] + b;
      assert cs[0].0 !in Keys(cs[1..]);
      assert cs[0].0 !in Keys(b);
      forall i, j | 0 <= i < j < |r|
        ensures r[i].0 != r[j].0
      {
        if i == 0 {
          assert r[j].0 == Keys(b)[j - 1];
        } else {
          assert r[i] == b[i - 1] && r[j] == b[j - 1];
        }
      }
    }
  }

  /** The tally of keys records each key's number of occurrences. */
  lemma {:induction false} CountGet(keys: seq<string>, k: string)
    ensures Get(Count(keys), k) == Occ(keys, k)
  {
    if keys != [] {
      var init := keys[..|keys| - 1];
      assert keys == init + [keys[|keys| - 1]];
      CountGet(init, k);
      BumpGet(Count(init), keys[|keys| - 1], k);
    }
  }

  /** The counts add up to the number of keys tallied. */
  lemma {:induction false} CountTotal(keys: seq<string>)
    ensures Total(Count(keys)) == |keys|
  {
    if keys != [] {
      CountTotal(keys[..|keys| - 1]);
      BumpTotal(Count(keys[..|keys| - 1]), keys[|keys| - 1]);
    }
  }

  /** The tally lists each distinct key once, with a positive count, and
      lists exactly the keys seen. */
  lemma {:induction false} CountShape(keys: seq<string>)
    ensures DistinctKeys(Count(keys)) && Positive(Count(keys))
    ensures forall j :: j in Keys(Count(keys)) <==> j in keys
  {
    if keys != [] {
      var init := keys[..|keys| - 1];
      assert keys == init + [keys[|keys| - 1]];
      CountShape(init);
      BumpDistinct(Count(init), keys[|keys| - 1]);
      BumpPositive(Count(init), keys[|keys| - 1]);
      BumpKeys(Count(init), keys[|keys| - 1]);
    }
  }

  // ----- sorting a tally by key -----

  /** Python's `<` on strings: code point by code point, a proper prefix
      first. */
  predicate Less(a: string, b: string) {
    if a == [] then b != []
    else if b == [] then false
    else if a[0] != b[0] then a[0] < b[0]
    else Less(a[1..], b[1..])
  }

  /** Two different strings are always ordered one way or the other, and
      never both. */
  lemma {:induction false} LessTotal(a: string, b: string)
    ensures a != b ==> Less(a, b) || Less(b, a)
    ensures !(Less(a, b) && Less(b, a))
  {
    if a != [] && b != [] && a[0] == b[0] {
      LessTotal(a[1..], b[1..]);
      if a != b {
        assert a == [a[0]] + a[1..] && b == [b[0]] + b[1..];
      }
    }
  }

  lemma {:induction false} LessTransitive(a: string, b: string, c: string)
    requires Less(a, b) && Less(b, c)
    ensures Less(a, c)
  {
    if a != [] && a[0] == b[0] && b[0] == c[0] {
      LessTransitive(a[1..], b[1..], c[1..]);
    }
  }

  /** The keys strictly increase along cs. */
  predicate SortedByKey(cs: Counts) {
    forall i, j :: 0 <= i < j < |cs| ==> Less(cs[i].0, cs[j].0)
  }

  /** Places entry e before the first entry with a greater key. */
  function Insert(e: (string, nat), cs: Counts): Counts {
    if cs == [] || Less(e.0, cs[0].0) then [e] + cs
    else [cs[0]] + Insert(e, cs[1..])
  }

  /** `sorted(d.items())` on a dict: its entries in ascending key order. */
  function SortByKey(cs: Counts): Counts {
    if cs == [] then [] else Insert(cs[0], SortByKey(cs[1..]))
  }

  lemma {:induction false} InsertEntries(e: (string, nat), cs: Counts)
    ensures multiset(Insert(e, cs)) == multiset(cs) + multiset{e}
  {
    if cs != [] && !Less(e.0, cs[0].0) {
      InsertEntries(e, cs[1..]);
      assert cs == [cs[0]] + cs[1..];
    }
  }

  lemma {:induction false} InsertSorted(e: (string, nat), cs: Counts)
    requires SortedByKey(cs)
    requires forall i :: 0 <= i < |cs| ==> cs[i].0 != e.0
    ensures SortedByKey(Insert(e, cs))
  {
    if cs != [] && !Less(e.0, cs[0].0) {
      LessTotal(e.0, cs[0].0);
      InsertSorted(e, cs[1..]);
      InsertEntries(e, cs[1..]);
      var r := Insert(e, cs[1..]);
      forall j | 0 <= j < |r|
        ensures Less(cs[0].0, r[j].0)
      {
        assert r[j] in multiset(cs[1..]) + multiset{e};
        if r[j] != e {
          assert r[j] in cs[1..];
        }
      }
    } else if cs != [] {
      forall j | 1 <= j < |cs|
        ensures Less(e.0, cs[j].0)
      {
        LessTransitive(e.0, cs[0].0, cs[j].0);
      }
    }
  }

  /** Sorting a tally keeps its entries (so every count and the total) and
      puts its keys in strictly ascending order. */
  lemma {:induction false} SortByKeyCorrect(cs: Counts)
    requires DistinctKeys(cs)
    ensures multiset(SortByKey(cs)) == multiset(cs)
    ensures SortedByKey(SortByKey(cs))
  {
    if cs != [] {
      SortByKeyCorrect(cs[1..]);
      InsertEntries(cs[0], SortByKey(cs[1..]));
      assert cs == [cs[0]] + cs[1..];
      forall i | 0 <= i < |SortByKey(cs[1..])|
        ensures SortByKey(cs[1..])[i].0 != cs[0].0
      {
        var x := SortByKey(cs[1..])[i];
        assert x in multiset(cs[1..]);
        var k :| 0 <= k < |cs[1..]| && cs[1..][k] == x;
        assert cs[k + 1] == x;
      }
      InsertSorted(cs[0], SortByKey(cs[1..]));
    }
  }

  // ----- sorting keeps totals and counts -----

  lemma {:induction false} InsertTotal(e: (string, nat), cs: Counts)
    ensures Total(Insert(e, cs)) == e.1 + Total(cs)
  {
    if cs != [] && !Less(e.0, cs[0].0) {
      InsertTotal(e, cs[1..]);
    }
  }

  lemma {:induction false} SortByKeyTotal(cs: Counts)
    ensures Total(SortByKey(cs)) == Total(cs)
  {
    if cs != [] {
      SortByKeyTotal(cs[1..]);
      InsertTotal(cs[0], SortByKey(cs[1..]));
    }
  }

  lemma {:induction false} InsertGet(e: (string, nat), cs: Counts, k: string)
    requires forall i :: 0 <= i < |cs| ==> cs[i].0 != e.0
    ensures Get(Insert(e, cs), k) == if e.0 == k then e.1 else Get(cs, k)
  {
    if cs != [] && !Less(e.0, cs[0].0) {
      InsertGet(e, cs[1..], k);
    } else if cs != [] && e.0 == k {
      assert Insert(e, cs)[0] == e;
    }
  }

  lemma {:induction false} SortByKeyGet(cs: Counts, k: string)
    requires DistinctKeys(cs)
    ensures Get(SortByKey(cs), k) == Get(cs, k)
  {
    if cs != [] {
      SortByKeyGet(cs[1..], k);
      SortByKeyCorrect(cs[1..]);
      forall i | 0 <= i < |SortByKey(cs[1..])|
        ensures SortByKey(cs[1..])[i].0 != cs[0].0
      {
        var x := SortByKey(cs[1..])[i];
        assert x in multiset(cs[1..]);
      }
      InsertGet(cs[0], SortByKey(cs[1..]), k);
    }
  }
}
