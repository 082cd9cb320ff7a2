/**
 * Python's insertion-ordered `dict` with string keys, as a sequence of
 * entries: assigning to an existing key keeps its position, a new key is
 * appended, and iteration follows the sequence.
 */
module Dicts {
  import opened Wrappers

  type Dict<V> = seq<(string, V)>

  function Keys<V>(d: Dict<V>): (ks: seq<string>)
    ensures |ks| == |d|
    ensures forall i :: 0 <= i < |d| ==> ks[i] == d[i].0
  {
    seq(|d|, i requires 0 <= i < |d| => d[i].0)
  }

  function Values<V>(d: Dict<V>): (vs: seq<V>)
    ensures |vs| == |d|
    ensures forall i :: 0 <= i < |d| ==> vs[i] == d[i].1
  {
    seq(|d|, i requires 0 <= i < |d| => d[i].1)
  }

  /** Every key occurs once, as in a real dict. */
  predicate UniqueKeys<V>(d: Dict<V>) {
    forall i, j :: 0 <= i < j < |d| ==> d[i].0 != d[j].0
  }

  /** `d.get(k)`: the value of the first entry with key `k`. */
  function Get<V>(d: Dict<V>, k: string): (r: Option<V>)
    ensures r.None? <==> k !in Keys(d)
    ensures r.Some? ==> exists i :: 0 <= i < |d| && d[i] == (k, r.value)
    decreases |d|
  {
    if d == [] then None
    else if d[0].0 == k then Some(d[0].1)
    else
      var r := Get(d[1..], k);
      assert Keys(d) == [d[0].0] + Keys(d[1..]);
      assert r.Some? ==> exists i :: 0 <= i < |d| && d[i] == (k, r.value) by {
        if r.Some? {
          var i :| 0 <= i < |d[1..]| && d[1..][i] == (k, r.value);
          assert d[i + 1] == (k, r.value);
        }
      }
      r
  }

  /** In a dict with unique keys, each entry is what `get` returns for its key. */
  lemma {:induction false} GetEntry<V>(d: Dict<V>, i: nat)
    requires UniqueKeys(d) && i < |d|
    ensures Get(d, d[i].0) == Some(d[i].1)
    decreases i
  {
    if i > 0 {
      assert d[0].0 != d[i].0;
      GetEntry(d[1..], i - 1);
    }
  }

  /** `d[k] = v` */
  function Put<V>(d: Dict<V>, k: string, v: V): (r: Dict<V>)
    ensures k in Keys(d) ==> Keys(r) == Keys(d)
    ensures k !in Keys(d) ==> r == d + [(k, v)]
    decreases |d|
  {
    if d == [] then [(k, v)]
    else if d[0].0 == k then [(k, v)] + d[1..]
    else
      assert Keys(d) == [d[0].0] + Keys(d[1..]);
      var r := [d[0]] + Put(d[1..], k, v);
      assert Keys(r) == [d[0].0] + Keys(Put(d[1..], k, v));
      r
  }

  /** After `d[k] = v`, `d.get(k)` is `v` and every other key reads as before. */
  lemma {:induction false} GetPut<V>(d: Dict<V>, k: string, v: V, k': string)
    ensures Get(Put(d, k, v), k') == if k' == k then Some(v) else Get(d, k')
    decreases |d|
  {
    if d != [] && d[0].0 != k {
      GetPut(d[1..], k, v, k');
    }
  }

  lemma KeysTail<V>(d: Dict<V>, k: string)
    requires k in Keys(d) && d[0].0 != k
    ensures k in Keys(d[1..])
  {
    var i :| 0 <= i < |d| && Keys(d)[i] == k;
    assert Keys(d[1..])[i - 1] == k;
  }

  lemma PutFront<V>(d: Dict<V>, k: string, v: V)
    requires d != [] && d[0].0 == k
    ensures Get(d, k) == Some(d[0].1) && Put(d, k, v) == d[0 := (k, v)]
  {
    assert [(k, v)] + d[1..] == d[0 := (k, v)];
  }

  lemma PutLater<V>(d: Dict<V>, k: string, v: V, q: nat)
    requires d != [] && d[0].0 != k && q < |d| - 1
    requires Put(d[1..], k, v) == d[1..][q := (k, v)]
    ensures Get(d, k) == Get(d[1..], k) && Put(d, k, v) == d[q + 1 := (k, v)]
  {
    ConsUpdate(d, q, (k, v));
  }

  lemma ConsUpdate<T>(s: seq<T>, q: nat, x: T)
    requires q < |s| - 1
    ensures [s[0]] + s[1..][q := x] == s[q + 1 := x]
  {
  }

  /** `d[k] = v` on a present key replaces the value at the key's first position, the one `get` reads. */
  lemma {:induction false} PutAt<V>(d: Dict<V>, k: string, v: V) returns (p: nat)
    requires k in Keys(d)
    ensures p < |d| && d[p].0 == k && Get(d, k) == Some(d[p].1)
    ensures Put(d, k, v) == d[p := (k, v)]
    decreases |d|
  {
    if d[0].0 == k {
      PutFront(d, k, v);
      p := 0;
    } else {
      KeysTail(d, k);
      var q := PutAt(d[1..], k, v);
      PutLater(d, k, v, q);
      p := q + 1;
    }
  }

  /** `d[k] = v` keeps every key unique. */
  lemma PutUnique<V>(d: Dict<V>, k: string, v: V)
    requires UniqueKeys(d)
    ensures UniqueKeys(Put(d, k, v))
  {
    var r := Put(d, k, v);
    if k in Keys(d) {
      assert Keys(r) == Keys(d);
      forall i, j | 0 <= i < j < |r| ensures r[i].0 != r[j].0 {
        assert Keys(r)[i] == Keys(d)[i] && Keys(r)[j] == Keys(d)[j];
      }
    }
  }

  /** `d[k] = v` for each pair in turn. */
  function PutAll<V>(d: Dict<V>, kvs: seq<(string, V)>): Dict<V>
    decreases |kvs|
  {
    if kvs == [] then d else PutAll(Put(d, kvs[0].0, kvs[0].1), kvs[1..])
  }

  /** The value of the last pair with key `k`. */
  function LastValue<V>(kvs: seq<(string, V)>, k: string): Option<V>
    decreases |kvs|
  {
    if kvs == [] then None
    else if kvs[|kvs| - 1].0 == k then Some(kvs[|kvs| - 1].1)
    else LastValue(kvs[..|kvs| - 1], k)
  }

  /** Assigning many pairs in turn: the last assignment to a key wins, and untouched keys read as before. */
  lemma {:induction false} GetPutAll<V>(d: Dict<V>, kvs: seq<(string, V)>, k: string)
    ensures Get(PutAll(d, kvs), k) == if LastValue(kvs, k).Some? then LastValue(kvs, k) else Get(d, k)
    decreases |kvs|
  {
    if kvs != [] {
      var d1 := Put(d, kvs[0].0, kvs[0].1);
      GetPutAll(d1, kvs[1..], k);
      GetPut(d, kvs[0].0, kvs[0].1, k);
      LastValueCons(kvs, k);
    }
  }

  lemma {:induction false} LastValueCons<V>(kvs: seq<(string, V)>, k: string)
    requires kvs != []
    ensures LastValue(kvs, k) == if LastValue(kvs[1..], k).Some? then LastValue(kvs[1..], k)
                                 else if kvs[0].0 == k then Some(kvs[0].1) else None
    decreases |kvs|
  {
    if |kvs| > 1 {
      var init := kvs[..|kvs| - 1];
      assert kvs[1..][..|kvs[1..]| - 1] == init[1..];
      if kvs[|kvs| - 1].0 != k {
        LastValueCons(init, k);
      }
    }
  }

  lemma {:induction false} PutAllAppend<V>(d: Dict<V>, a: seq<(string, V)>, b: seq<(string, V)>)
    ensures PutAll(d, a + b) == PutAll(PutAll(d, a), b)
    decreases |a|
  {
    if a == [] {
      assert a + b == b;
    } else {
      assert (a + b)[0] == a[0];
      assert (a + b)[1..] == a[1..] + b;
      PutAllAppend(Put(d, a[0].0, a[0].1), a[1..], b);
    }
  }

  /** A dict literal / a dict filled from pairs in order: `{k: v for k, v in kvs}`. */
  function FromPairs<V>(kvs: seq<(string, V)>): Dict<V> {
    PutAll([], kvs)
  }

  /** Filling a dict from pairs and then assigning one more pair is filling it from the longer list. */
  lemma FromPairsSnoc<V>(kvs: seq<(string, V)>, k: string, v: V)
    ensures FromPairs(kvs + [(k, v)]) == Put(FromPairs(kvs), k, v)
  {
    PutAllAppend([], kvs, [(k, v)]);
    assert [(k, v)][1..] == [];
  }

  predicate DistinctKeys<V>(kvs: seq<(string, V)>) {
    forall i, j :: 0 <= i < j < |kvs| ==> kvs[i].0 != kvs[j].0
  }

  lemma {:induction false} LastValueDistinct<V>(kvs: seq<(string, V)>, i: nat)
    requires DistinctKeys(kvs) && i < |kvs|
    ensures LastValue(kvs, kvs[i].0) == Some(kvs[i].1)
    decreases |kvs|
  {
    if i != |kvs| - 1 {
      LastValueDistinct(kvs[..|kvs| - 1], i);
    }
  }

  /** When no key repeats, every pair can be read back from the dict built from the pairs. */
  lemma FromPairsGet<V>(kvs: seq<(string, V)>, i: nat)
    requires DistinctKeys(kvs) && i < |kvs|
    ensures Get(FromPairs(kvs), kvs[i].0) == Some(kvs[i].1)
  {
    GetPutAll([], kvs, kvs[i].0);
    LastValueDistinct(kvs, i);
  }

  /** Every entry of a dict built by assignments is one of the assigned pairs or an entry of the start. */
  lemma {:induction false} PutAllEntries<V>(d: Dict<V>, kvs: seq<(string, V)>, e: (string, V))
    requires e in PutAll(d, kvs)
    ensures e in d || e in kvs
    decreases |kvs|
  {
    if kvs != [] {
      PutAllEntries(Put(d, kvs[0].0, kvs[0].1), kvs[1..], e);
      if e in Put(d, kvs[0].0, kvs[0].1) {
        PutEntries(d, kvs[0].0, kvs[0].1, e);
      }
    }
  }

  lemma {:induction false} PutEntries<V>(d: Dict<V>, k: string, v: V, e: (string, V))
    requires e in Put(d, k, v)
    ensures e in d || e == (k, v)
    decreases |d|
  {
    if d != [] && d[0].0 != k {
      if e != d[0] {
        PutEntries(d[1..], k, v, e);
      }
    }
  }

  /** `sum(d.values())` for a dict of counts. */
  function SumValues(d: Dict<int>): int
    decreases |d|
  {
    if d == [] then 0 else d[0].1 + SumValues(d[1..])
  }

  /** Assigning `d[k] = v` changes the sum of the values by `v` minus what `k` held before (0 when absent). */
  lemma {:induction false} SumValuesPut(d: Dict<int>, k: string, v: int)
    ensures SumValues(Put(d, k, v)) == SumValues(d) - Get(d, k).GetOr(0) + v
    decreases |d|
  {
    if d != [] {
      var r := Put(d, k, v);
      if d[0].0 == k {
        assert r[1..] == d[1..];
      } else {
        assert r[1..] == Put(d[1..], k, v);
        SumValuesPut(d[1..], k, v);
      }
    }
  }

  /** The position of the first entry at or after `from` whose key satisfies `p`. */
  function FirstKeyWhere<V>(d: Dict<V>, p: string -> bool, from: nat): (r: Option<nat>)
    requires from <= |d|
    ensures r.Some? ==> from <= r.value < |d| && p(d[r.value].0)
    ensures r.Some? ==> forall j :: from <= j < r.value ==> !p(d[j].0)
    ensures r.None? ==> forall j :: from <= j < |d| ==> !p(d[j].0)
    decreases |d| - from
  {
    if from == |d| then None
    else if p(d[from].0) then Some(from)
    else FirstKeyWhere(d, p, from + 1)
  }
}
