/**
 * Left-to-right loops over a list: appending what each element contributes,
 * summing a quantity per element, and searching for the first element with a
 * property. Stated once for any contribution, so that splitting the list is
 * proved once.
 */
module Folds {
  import opened Wrappers

  /** `out = []; for x in s: out += f(x)` */
  function ConcatMap<T, U>(s: seq<T>, f: T -> seq<U>): seq<U>
    decreases |s|
  {
    if s == [] then [] else ConcatMap(s[..|s| - 1], f) + f(s[|s| - 1])
  }

  /** `[f(x) for x in s]` */
  function Map<T, U>(s: seq<T>, f: T -> U): seq<U> {
    seq(|s|, i requires 0 <= i < |s| => f(s[i]))
  }

  /** The image of a list with one more element ends with that element's image. */
  lemma MapSnoc<T, U>(s: seq<T>, f: T -> U, i: nat)
    requires i < |s|
    ensures Map(s[..i + 1], f) == Map(s[..i], f) + [f(s[i])]
  {
    var a := Map(s[..i + 1], f);
    var b := Map(s[..i], f) + [f(s[i])];
    assert |a| == |b|;
    forall k | 0 <= k < |a| ensures a[k] == b[k] {
      if k < i {
        assert s[..i + 1][k] == s[..i][k];
      }
    }
  }

  /** `{i: f(x) for i, x in enumerate(s) if keep(x)}` */
  function Columns<T, U>(s: seq<T>, keep: T -> bool, f: T -> U): map<nat, U> {
    map i: nat | i < |s| && keep(s[i]) :: f(s[i])
  }

  /** One more element adds its position exactly when it is kept. */
  lemma ColumnsSnoc<T, U>(s: seq<T>, x: T, keep: T -> bool, f: T -> U)
    ensures Columns(s + [x], keep, f) == if keep(x) then Columns(s, keep, f)[|s| := f(x)] else Columns(s, keep, f)
  {
    var longer := s + [x];
    var after := Columns(longer, keep, f);
    var wanted := if keep(x) then Columns(s, keep, f)[|s| := f(x)] else Columns(s, keep, f);
    forall i: nat ensures (i in after <==> i in wanted) && (i in after ==> after[i] == wanted[i]) {
      if i < |s| {
        assert longer[i] == s[i];
      }
    }
    assert after == wanted;
  }

  /** `[f(i, x) for i, x in enumerate(s)]` */
  function MapIndexed<T, U>(s: seq<T>, f: (nat, T) -> U): seq<U> {
    seq(|s|, i requires 0 <= i < |s| => f(i, s[i]))
  }

  /** The indexed image of a list with one more element ends with that element's image at its position. */
  lemma MapIndexedSnoc<T, U>(s: seq<T>, f: (nat, T) -> U, i: nat)
    requires i < |s|
    ensures MapIndexed(s[..i + 1], f) == MapIndexed(s[..i], f) + [f(i, s[i])]
  {
    var a := MapIndexed(s[..i + 1], f);
    var b := MapIndexed(s[..i], f) + [f(i, s[i])];
    assert |a| == |b|;
    forall k | 0 <= k < |a| ensures a[k] == b[k] {
      if k < i {
        assert s[..i + 1][k] == s[..i][k];
      }
    }
  }

  /** Each element contributes its piece in order, so the pieces of a split list join up. */
  lemma {:induction false} ConcatMapAppend<T, U>(a: seq<T>, b: seq<T>, f: T -> seq<U>)
    ensures ConcatMap(a + b, f) == ConcatMap(a, f) + ConcatMap(b, f)
    decreases |b|
  {
    if b == [] {
      assert a + b == a;
    } else {
      var b' := b[..|b| - 1];
      assert (a + b)[..|a + b| - 1] == a + b';
      assert (a + b)[|a + b| - 1] == b[|b| - 1];
      ConcatMapAppend(a, b', f);
      assert ConcatMap(a, f) + ConcatMap(b', f) + f(b[|b| - 1]) == ConcatMap(a, f) + (ConcatMap(b', f) + f(b[|b| - 1]));
    }
  }

  /** One more element contributes its piece at the end. */
  lemma ConcatMapSnoc<T, U>(s: seq<T>, x: T, f: T -> seq<U>)
    ensures ConcatMap(s + [x], f) == ConcatMap(s, f) + f(x)
    ensures ConcatMap([x], f) == f(x)
  {
    assert (s + [x])[..|s|] == s;
    assert [x][..0] == [];
  }

  /** The contribution of one element sits between those of the elements before and after it. */
  lemma ConcatMapSplit<T, U>(a: seq<T>, x: T, b: seq<T>, f: T -> seq<U>)
    ensures ConcatMap(a + [x] + b, f) == ConcatMap(a, f) + f(x) + ConcatMap(b, f)
  {
    ConcatMapAppend(a + [x], b, f);
    assert (a + [x])[..|a|] == a;
  }

  lemma UpdateSplit<T>(s: seq<T>, p: nat, y: T)
    requires p < |s|
    ensures s == s[..p] + [s[p]] + s[p + 1..]
    ensures s[p := y] == s[..p] + [y] + s[p + 1..]
  {
  }

  /** Replacing one element by one that contributes `extra` more adds `extra` to the result, as a multiset. */
  lemma ConcatMapUpdate<T, U>(s: seq<T>, p: nat, y: T, f: T -> seq<U>, extra: seq<U>)
    requires p < |s| && f(y) == f(s[p]) + extra
    ensures multiset(ConcatMap(s[p := y], f)) == multiset(ConcatMap(s, f)) + multiset(extra)
  {
    UpdateSplit(s, p, y);
    ConcatMapSplit(s[..p], s[p], s[p + 1..], f);
    ConcatMapSplit(s[..p], y, s[p + 1..], f);
  }

  /** When every element contributes two items, element `i` contributes positions `2i` and `2i + 1`. */
  lemma {:induction false} ConcatMapPairs<T, U>(s: seq<T>, f: T -> seq<U>)
    requires forall x :: |f(x)| == 2
    ensures |ConcatMap(s, f)| == 2 * |s|
    ensures forall i :: 0 <= i < |s| ==> ConcatMap(s, f)[2 * i] == f(s[i])[0] && ConcatMap(s, f)[2 * i + 1] == f(s[i])[1]
    decreases |s|
  {
    if s != [] {
      var init := s[..|s| - 1];
      ConcatMapPairs(init, f);
      forall i | 0 <= i < |s| ensures ConcatMap(s, f)[2 * i] == f(s[i])[0] && ConcatMap(s, f)[2 * i + 1] == f(s[i])[1] {
        if i < |init| {
          assert s[i] == init[i];
        }
      }
    }
  }

  /** Every item of the result comes from the contribution of some element. */
  lemma {:induction false} ConcatMapOrigin<T, U>(s: seq<T>, f: T -> seq<U>, j: nat)
    requires j < |ConcatMap(s, f)|
    ensures exists i :: 0 <= i < |s| && ConcatMap(s, f)[j] in f(s[i])
    decreases |s|
  {
    var init := s[..|s| - 1];
    var last := |s| - 1;
    if j < |ConcatMap(init, f)| {
      ConcatMapOrigin(init, f, j);
      var i :| 0 <= i < |init| && ConcatMap(init, f)[j] in f(init[i]);
      assert s[i] == init[i];
    } else {
      assert ConcatMap(s, f)[j] == f(s[last])[j - |ConcatMap(init, f)|];
    }
  }

  /** Every item of the result comes from the contribution of some element. */
  lemma ConcatMapMember<T, U>(s: seq<T>, f: T -> seq<U>, e: U)
    requires e in ConcatMap(s, f)
    ensures exists i :: 0 <= i < |s| && e in f(s[i])
  {
    var j :| 0 <= j < |ConcatMap(s, f)| && ConcatMap(s, f)[j] == e;
    ConcatMapOrigin(s, f, j);
  }

  /** `total = 0; for x in s: total += f(x)` */
  function Sum<T>(s: seq<T>, f: T -> real): real
    decreases |s|
  {
    if s == [] then 0.0 else Sum(s[..|s| - 1], f) + f(s[|s| - 1])
  }

  /** A sum over a split list is the sum of the two parts. */
  lemma {:induction false} SumAppend<T>(a: seq<T>, b: seq<T>, f: T -> real)
    ensures Sum(a + b, f) == Sum(a, f) + Sum(b, f)
    decreases |b|
  {
    if b == [] {
      assert a + b == a;
    } else {
      var b' := b[..|b| - 1];
      assert (a + b)[..|a + b| - 1] == a + b';
      assert (a + b)[|a + b| - 1] == b[|b| - 1];
      SumAppend(a, b', f);
    }
  }

  /** `sum(f(x) for x in s)` over integers. */
  function SumInt<T>(s: seq<T>, f: T -> int): int
    decreases |s|
  {
    if s == [] then 0 else SumInt(s[..|s| - 1], f) + f(s[|s| - 1])
  }

  /** The position of the first element at or after `from` satisfying `p`: a `for ... if ...: break` search. */
  function FirstWhere<T>(s: seq<T>, p: T -> bool, from: nat): (r: Option<nat>)
    requires from <= |s|
    ensures r.Some? ==> from <= r.value < |s| && p(s[r.value])
    ensures r.Some? ==> forall j :: from <= j < r.value ==> !p(s[j])
    ensures r.None? ==> forall j :: from <= j < |s| ==> !p(s[j])
    decreases |s| - from
  {
    if from == |s| then None
    else if p(s[from]) then Some(from)
    else FirstWhere(s, p, from + 1)
  }
}
