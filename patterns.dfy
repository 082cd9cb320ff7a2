/**
 * The fragment of Python's `re` that the designation and reference patterns
 * use: a concatenation of character classes, each repeated between a lower
 * and an optional upper bound. `MatchAt` follows the backtracking engine
 * (greedy repetition, later atoms retried first), `Search` scans for the
 * leftmost start like `re.search`, and both are proved sound and complete
 * against the declarative meaning `Derives`.
 */
module Patterns {
  import opened Wrappers
  import opened Strings

  datatype CharClass =
    | Digit                                  // \d (ASCII digits)
    | Space                                  // \s
    | Chars(members: string)                 // [...] listing its members
    | AnyCaseLetter                          // [A-Z] under re.IGNORECASE
    | Union(left: CharClass, right: CharClass)

  predicate InClass(c: char, cls: CharClass) {
    match cls
    case Digit => IsDigit(c)
    case Space => IsSpace(c)
    case Chars(m) => c in m
    // re.IGNORECASE also lets [A-Z] match dotted/dotless i, long s and the Kelvin sign
    case AnyCaseLetter =>
      'A' <= c <= 'Z' || 'a' <= c <= 'z' || c == '\U{130}' || c == '\U{131}' || c == '\U{17f}' || c == '\U{212a}'
    case Union(l, r) => InClass(c, l) || InClass(c, r)
  }

  /** `cls{min,max}`; `max == None` is an unbounded repetition. */
  datatype Atom = Atom(cls: CharClass, min: nat, max: Option<nat>)

  type Pattern = seq<Atom>

  predicate WithinMax(a: Atom, k: nat) {
    a.max.None? || k <= a.max.value
  }

  /** A literal string as a pattern. */
  function Lit(s: string): (p: Pattern)
    ensures |p| == |s|
  {
    seq(|s|, i requires 0 <= i < |s| => Atom(Chars([s[i]]), 1, Some(1)))
  }

  /** Atoms `\s*`, `\s+`, `\d+`, `\d{lo,hi}` and friends. */
  function Star(cls: CharClass): Atom { Atom(cls, 0, None) }
  function Plus(cls: CharClass): Atom { Atom(cls, 1, None) }
  function Opt(cls: CharClass): Atom { Atom(cls, 0, Some(1)) }
  function Between(cls: CharClass, lo: nat, hi: nat): Atom { Atom(cls, lo, Some(hi)) }

  /** Length of the run of class characters starting at `i`. */
  function ClassRun(cls: CharClass, s: string, i: nat): (k: nat)
    requires i <= |s|
    ensures i + k <= |s|
    ensures forall j :: i <= j < i + k ==> InClass(s[j], cls)
    ensures i + k == |s| || !InClass(s[i + k], cls)
    decreases |s| - i
  {
    if i < |s| && InClass(s[i], cls) then 1 + ClassRun(cls, s, i + 1) else 0
  }

  /** How many characters a greedy repetition of `a` takes at `i`. */
  function Greedy(a: Atom, s: string, i: nat): (k: nat)
    requires i <= |s|
    ensures i + k <= |s| && WithinMax(a, k)
    ensures forall j :: i <= j < i + k ==> InClass(s[j], a.cls)
    ensures WithinMax(a, k + 1) && i + k < |s| ==> !InClass(s[i + k], a.cls)
  {
    var n := ClassRun(a.cls, s, i);
    if a.max.Some? && a.max.value < n then a.max.value else n
  }

  /** The end of the match of `p` at `i` that the backtracking engine finds first, if any. */
  function MatchAt(p: Pattern, s: string, i: nat): (r: Option<nat>)
    requires i <= |s|
    ensures r.Some? ==> i <= r.value <= |s|
    decreases |p|, 1, 0
  {
    if p == [] then Some(i)
    else
      var n := Greedy(p[0], s, i);
      if n < p[0].min then None else TryCount(p, s, i, n)
  }

  /** Tries `k`, `k - 1`, ... `min` repetitions of the first atom, the rest of the pattern after each. */
  function TryCount(p: Pattern, s: string, i: nat, k: nat): (r: Option<nat>)
    requires p != [] && i + k <= |s| && p[0].min <= k
    ensures r.Some? ==> i <= r.value <= |s|
    decreases |p|, 0, k
  {
    match MatchAt(p[1..], s, i + k)
    case Some(e) => Some(e)
    case None => if k == p[0].min then None else TryCount(p, s, i, k - 1)
  }

  /** The declarative meaning: `w` splits into pieces each matched by one atom. */
  ghost predicate Derives(p: Pattern, w: string)
    decreases |p|
  {
    if p == [] then w == []
    else exists k :: 0 <= k <= |w| && FirstAtomTakes(p[0], w, k) && Derives(p[1..], w[k..])
  }

  /** `k` characters of `w` are an admissible repetition of `a`. */
  predicate FirstAtomTakes(a: Atom, w: string, k: nat)
    requires k <= |w|
  {
    a.min <= k && WithinMax(a, k) && forall j :: 0 <= j < k ==> InClass(w[j], a.cls)
  }

  lemma {:induction false} MatchAtSound(p: Pattern, s: string, i: nat)
    requires i <= |s| && MatchAt(p, s, i).Some?
    ensures Derives(p, s[i..MatchAt(p, s, i).value])
    decreases |p|, 1, 0
  {
    if p != [] {
      var n := Greedy(p[0], s, i);
      TryCountSound(p, s, i, n);
    }
  }

  lemma {:induction false} TryCountSound(p: Pattern, s: string, i: nat, k: nat)
    requires p != [] && i + k <= |s| && p[0].min <= k && WithinMax(p[0], k)
    requires forall j :: i <= j < i + k ==> InClass(s[j], p[0].cls)
    requires TryCount(p, s, i, k).Some?
    ensures Derives(p, s[i..TryCount(p, s, i, k).value])
    decreases |p|, 0, k
  {
    if MatchAt(p[1..], s, i + k).Some? {
      MatchAtSound(p[1..], s, i + k);
      DerivesCons(p, s, i, k, MatchAt(p[1..], s, i + k).value);
    } else {
      TryCountSound(p, s, i, k - 1);
    }
  }

  /** An admissible repetition of the first atom followed by a derivation of the rest derives the whole. */
  lemma DerivesCons(p: Pattern, s: string, i: nat, k: nat, e: nat)
    requires p != [] && i + k <= e <= |s| && p[0].min <= k && WithinMax(p[0], k)
    requires forall j :: i <= j < i + k ==> InClass(s[j], p[0].cls)
    requires Derives(p[1..], s[i + k..e])
    ensures Derives(p, s[i..e])
  {
    var w := s[i..e];
    assert w[k..] == s[i + k..e];
    assert FirstAtomTakes(p[0], w, k) by {
      forall j | 0 <= j < k ensures InClass(w[j], p[0].cls) {
        assert w[j] == s[i + j];
      }
    }
  }

  /** Whenever some text at `i` is matched by `p`, the engine finds a match at `i`. */
  lemma {:induction false} MatchAtComplete(p: Pattern, s: string, i: nat, e: nat)
    requires i <= e <= |s| && Derives(p, s[i..e])
    ensures MatchAt(p, s, i).Some?
    decreases |p|, 1, 0
  {
    if p != [] {
      var k0 := DerivesFirst(p, s, i, e);
      MatchAtComplete(p[1..], s, i + k0, e);
      ClassRunCovers(p[0].cls, s, i, k0);
      TryCountFrom(p, s, i, Greedy(p[0], s, i), k0);
    }
  }

  /** A derivation of `s[i..e]` starts with some admissible repetition of the first atom. */
  lemma DerivesFirst(p: Pattern, s: string, i: nat, e: nat) returns (k0: nat)
    requires p != [] && i <= e <= |s| && Derives(p, s[i..e])
    ensures i + k0 <= e && p[0].min <= k0 && WithinMax(p[0], k0)
    ensures forall j :: i <= j < i + k0 ==> InClass(s[j], p[0].cls)
    ensures Derives(p[1..], s[i + k0..e])
  {
    var w := s[i..e];
    k0 :| 0 <= k0 <= |w| && FirstAtomTakes(p[0], w, k0) && Derives(p[1..], w[k0..]);
    assert w[k0..] == s[i + k0..e];
    forall j | i <= j < i + k0 ensures InClass(s[j], p[0].cls) {
      assert s[j] == w[j - i];
    }
  }

  /** A run of `k` class characters at `i` is no longer than the maximal run there. */
  lemma {:induction false} ClassRunCovers(cls: CharClass, s: string, i: nat, k: nat)
    requires i + k <= |s|
    requires forall j :: i <= j < i + k ==> InClass(s[j], cls)
    ensures k <= ClassRun(cls, s, i)
    decreases k
  {
    if k > 0 {
      ClassRunCovers(cls, s, i + 1, k - 1);
    }
  }

  lemma {:induction false} TryCountFrom(p: Pattern, s: string, i: nat, k: nat, k0: nat)
    requires p != [] && i + k <= |s| && p[0].min <= k0 <= k
    requires MatchAt(p[1..], s, i + k0).Some?
    ensures TryCount(p, s, i, k).Some?
    decreases k
  {
    if MatchAt(p[1..], s, i + k).None? {
      assert k != k0;
      TryCountFrom(p, s, i, k - 1, k0);
    }
  }

  /** `re.search`: the leftmost start at or after `start` where the engine matches, with its end. */
  function SearchFrom(p: Pattern, s: string, start: nat): (r: Option<(nat, nat)>)
    requires start <= |s|
    ensures r.Some? ==> start <= r.value.0 <= r.value.1 <= |s| && MatchAt(p, s, r.value.0) == Some(r.value.1)
    ensures r.Some? ==> forall b :: start <= b < r.value.0 ==> MatchAt(p, s, b).None?
    ensures r.None? ==> forall b :: start <= b <= |s| ==> MatchAt(p, s, b).None?
    decreases |s| - start
  {
    var m := MatchAt(p, s, start);
    if m.Some? then Some((start, m.value))
    else if start == |s| then None
    else SearchFrom(p, s, start + 1)
  }

  function Search(p: Pattern, s: string): Option<(nat, nat)> {
    SearchFrom(p, s, 0)
  }

  /** `m.group()` of `re.search(p, s)`. */
  function SearchText(p: Pattern, s: string): Option<string> {
    match Search(p, s)
    case Some((b, e)) => Some(s[b..e])
    case None => None
  }

  /**
   * `re.search` finds a matched piece of text exactly when one exists, the
   * piece it returns is matched by the pattern, and no match starts earlier.
   */
  lemma SearchCorrect(p: Pattern, s: string)
    ensures Search(p, s).Some? ==>
      var (b, e) := Search(p, s).value;
      Derives(p, s[b..e]) && forall b', e' :: 0 <= b' < b && b' <= e' <= |s| ==> !Derives(p, s[b'..e'])
    ensures Search(p, s).None? <==> forall b, e :: 0 <= b <= e <= |s| ==> !Derives(p, s[b..e])
  {
    if Search(p, s).Some? {
      var (b, e) := Search(p, s).value;
      MatchAtSound(p, s, b);
      forall b', e' | 0 <= b' < b && b' <= e' <= |s| ensures !Derives(p, s[b'..e']) {
        if Derives(p, s[b'..e']) {
          MatchAtComplete(p, s, b', e');
        }
      }
      MatchAtSound(p, s, b);
    } else {
      forall b, e | 0 <= b <= e <= |s| ensures !Derives(p, s[b..e]) {
        if Derives(p, s[b..e]) {
          MatchAtComplete(p, s, b, e);
        }
      }
    }
  }
}
