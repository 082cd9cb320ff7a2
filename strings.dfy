/**
 * Text helpers with the meaning of the Python `str` methods and `re.sub`
 * calls the core uses: `isspace`, `upper`, `lower`, `strip`,
 * `re.sub(r'\s+', ' ', ...)`, `in`, `split()`, `split('\n')`, slicing and
 * `sorted` on strings (code-point order).
 */
module Strings {

  /** `c.isspace()`, which is also what `\s` matches in a `str` pattern. */
  predicate IsSpace(c: char) {
    c == ' ' || ('\t' <= c <= '\r') || ('\U{1c}' <= c <= '\U{1f}') || c == '\U{85}' || c == '\U{a0}'
    || c == '\U{1680}' || ('\U{2000}' <= c <= '\U{200a}') || c == '\U{2028}' || c == '\U{2029}'
    || c == '\U{202f}' || c == '\U{205f}' || c == '\U{3000}'
  }

  /** ASCII digit (`\d` restricted to ASCII). */
  predicate IsDigit(c: char) {
    '0' <= c <= '9'
  }

  /** `c.upper()` for the letters of ASCII and Latin-1 (plus dotless i and long s, which the Turkish and old texts use). */
  function UpperChar(c: char): char {
    if 'a' <= c <= 'z' || ('\U{e0}' <= c <= '\U{fe}' && c != '\U{f7}') then (c as int - 32) as char
    else if c == '\U{b5}' then '\U{39c}'
    else if c == '\U{ff}' then '\U{178}'
    else if c == '\U{131}' then 'I'
    else if c == '\U{17f}' then 'S'
    else c
  }

  /** `c.lower()` for the letters of ASCII and Latin-1. */
  function LowerChar(c: char): char {
    if 'A' <= c <= 'Z' || ('\U{c0}' <= c <= '\U{de}' && c != '\U{d7}') then (c as int + 32) as char
    else if c == '\U{178}' then '\U{ff}'
    else c
  }

  function Upper(s: string): (r: string)
    ensures |r| == |s|
    ensures forall i :: 0 <= i < |s| ==> r[i] == UpperChar(s[i])
  {
    seq(|s|, i requires 0 <= i < |s| => UpperChar(s[i]))
  }

  function Lower(s: string): (r: string)
    ensures |r| == |s|
    ensures forall i :: 0 <= i < |s| ==> r[i] == LowerChar(s[i])
  {
    seq(|s|, i requires 0 <= i < |s| => LowerChar(s[i]))
  }

  /** Upper-casing is idempotent and leaves white space alone. */
  lemma UpperCharFacts(c: char)
    ensures UpperChar(UpperChar(c)) == UpperChar(c)
    ensures IsSpace(c) ==> UpperChar(c) == c
    ensures IsSpace(UpperChar(c)) ==> IsSpace(c)
  {
  }

  lemma UpperIdempotent(s: string)
    ensures Upper(Upper(s)) == Upper(s)
  {
    forall i | 0 <= i < |s| {
      UpperCharFacts(s[i]);
    }
  }

  /** `s.lstrip()` */
  function LStrip(s: string): (r: string)
    ensures |r| <= |s|
    ensures r == [] || !IsSpace(r[0])
    ensures forall i :: 0 <= i < |s| - |r| ==> IsSpace(s[i])
    decreases |s|
  {
    if |s| > 0 && IsSpace(s[0]) then LStrip(s[1..]) else s
  }

  /** `s.rstrip()` */
  function RStrip(s: string): (r: string)
    ensures |r| <= |s|
    ensures r == [] || !IsSpace(r[|r| - 1])
    ensures forall i :: |r| <= i < |s| ==> IsSpace(s[i])
    decreases |s|
  {
    if |s| > 0 && IsSpace(s[|s| - 1]) then RStrip(s[..|s| - 1]) else s
  }

  /** Left-stripping keeps a suffix of the string. */
  lemma {:induction false} LStripSuffix(s: string)
    ensures LStrip(s) == s[|s| - |LStrip(s)|..]
    decreases |s|
  {
    if |s| > 0 && IsSpace(s[0]) {
      LStripSuffix(s[1..]);
      assert s[1..][|s| - 1 - |LStrip(s)|..] == s[|s| - |LStrip(s)|..];
    }
  }

  /** Right-stripping keeps a prefix of the string. */
  lemma {:induction false} RStripPrefix(s: string)
    ensures RStrip(s) == s[..|RStrip(s)|]
    decreases |s|
  {
    if |s| > 0 && IsSpace(s[|s| - 1]) {
      RStripPrefix(s[..|s| - 1]);
      assert s[..|s| - 1][..|RStrip(s)|] == s[..|RStrip(s)|];
    }
  }

  /** `s.strip()`: neither end of the result is white space, and only white space was removed. */
  function Strip(s: string): (r: string)
    ensures |r| <= |s|
    ensures r == [] || (!IsSpace(r[0]) && !IsSpace(r[|r| - 1]))
    ensures forall c :: c in r ==> c in s
  {
    var t := LStrip(s);
    var r := RStrip(t);
    LStripSuffix(s);
    RStripPrefix(t);
    assert forall c :: c in r ==> c in t;
    r
  }

  /** Characters that white-space normalisation treats as one separator. */
  predicate CollapsedSpacing(r: string) {
    (forall i :: 0 <= i < |r| ==> (IsSpace(r[i]) ==> r[i] == ' '))
    && (forall i :: 0 <= i < |r| - 1 ==> !DoubleBlankAt(r, i))
  }

  /** Positions `i` and `i + 1` both hold a blank. */
  predicate DoubleBlankAt(r: string, i: nat)
    requires i + 1 < |r|
  {
    r[i] == ' ' && r[i + 1] == ' '
  }

  /** Prepending one character keeps the spacing collapsed when it does not form a double blank. */
  lemma ConsCollapsed(c: char, rest: string)
    requires CollapsedSpacing(rest)
    requires IsSpace(c) ==> c == ' '
    requires c == ' ' && rest != [] ==> rest[0] != ' '
    ensures CollapsedSpacing([c] + rest)
  {
    var r := [c] + rest;
    forall i | 0 <= i < |r| - 1 ensures !DoubleBlankAt(r, i) {
      if i > 0 {
        assert r[i] == rest[i - 1] && r[i + 1] == rest[i];
        assert !DoubleBlankAt(rest, i - 1);
      }
    }
  }

  /** `re.sub(r'\s+', ' ', s)`: every run of white space becomes one blank. */
  function Collapse(s: string): (r: string)
    decreases |s|
  {
    if s == [] then []
    else if IsSpace(s[0]) then [' '] + Collapse(LStrip(s[1..]))
    else [s[0]] + Collapse(s[1..])
  }

  /** Collapsing leaves single blanks only. */
  lemma {:induction false} CollapseSpacing(s: string)
    ensures CollapsedSpacing(Collapse(s))
    decreases |s|
  {
    if s != [] {
      if IsSpace(s[0]) {
        var t := LStrip(s[1..]);
        CollapseSpacing(t);
        CollapseHead(t);
        ConsCollapsed(' ', Collapse(t));
      } else {
        CollapseSpacing(s[1..]);
        ConsCollapsed(s[0], Collapse(s[1..]));
      }
    }
  }

  /** Collapsing never lengthens, empties only the empty string, and keeps the first character up to blanks. */
  lemma {:induction false} CollapseHead(s: string)
    ensures |Collapse(s)| <= |s| && (|s| == 0 <==> |Collapse(s)| == 0)
    ensures |s| > 0 ==> Collapse(s)[0] == (if IsSpace(s[0]) then ' ' else s[0])
    decreases |s|
  {
    if s != [] {
      if IsSpace(s[0]) {
        CollapseHead(LStrip(s[1..]));
      } else {
        CollapseHead(s[1..]);
      }
    }
  }

  /** Collapsing keeps the last character up to blanks. */
  lemma {:induction false} CollapseLast(s: string)
    requires s != []
    ensures var r := Collapse(s);
      r != [] && r[|r| - 1] == (if IsSpace(s[|s| - 1]) then ' ' else s[|s| - 1])
    decreases |s|
  {
    if IsSpace(s[0]) {
      var t := LStrip(s[1..]);
      LStripSuffix(s[1..]);
      assert Collapse(s) == [' '] + Collapse(t);
      if t != [] {
        assert t[|t| - 1] == s[|s| - 1];
        CollapseLast(t);
      } else {
        assert Collapse(t) == [];
        assert IsSpace(s[|s| - 1]) by {
          if |s| > 1 {
            assert s[|s| - 1] == s[1..][|s| - 2];
          }
        }
      }
    } else {
      var t := s[1..];
      assert Collapse(s) == [s[0]] + Collapse(t);
      if t != [] {
        CollapseLast(t);
        assert t[|t| - 1] == s[|s| - 1];
      } else {
        assert Collapse(t) == [];
      }
    }
  }

  /** Collapsing introduces no character other than the blank. */
  lemma {:induction false} CollapseChars(s: string)
    ensures forall c :: c in Collapse(s) ==> c == ' ' || c in s
    decreases |s|
  {
    if s != [] {
      if IsSpace(s[0]) {
        var t := LStrip(s[1..]);
        LStripSuffix(s[1..]);
        CollapseChars(t);
        assert forall c :: c in t ==> c in s;
      } else {
        CollapseChars(s[1..]);
        assert forall c :: c in s[1..] ==> c in s;
      }
    }
  }

  /** A string already in the form `Clean` produces: trimmed, single blanks only. */
  predicate IsClean(s: string) {
    CollapsedSpacing(s) && (s == [] || (!IsSpace(s[0]) && !IsSpace(s[|s| - 1])))
  }

  /** `re.sub(r'\s+', ' ', s.strip())` */
  function Clean(s: string): (r: string)
    ensures IsClean(r)
    ensures forall c :: c in r ==> c == ' ' || c in s
  {
    var t := Strip(s);
    CollapseTrimmed(t);
    CollapseChars(t);
    Collapse(t)
  }

  /** Normalising the spacing of a string with a non-blank character leaves something. */
  lemma CleanNonEmpty(s: string, i: nat)
    requires i < |s| && !IsSpace(s[i])
    ensures Clean(s) != []
  {
    var t := LStrip(s);
    assert t != [];
    assert !IsSpace(t[0]);
    assert RStrip(t) != [];
    CollapseHead(RStrip(t));
  }

  /** Collapsing a string with no white space at either end gives a clean string. */
  lemma CollapseTrimmed(t: string)
    requires t == [] || (!IsSpace(t[0]) && !IsSpace(t[|t| - 1]))
    ensures IsClean(Collapse(t))
  {
    var r := Collapse(t);
    assert CollapsedSpacing(r) by {
      CollapseSpacing(t);
    }
    assert r == [] || (!IsSpace(r[0]) && !IsSpace(r[|r| - 1])) by {
      CollapseHead(t);
      if t != [] {
        CollapseLast(t);
      }
    }
  }

  lemma {:induction false} LStripClean(s: string)
    requires s == [] || !IsSpace(s[0])
    ensures LStrip(s) == s
  {
  }

  lemma {:induction false} CollapseOfCollapsed(s: string)
    requires CollapsedSpacing(s)
    requires s == [] || !IsSpace(s[0])
    ensures Collapse(s) == s
    decreases |s|
  {
    if s != [] {
      var t := s[1..];
      assert Collapse(s) == [s[0]] + Collapse(t);
      assert Collapse(t) == t by {
        CollapsedTail(s);
        if t != [] && IsSpace(t[0]) {
          CollapseOfCollapsedBlank(t);
        } else {
          CollapseOfCollapsed(t);
        }
      }
      assert s == [s[0]] + t;
    }
  }

  /** A collapsed string that starts with its single blank is left as it is. */
  lemma {:induction false} CollapseOfCollapsedBlank(t: string)
    requires CollapsedSpacing(t) && t != [] && IsSpace(t[0])
    ensures Collapse(t) == t
    decreases |t|, 0
  {
    var u := t[1..];
    assert t == [' '] + u by {
      assert t[0] == ' ';
    }
    assert LStrip(u) == u by {
      assert u == [] || !IsSpace(u[0]) by {
        if u != [] {
          assert !DoubleBlankAt(t, 0);
        }
      }
      LStripClean(u);
    }
    assert Collapse(u) == u by {
      CollapsedTail(t);
      assert u == [] || !IsSpace(u[0]) by {
        if u != [] {
          assert !DoubleBlankAt(t, 0);
        }
      }
      CollapseOfCollapsed(u);
    }
    assert Collapse(t) == [' '] + Collapse(LStrip(u));
  }

  /** Dropping the first character keeps the spacing collapsed. */
  lemma CollapsedTail(s: string)
    requires CollapsedSpacing(s) && s != []
    ensures CollapsedSpacing(s[1..])
  {
    var t := s[1..];
    forall i | 0 <= i < |t| - 1 ensures !DoubleBlankAt(t, i) {
      assert t[i] == s[i + 1] && t[i + 1] == s[i + 2];
      assert !DoubleBlankAt(s, i + 1);
    }
  }

  /** Normalising spacing twice changes nothing. */
  lemma CleanOfClean(s: string)
    requires IsClean(s)
    ensures Clean(s) == s
  {
    assert LStrip(s) == s;
    assert RStrip(s) == s;
    CollapseOfCollapsed(s);
  }

  /** `s.replace(a, b)` for single characters. */
  function ReplaceChar(s: string, a: char, b: char): (r: string)
    ensures |r| == |s|
    ensures forall i :: 0 <= i < |s| ==> r[i] == (if s[i] == a then b else s[i])
    ensures a != b ==> a !in r
  {
    seq(|s|, i requires 0 <= i < |s| => if s[i] == a then b else s[i])
  }

  /** Replacing one non-blank character by another keeps a clean string clean. */
  lemma ReplaceKeepsClean(s: string, a: char, b: char)
    requires IsClean(s) && !IsSpace(a) && !IsSpace(b)
    ensures IsClean(ReplaceChar(s, a, b))
  {
    var r := ReplaceChar(s, a, b);
    forall i | 0 <= i < |r| - 1 ensures !DoubleBlankAt(r, i) {
      assert !DoubleBlankAt(s, i);
    }
  }

  /** `needle in hay` */
  predicate Contains(hay: string, needle: string)
    decreases |hay|
  {
    needle <= hay || (|hay| > 0 && Contains(hay[1..], needle))
  }

  lemma {:induction false} ContainsSelf(s: string)
    ensures Contains(s, s)
  {
  }

  /** `s[:n]` */
  function Take(s: string, n: nat): (r: string)
    ensures |r| == (if |s| <= n then |s| else n) && r <= s
  {
    if |s| <= n then s else s[..n]
  }

  /** The leading run of non-blank characters of `s`. */
  function TakeWord(s: string): (w: string)
    ensures w <= s
    ensures forall i :: 0 <= i < |w| ==> !IsSpace(w[i])
    ensures |w| == |s| || IsSpace(s[|w|])
    ensures s != [] && !IsSpace(s[0]) ==> |w| >= 1
    decreases |s|
  {
    if s == [] || IsSpace(s[0]) then [] else [s[0]] + TakeWord(s[1..])
  }

  /** A non-empty run of non-blank characters. */
  predicate IsWord(w: string) {
    w != [] && forall i :: 0 <= i < |w| ==> !IsSpace(w[i])
  }

  /** `s.split()`: the maximal runs of non-blank characters, in order. */
  function SplitWords(s: string): (ws: seq<string>)
    ensures forall k :: 0 <= k < |ws| ==> IsWord(ws[k])
    decreases |s|
  {
    var t := LStrip(s);
    if t == [] then []
    else
      var w := TakeWord(t);
      var rest := SplitWords(t[|w|..]);
      ConsWords(w, rest);
      [w] + rest
  }

  lemma ConsWords(w: string, rest: seq<string>)
    requires w != [] && forall i :: 0 <= i < |w| ==> !IsSpace(w[i])
    requires forall k :: 0 <= k < |rest| ==> IsWord(rest[k])
    ensures forall k :: 0 <= k < |[w] + rest| ==> IsWord(([w] + rest)[k])
  {
    var ws := [w] + rest;
    forall k | 0 <= k < |ws| ensures IsWord(ws[k]) {
      if k > 0 {
        assert ws[k] == rest[k - 1];
      }
    }
  }

  function CountChar(s: string, c: char): nat
    decreases |s|
  {
    if s == [] then 0 else (if s[0] == c then 1 else 0) + CountChar(s[1..], c)
  }

  /** `s.split(sep)` with a one-character separator: one more part than separators, none containing it. */
  function SplitOn(s: string, sep: char): (parts: seq<string>)
    ensures |parts| == CountChar(s, sep) + 1
    ensures forall k :: 0 <= k < |parts| ==> sep !in parts[k]
    decreases |s|
  {
    if s == [] then [[]]
    else
      var rest := SplitOn(s[1..], sep);
      if s[0] == sep then [[]] + rest else [[s[0]] + rest[0]] + rest[1..]
  }

  /** `sep.join(parts)` */
  function Join(parts: seq<string>, sep: char): string
    requires |parts| >= 1
    decreases |parts|
  {
    if |parts| == 1 then parts[0] else parts[0] + [sep] + Join(parts[1..], sep)
  }

  /** Splitting on a separator and joining back with it gives the original text. */
  lemma {:induction false} SplitJoin(s: string, sep: char)
    ensures Join(SplitOn(s, sep), sep) == s
    decreases |s|
  {
    if s != [] {
      SplitJoin(s[1..], sep);
      var rest := SplitOn(s[1..], sep);
      if s[0] == sep {
        assert SplitOn(s, sep) == [[]] + rest;
        assert s == [sep] + s[1..];
      } else {
        var parts := [[s[0]] + rest[0]] + rest[1..];
        assert SplitOn(s, sep) == parts;
        if |rest| == 1 {
          assert Join(parts, sep) == [s[0]] + rest[0];
        } else {
          assert parts[1..] == rest[1..];
          assert Join(rest, sep) == rest[0] + [sep] + Join(rest[1..], sep);
          assert Join(parts, sep) == [s[0]] + rest[0] + [sep] + Join(rest[1..], sep);
        }
      }
    }
  }

  /** Python string comparison `a <= b`: lexicographic by code point. */
  predicate StrLe(a: string, b: string)
    decreases |a|
  {
    a == [] || (b != [] && (a[0] < b[0] || (a[0] == b[0] && StrLe(a[1..], b[1..]))))
  }

  lemma {:induction false} StrLeTotal(a: string, b: string)
    ensures StrLe(a, b) || StrLe(b, a)
    decreases |a|
  {
    if a != [] && b != [] && a[0] == b[0] {
      StrLeTotal(a[1..], b[1..]);
    }
  }

  lemma {:induction false} StrLeTrans(a: string, b: string, c: string)
    requires StrLe(a, b) && StrLe(b, c)
    ensures StrLe(a, c)
    decreases |a|
  {
    if a != [] && a[0] == b[0] && b[0] == c[0] {
      StrLeTrans(a[1..], b[1..], c[1..]);
    }
  }

  lemma {:induction false} StrLeAntisym(a: string, b: string)
    requires StrLe(a, b) && StrLe(b, a)
    ensures a == b
    decreases |a|
  {
    if a != [] {
      StrLeAntisym(a[1..], b[1..]);
      assert a == [a[0]] + a[1..] && b == [b[0]] + b[1..];
    }
  }

  /** Ordered by the string `key` of each element, as `sorted(..., key=key)` leaves it. */
  predicate SortedBy<T>(s: seq<T>, key: T -> string) {
    forall i, j :: 0 <= i < j < |s| ==> StrLe(key(s[i]), key(s[j]))
  }

  function InsertSorted<T(==)>(x: T, s: seq<T>, key: T -> string): (r: seq<T>)
    ensures multiset(r) == multiset(s) + multiset{x}
    ensures SortedBy(s, key) ==> SortedBy(r, key)
    decreases |s|
  {
    if s == [] then [x]
    else if StrLe(key(x), key(s[0])) then
      InsertFrontSorted(x, s, key);
      [x] + s
    else
      StrLeTotal(key(x), key(s[0]));
      var tail := InsertSorted(x, s[1..], key);
      assert s == [s[0]] + s[1..];
      InsertLaterSorted(x, s, tail, key);
      [s[0]] + tail
  }

  /** An element no greater than the head of an ordered sequence can go in front of it. */
  lemma InsertFrontSorted<T>(x: T, s: seq<T>, key: T -> string)
    requires s != [] && StrLe(key(x), key(s[0]))
    ensures SortedBy(s, key) ==> SortedBy([x] + s, key)
  {
    var r := [x] + s;
    if SortedBy(s, key) {
      forall i, j | 0 <= i < j < |r| ensures StrLe(key(r[i]), key(r[j])) {
        if i == 0 && j > 1 {
          StrLeTrans(key(x), key(s[0]), key(s[j - 1]));
        }
      }
    }
  }

  /** The head of an ordered sequence stays in front when an element no smaller is inserted after it. */
  lemma InsertLaterSorted<T>(x: T, s: seq<T>, tail: seq<T>, key: T -> string)
    requires s != [] && StrLe(key(s[0]), key(x))
    requires multiset(tail) == multiset(s[1..]) + multiset{x}
    requires SortedBy(s[1..], key) ==> SortedBy(tail, key)
    ensures SortedBy(s, key) ==> SortedBy([s[0]] + tail, key)
  {
    if SortedBy(s, key) {
      assert SortedBy(s[1..], key);
      forall j | 0 <= j < |tail| ensures StrLe(key(s[0]), key(tail[j])) {
        assert tail[j] in multiset(tail);
        assert tail[j] == x || tail[j] in multiset(s[1..]);
        if tail[j] != x {
          var k :| 0 <= k < |s[1..]| && s[1..][k] == tail[j];
          assert s[k + 1] == tail[j];
        }
      }
    }
  }

  /** `sorted(s, key=key)`: an ordered permutation of `s`. */
  function SortBy<T(==)>(s: seq<T>, key: T -> string): (r: seq<T>)
    ensures multiset(r) == multiset(s)
    ensures SortedBy(r, key)
    decreases |s|
  {
    if s == [] then []
    else
      assert s == [s[0]] + s[1..];
      InsertSorted(s[0], SortBy(s[1..], key), key)
  }
}
