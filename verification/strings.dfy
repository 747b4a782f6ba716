/** JavaScript string operations the core relies on: `split` with a literal
    separator, `join`, and `trim`. */
module Strings {
  import opened Wrappers

  /** The characters JavaScript's `trim` and the `\s` regular-expression class
      treat as white space (WhiteSpace and LineTerminator). */
  predicate IsJsSpace(c: char) {
    c == '\t' || c == '\n' || c == '\U{B}' || c == '\U{C}' || c == '\r' || c == ' ' ||
    c == '\U{A0}' || c == '\U{1680}' || ('\U{2000}' <= c <= '\U{200A}') ||
    c == '\U{2028}' || c == '\U{2029}' || c == '\U{202F}' || c == '\U{205F}' ||
    c == '\U{3000}' || c == '\U{FEFF}'
  }

  /** `sep` occurs in `s` starting at index `j`. */
  predicate OccursAt(s: string, sep: string, j: int) {
    0 <= j && j + |sep| <= |s| && s[j..j + |sep|] == sep
  }

  predicate Contains(s: string, sep: string) {
    exists j | 0 <= j <= |s| :: OccursAt(s, sep, j)
  }

  /** The first occurrence of `sep` in `s` at or after `i` (`indexOf`). */
  function IndexOf(s: string, sep: string, i: nat): (r: Option<nat>)
    requires |sep| > 0 && i <= |s|
    ensures r.Some? ==> i <= r.value && OccursAt(s, sep, r.value)
    ensures r.Some? ==> forall j :: i <= j < r.value ==> !OccursAt(s, sep, j)
    ensures r.None? ==> forall j :: i <= j ==> !OccursAt(s, sep, j)
    decreases |s| - i
  {
    if i + |sep| > |s| then None
    else if s[i..i + |sep|] == sep then Some(i)
    else IndexOf(s, sep, i + 1)
  }

  /** `s.split(sep)` for a non-empty literal separator. */
  function Split(s: string, sep: string): (parts: seq<string>)
    requires |sep| > 0
    ensures |parts| >= 1
    decreases |s|
  {
    match IndexOf(s, sep, 0)
    case None => [s]
    case Some(i) => [s[..i]] + Split(s[i + |sep|..], sep)
  }

  /** `parts.join(sep)`. */
  function Join(parts: seq<string>, sep: string): string {
    if |parts| == 0 then ""
    else if |parts| == 1 then parts[0]
    else parts[0] + sep + Join(parts[1..], sep)
  }

  lemma JoinCons(p: string, rest: seq<string>, sep: string)
    requires |rest| > 0
    ensures Join([p] + rest, sep) == p + sep + Join(rest, sep)
  {
    assert ([p] + rest)[1..] == rest;
  }

  lemma JoinSnoc(parts: seq<string>, p: string, sep: string)
    requires |parts| > 0
    ensures Join(parts + [p], sep) == Join(parts, sep) + sep + p
    decreases |parts|
  {
    if |parts| == 1 {
      assert (parts + [p])[1..] == [p];
    } else {
      assert (parts + [p])[1..] == parts[1..] + [p];
      JoinSnoc(parts[1..], p, sep);
    }
  }

  /** Splitting loses nothing: joining the parts again gives back the string. */
  lemma {:induction false} JoinSplit(s: string, sep: string)
    requires |sep| > 0
    ensures Join(Split(s, sep), sep) == s
    decreases |s|
  {
    match IndexOf(s, sep, 0)
    case None =>
    case Some(i) =>
      var rest := s[i + |sep|..];
      assert Split(s, sep) == [s[..i]] + Split(rest, sep);
      JoinSplit(rest, sep);
      JoinCons(s[..i], Split(rest, sep), sep);
      assert s[i..i + |sep|] == sep;
      SplitAround(s, i, i + |sep|);
  }

  lemma SplitAround(s: string, i: nat, j: nat)
    requires i <= j <= |s|
    ensures s == s[..i] + s[i..j] + s[j..]
  {
  }

  /** No part of a split contains the separator. */
  lemma {:induction false} SplitPartsFree(s: string, sep: string)
    requires |sep| > 0
    ensures forall p :: p in Split(s, sep) ==> !Contains(p, sep)
    decreases |s|
  {
    match IndexOf(s, sep, 0)
    case None =>
      assert Split(s, sep) == [s];
    case Some(i) =>
      var rest := s[i + |sep|..];
      SplitPartsFree(rest, sep);
      var head := s[..i];
      forall j | OccursAt(head, sep, j) ensures false {
        assert head[j..j + |sep|] == s[j..j + |sep|];
        assert OccursAt(s, sep, j);
      }
  }

  lemma OccurrenceIsIn(s: string, c: char, j: int)
    requires OccursAt(s, [c], j)
    ensures s[j] == c
  {
    assert s[j..j + 1][0] == s[j];
  }

  /** A string without the separator character splits into itself alone. */
  lemma SplitWithoutSeparator(a: string, c: char)
    requires c !in a
    ensures Split(a, [c]) == [a]
  {
    forall j | OccursAt(a, [c], j) ensures false {
      OccurrenceIsIn(a, c, j);
    }
  }

  /** Splitting at a single-character separator cuts at its first occurrence. */
  lemma SplitAtFirst(a: string, c: char, b: string)
    requires c !in a
    ensures Split(a + [c] + b, [c]) == [a] + Split(b, [c])
  {
    var s := a + [c] + b;
    assert s[|a|..|a| + 1] == [c];
    forall j | 0 <= j < |a| && OccursAt(s, [c], j) ensures false {
      OccurrenceIsIn(s, c, j);
    }
    var r := IndexOf(s, [c], 0);
    assert OccursAt(s, [c], |a|);
    assert r.Some?;
    assert r.value == |a|;
    assert s[..|a|] == a;
    assert s[|a| + 1..] == b;
  }

  /** String.prototype.trimStart. */
  function TrimStart(s: string): string {
    if |s| > 0 && IsJsSpace(s[0]) then TrimStart(s[1..]) else s
  }

  /** String.prototype.trimEnd. */
  function TrimEnd(s: string): string {
    if |s| > 0 && IsJsSpace(s[|s| - 1]) then TrimEnd(s[..|s| - 1]) else s
  }

  /** String.prototype.trim. */
  function Trim(s: string): string {
    TrimEnd(TrimStart(s))
  }

  /** The UTF-16 code units of one character: two for a character outside
      the Basic Multilingual Plane, one otherwise. */
  function CodeUnits(c: char): nat {
    if c as int >= 0x10000 then 2 else 1
  }

  /** The code units of the first `n` characters of `s`. */
  function UnitsUpTo(s: string, n: nat): nat
    requires n <= |s|
  {
    if n == 0 then 0 else UnitsUpTo(s, n - 1) + CodeUnits(s[n - 1])
  }

  /** `s.length`, which JavaScript counts in UTF-16 code units. */
  function JsLength(s: string): nat {
    UnitsUpTo(s, |s|)
  }

  lemma {:induction false} UnitsUpToPrefix(a: string, b: string, n: nat)
    requires n <= |a|
    ensures UnitsUpTo(a + b, n) == UnitsUpTo(a, n)
  {
    if n > 0 {
      UnitsUpToPrefix(a, b, n - 1);
      assert (a + b)[n - 1] == a[n - 1];
    }
  }

  lemma {:induction false} UnitsUpToSuffix(a: string, b: string, k: nat)
    requires k <= |b|
    ensures UnitsUpTo(a + b, |a| + k) == JsLength(a) + UnitsUpTo(b, k)
  {
    if k == 0 {
      UnitsUpToPrefix(a, b, |a|);
    } else {
      UnitsUpToSuffix(a, b, k - 1);
      assert (a + b)[|a| + k - 1] == b[k - 1];
    }
  }

  /** Lengths add up under concatenation. */
  lemma JsLengthAppend(a: string, b: string)
    ensures JsLength(a + b) == JsLength(a) + JsLength(b)
  {
    UnitsUpToSuffix(a, b, |b|);
  }

  /** A space is one code unit. */
  lemma JsLengthSpace(s: string)
    ensures JsLength(s + " ") == JsLength(s) + 1
  {
    JsLengthAppend(s, " ");
    assert JsLength(" ") == UnitsUpTo(" ", 0) + CodeUnits(' ');
  }

  lemma JsLengthSlice(s: string, i: nat, j: nat)
    requires i <= j <= |s|
    ensures JsLength(s[i..j]) <= JsLength(s)
  {
    assert s == s[..i] + s[i..j] + s[j..];
    JsLengthAppend(s[..i] + s[i..j], s[j..]);
    JsLengthAppend(s[..i], s[i..j]);
  }

  /** `trimStart` keeps a suffix of the string. */
  lemma {:induction false} TrimStartSuffix(s: string)
    ensures |TrimStart(s)| <= |s| && TrimStart(s) == s[|s| - |TrimStart(s)|..]
    decreases |s|
  {
    if |s| > 0 && IsJsSpace(s[0]) {
      TrimStartSuffix(s[1..]);
    }
  }

  /** `trimEnd` keeps a prefix of the string. */
  lemma {:induction false} TrimEndPrefix(s: string)
    ensures |TrimEnd(s)| <= |s| && TrimEnd(s) == s[..|TrimEnd(s)|]
    decreases |s|
  {
    if |s| > 0 && IsJsSpace(s[|s| - 1]) {
      TrimEndPrefix(s[..|s| - 1]);
    }
  }

  /** `trim` never makes a string longer. */
  lemma TrimShortens(s: string)
    ensures JsLength(Trim(s)) <= JsLength(s)
  {
    var t := TrimStart(s);
    var r := TrimEnd(t);
    TrimStartSuffix(s);
    TrimEndPrefix(t);
    assert r == s[|s| - |t|..|s| - |t| + |r|];
    JsLengthSlice(s, |s| - |t|, |s| - |t| + |r|);
  }

  /** A string that ends in white space loses at least that character to `trim`. */
  lemma TrimDropsTrailingSpace(p: string)
    ensures JsLength(Trim(p + " ")) <= JsLength(p)
  {
    TrimIgnoresTrailingSpace(p);
    TrimShortens(p);
  }

  lemma TrimEndDropsSpace(x: string)
    ensures TrimEnd(x + " ") == TrimEnd(x)
  {
    assert (x + " ")[..|x + " "| - 1] == x;
  }

  /** Appending one space does not change what `trim` keeps. */
  lemma TrimIgnoresTrailingSpace(w: string)
    ensures Trim(w + " ") == Trim(w)
  {
    TrimStartPadded(w);
    if TrimStart(w) != "" {
      TrimEndDropsSpace(TrimStart(w));
    }
  }

  /** `trimStart` keeps a trailing space unless it trims everything. */
  lemma {:induction false} TrimStartPadded(w: string)
    ensures TrimStart(w + " ") == if TrimStart(w) == "" then "" else TrimStart(w) + " "
    decreases |w|
  {
    if |w| == 0 {
      assert TrimStart(" ") == TrimStart((" ")[1..]);
    } else if IsJsSpace(w[0]) {
      assert (w + " ")[1..] == w[1..] + " ";
      TrimStartPadded(w[1..]);
    }
  }

  /** A string with no white space at either end, padded by one space, trims to itself. */
  lemma TrimPadded(x: string)
    requires |x| > 0 && !IsJsSpace(x[0]) && !IsJsSpace(x[|x| - 1])
    ensures Trim(x + " ") == x
  {
    assert TrimStart(x + " ") == x + " ";
    TrimEndDropsSpace(x);
  }
}
