/** `getCookieValue(cookieString, 'csrf_token')` from both DoorDash scripts:
    the regular expression `(^|;\s*)(csrf_token)=([^;]*)` matched against the
    cookie string, and the third group URI-decoded.

    The engine's semantics are written out: the leftmost position where a
    match exists wins; at a position the `^` alternative is tried before
    `;\s*`; `\s*` is greedy, and since the name starts with a letter, giving
    back white space can never help, so only the longest run is tried; `[^;]*`
    takes the longest run without `;`. */
module Cookies {
  import opened Wrappers
  import opened Strings

  /** The only name the scripts look up. */
  const CsrfCookie: string := "csrf_token"

  /** What must follow the separator: the name and `=`. */
  const NameEq: string := "csrf_token="

  /** The length of the white-space run starting at `i` (greedy `\s*`). */
  function SpacesFrom(s: string, i: nat): (n: nat)
    requires i <= |s|
    ensures i + n <= |s|
    ensures forall j :: i <= j < i + n ==> IsJsSpace(s[j])
    ensures i + n == |s| || !IsJsSpace(s[i + n])
    decreases |s| - i
  {
    if i < |s| && IsJsSpace(s[i]) then 1 + SpacesFrom(s, i + 1) else 0
  }

  /** The end of the run without `;` starting at `i` (greedy `[^;]*`). */
  function ValueEnd(s: string, i: nat): (e: nat)
    requires i <= |s|
    ensures i <= e <= |s|
    ensures forall j :: i <= j < e ==> s[j] != ';'
    ensures e == |s| || s[e] == ';'
    decreases |s| - i
  {
    if i < |s| && s[i] != ';' then ValueEnd(s, i + 1) else i
  }

  /** A match attempt at position `p`: where the value group starts, if the
      pattern matches there. */
  function MatchAt(s: string, p: nat): (v: Option<nat>)
    requires p <= |s|
    ensures v.Some? ==> v.value <= |s| && v.value >= |NameEq| && s[v.value - |NameEq|..v.value] == NameEq
    ensures v.Some? ==> p == 0 || (p < |s| && s[p] == ';')
  {
    if p == 0 && OccursAt(s, NameEq, 0) then Some(|NameEq|)
    else if p < |s| && s[p] == ';' then
      var q := p + 1 + SpacesFrom(s, p + 1);
      if OccursAt(s, NameEq, q) then Some(q + |NameEq|) else None
    else None
  }

  /** The leftmost position at or after `p` where the pattern matches. */
  function FirstMatch(s: string, p: nat): (m: Option<nat>)
    requires p <= |s| + 1
    ensures m.Some? ==> p <= m.value <= |s| && MatchAt(s, m.value).Some?
    ensures m.Some? ==> forall q :: p <= q < m.value ==> MatchAt(s, q).None?
    ensures m.None? ==> forall q :: p <= q <= |s| ==> MatchAt(s, q).None?
    decreases |s| + 1 - p
  {
    if p > |s| then None
    else if MatchAt(s, p).Some? then Some(p)
    else FirstMatch(s, p + 1)
  }

  /** Where the value group of the leftmost match starts. */
  function ValueStart(s: string): (v: Option<nat>)
    ensures v.Some? <==> FirstMatch(s, 0).Some?
    ensures v.Some? ==> v == MatchAt(s, FirstMatch(s, 0).value)
  {
    match FirstMatch(s, 0)
    case None => None
    case Some(m) => MatchAt(s, m)
  }

  /** `getCookieValue(cookieString, 'csrf_token')`; `decode` is
      `decodeURIComponent`, which throws on a malformed escape. */
  function GetCookieValue(s: string, decode: string -> Result<string>): (r: Result<Option<string>>)
    ensures ValueStart(s).None? ==> r == Ok(None)
    ensures ValueStart(s).Some? ==>
      var v := ValueStart(s).value;
      r == (match decode(s[v..ValueEnd(s, v)]) case Err(e) => Err(e) case Ok(d) => Ok(Some(d)))
  {
    match ValueStart(s)
    case None => Ok(None)
    case Some(v) =>
      match decode(s[v..ValueEnd(s, v)])
      case Err(e) => Err(e)
      case Ok(d) => Ok(Some(d))
  }

  /** The matched name is exactly `csrf_token`: it sits at the start of the
      string or after a `;` and nothing but white space, and `=` follows it;
      the raw value runs to the next `;` or the end. */
  lemma MatchIsExactName(s: string)
    requires ValueStart(s).Some?
    ensures var v := ValueStart(s).value;
      var n := v - |NameEq|;
      s[n..v] == NameEq &&
      (n == 0 || exists p :: 0 <= p < n && s[p] == ';' && forall j :: p < j < n ==> IsJsSpace(s[j])) &&
      forall j :: v <= j < ValueEnd(s, v) ==> s[j] != ';'
  {
    var m := FirstMatch(s, 0).value;
    var v := ValueStart(s).value;
    var n := v - |NameEq|;
    assert MatchAt(s, m) == Some(v);
    if m == 0 && OccursAt(s, NameEq, 0) {
      assert n == 0;
    } else {
      assert s[m] == ';';
      assert n == m + 1 + SpacesFrom(s, m + 1);
      assert 0 <= m < n && s[m] == ';' && forall j :: m < j < n ==> IsJsSpace(s[j]);
    }
  }

  /** With no `;` in the value, a string that starts with `csrf_token=` yields
      the decoded value up to the first `;`. */
  lemma LeadingCookie(value: string, rest: string, decode: string -> Result<string>)
    requires ';' !in value
    ensures var s := NameEq + value + rest;
      (rest == [] || rest[0] == ';') ==>
      GetCookieValue(s, decode) == (match decode(value) case Err(e) => Err(e) case Ok(d) => Ok(Some(d)))
  {
    var s := NameEq + value + rest;
    if rest == [] || rest[0] == ';' {
      assert s[..|NameEq|] == NameEq;
      assert MatchAt(s, 0) == Some(|NameEq|);
      assert ValueStart(s) == Some(|NameEq|);
      forall j | |NameEq| <= j < |NameEq| + |value| ensures s[j] != ';' {
        assert s[j] == value[j - |NameEq|];
      }
      assert ValueEnd(s, |NameEq|) == |NameEq| + |value| by {
        ValueEndAt(s, |NameEq|, |NameEq| + |value|);
      }
      assert s[|NameEq|..|NameEq| + |value|] == value;
    }
  }

  /** `ValueEnd` stops at the first `;` (or the end). */
  lemma ValueEndAt(s: string, i: nat, e: nat)
    requires i <= e <= |s|
    requires forall j :: i <= j < e ==> s[j] != ';'
    requires e == |s| || s[e] == ';'
    ensures ValueEnd(s, i) == e
    decreases e - i
  {
    if i < e {
      ValueEndAt(s, i + 1, e);
    }
  }

  /** Without any occurrence of `csrf_token=` the result is null. */
  lemma AbsentCookie(s: string, decode: string -> Result<string>)
    requires forall q :: 0 <= q <= |s| ==> !OccursAt(s, NameEq, q)
    ensures GetCookieValue(s, decode) == Ok(None)
  {
  }
}
