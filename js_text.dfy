/** The few JavaScript string operations that script/index.js relies on, stated
    over Dafny strings (sequences of characters):
    - `String.prototype.indexOf` with a string argument,
    - `String.prototype.replace` with a string pattern, which replaces only the
      first occurrence and expands the `$` patterns of its replacement string
      (the GetSubstitution operation of the ECMAScript Language Specification),
    - the conversion of a non-negative integer and of a boolean to a string. */
module JsText {

  /** `pat` occurs in `s` starting at index `i`. */
  predicate OccursAt(s: string, pat: string, i: int)
  {
    0 <= i && i + |pat| <= |s| && s[i..i + |pat|] == pat
  }

  /** `pat` occurs somewhere in `s`. */
  predicate Occurs(s: string, pat: string)
  {
    exists i :: 0 <= i <= |s| && OccursAt(s, pat, i)
  }

  /** `i` is the leftmost occurrence of `pat` in `s`. */
  predicate FirstOccurrence(s: string, pat: string, i: int)
  {
    OccursAt(s, pat, i) && forall j :: 0 <= j < i ==> !OccursAt(s, pat, j)
  }

  /** The search behind `indexOf`: the leftmost occurrence at or after `from`, or -1. */
  function IndexFrom(s: string, pat: string, from: nat): (r: int)
    requires from <= |s|
    ensures r == -1 || (from <= r && OccursAt(s, pat, r))
    ensures r == -1 ==> forall i :: from <= i ==> !OccursAt(s, pat, i)
    ensures r != -1 ==> forall i :: from <= i < r ==> !OccursAt(s, pat, i)
    decreases |s| - from
  {
    if from + |pat| > |s| then -1
    else if s[from..from + |pat|] == pat then from
    else IndexFrom(s, pat, from + 1)
  }

  /** `s.indexOf(pat)`: the index of the first occurrence of `pat`, -1 when there is none. */
  function IndexOf(s: string, pat: string): (r: int)
    ensures r == -1 <==> !Occurs(s, pat)
    ensures r != -1 ==> FirstOccurrence(s, pat, r)
  {
    IndexFrom(s, pat, 0)
  }

  /** What one `$` pattern of a replacement string stands for, when the match of
      length `len` sits at `pos` in `s`: `$$` a dollar sign, `$&` the matched text,
      `` $` `` the text before the match and `$'` the text after it. */
  function Expansion(c: char, s: string, pos: nat, len: nat): string
    requires c in "$&`'"
    requires pos + len <= |s|
  {
    match c
    case '$' => "$"
    case '&' => s[pos..pos + len]
    case '`' => s[..pos]
    case _ => s[pos + len..]
  }

  /** GetSubstitution for a string pattern: the text that replaces the match.
      A string pattern has no capture groups, so `$1` or `$<` stay literal. */
  function Substitution(repl: string, s: string, pos: nat, len: nat): string
    requires pos + len <= |s|
    decreases |repl|
  {
    if |repl| == 0 then ""
    else if repl[0] == '$' && |repl| >= 2 && repl[1] in "$&`'" then
      Expansion(repl[1], s, pos, len) + Substitution(repl[2..], s, pos, len)
    else
      [repl[0]] + Substitution(repl[1..], s, pos, len)
  }

  /** A replacement string without `$` is inserted verbatim. */
  lemma {:induction false} SubstitutionLiteral(repl: string, s: string, pos: nat, len: nat)
    requires pos + len <= |s|
    requires '$' !in repl
    ensures Substitution(repl, s, pos, len) == repl
  {
    if |repl| > 0 {
      assert repl[0] != '$';
      assert '$' !in repl[1..];
      SubstitutionLiteral(repl[1..], s, pos, len);
      assert [repl[0]] + repl[1..] == repl;
    }
  }

  /** `s.replace(pat, repl)` with a string pattern: only the first occurrence of
      `pat` is replaced; without an occurrence `s` is returned as it is. */
  function ReplaceFirst(s: string, pat: string, repl: string): (r: string)
    ensures !Occurs(s, pat) ==> r == s
    ensures Occurs(s, pat) ==>
      var i := IndexOf(s, pat);
      r == s[..i] + Substitution(repl, s, i, |pat|) + s[i + |pat|..]
  {
    var i := IndexOf(s, pat);
    if i == -1 then s
    else s[..i] + Substitution(repl, s, i, |pat|) + s[i + |pat|..]
  }

  /** There is only one leftmost occurrence. */
  lemma FirstOccurrenceUnique(s: string, pat: string, i: int, j: int)
    requires FirstOccurrence(s, pat, i) && FirstOccurrence(s, pat, j)
    ensures i == j
  {
  }

  /** The first occurrence is the one `indexOf` finds. */
  lemma IndexOfFirst(s: string, pat: string, i: int)
    requires FirstOccurrence(s, pat, i)
    ensures IndexOf(s, pat) == i
  {
    assert Occurs(s, pat);
    FirstOccurrenceUnique(s, pat, i, IndexOf(s, pat));
  }

  /** The replacement splices the expanded replacement over the leftmost
      occurrence `i`. */
  lemma ReplaceFirstAt(s: string, pat: string, repl: string, i: int)
    requires FirstOccurrence(s, pat, i)
    ensures ReplaceFirst(s, pat, repl) == s[..i] + Substitution(repl, s, i, |pat|) + s[i + |pat|..]
  {
    IndexOfFirst(s, pat, i);
  }

  /** A plain replacement (no `$`) of the first occurrence at `i`: the text before
      the match is kept, the replacement follows, then the text after the match. */
  lemma PlainReplaceFirst(s: string, pat: string, repl: string, i: int)
    requires FirstOccurrence(s, pat, i)
    requires '$' !in repl
    ensures ReplaceFirst(s, pat, repl) == s[..i] + repl + s[i + |pat|..]
  {
    IndexOfFirst(s, pat, i);
    SubstitutionLiteral(repl, s, i, |pat|);
  }

  /** A slice that lies inside the left part of a concatenation. */
  lemma SliceLeft<T>(a: seq<T>, b: seq<T>, lo: int, hi: int)
    requires 0 <= lo <= hi <= |a|
    ensures (a + b)[lo..hi] == a[lo..hi]
  {
    assert forall x :: lo <= x < hi ==> (a + b)[x] == a[x];
  }

  /** A slice that lies inside the right part of a concatenation. */
  lemma SliceRight<T>(a: seq<T>, b: seq<T>, lo: int, hi: int)
    requires |a| <= lo <= hi <= |a| + |b|
    ensures (a + b)[lo..hi] == b[lo - |a|..hi - |a|]
  {
    assert forall x :: lo <= x < hi ==> (a + b)[x] == b[x - |a|];
  }

  /** Splicing `e` over `s[i..i + len]` keeps every occurrence of `p` that does
      not overlap the spliced part, shifted when it lies after it. */
  lemma SpliceKeepsDisjoint(s: string, i: int, len: int, e: string, p: string, m: int)
    requires 0 <= i && 0 <= len && i + len <= |s| && OccursAt(s, p, m)
    requires m + |p| <= i || i + len <= m
    ensures m + |p| <= i ==> OccursAt(s[..i] + e + s[i + len..], p, m)
    ensures i + len <= m ==> OccursAt(s[..i] + e + s[i + len..], p, m - len + |e|)
    ensures Occurs(s[..i] + e + s[i + len..], p)
  {
    var head, tail := s[..i], s[i + len..];
    var r := s[..i] + e + s[i + len..];
    if m + |p| <= i {
      assert r == head + (e + tail);
      SliceLeft(head, e + tail, m, m + |p|);
      assert OccursAt(r, p, m);
    } else {
      var m' := m - len + |e|;
      SliceRight(head + e, tail, m', m' + |p|);
      assert OccursAt(r, p, m');
    }
  }

  /** An occurrence of another text that does not overlap the first match of
      `pat` is still in place after the replacement: at the same index when it
      lies before the match, shifted by the change in length when it lies after. */
  lemma ReplaceFirstKeepsDisjointAt(s: string, pat: string, repl: string, i: int, p: string, m: int)
    requires FirstOccurrence(s, pat, i) && OccursAt(s, p, m)
    requires m + |p| <= i || i + |pat| <= m
    ensures m + |p| <= i ==> OccursAt(ReplaceFirst(s, pat, repl), p, m)
    ensures i + |pat| <= m ==>
      OccursAt(ReplaceFirst(s, pat, repl), p, m - |pat| + |Substitution(repl, s, i, |pat|)|)
  {
    ReplaceFirstAt(s, pat, repl, i);
    SpliceKeepsDisjoint(s, i, |pat|, Substitution(repl, s, i, |pat|), p, m);
  }

  /** Hence the other text still occurs after the replacement. */
  lemma ReplaceFirstKeepsDisjoint(s: string, pat: string, repl: string, i: int, p: string, m: int)
    requires FirstOccurrence(s, pat, i) && OccursAt(s, p, m)
    requires m + |p| <= i || i + |pat| <= m
    ensures Occurs(ReplaceFirst(s, pat, repl), p)
  {
    ReplaceFirstKeepsDisjointAt(s, pat, repl, i, p, m);
    var r := ReplaceFirst(s, pat, repl);
    var m' := if m + |p| <= i then m else m - |pat| + |Substitution(repl, s, i, |pat|)|;
    assert OccursAt(r, p, m') && m' <= |r|;
  }

  predicate IsDigit(c: char)
  {
    '0' <= c <= '9'
  }

  predicate IsDigits(s: string)
  {
    forall k :: 0 <= k < |s| ==> IsDigit(s[k])
  }

  function DigitChar(d: nat): (c: char)
    requires d < 10
    ensures IsDigit(c)
  {
    ('0' as int + d) as char
  }

  /** `String(n)` for a non-negative integer: its decimal digits, most significant first. */
  function NatToString(n: nat): (r: string)
    ensures |r| >= 1 && IsDigits(r)
    ensures |r| == 1 || r[0] != '0'
    decreases n
  {
    if n < 10 then [DigitChar(n)]
    else NatToString(n / 10) + [DigitChar(n % 10)]
  }

  /** The number a string of decimal digits denotes. */
  function DecimalValue(s: string): nat
    requires IsDigits(s)
    decreases |s|
  {
    if |s| == 0 then 0
    else DecimalValue(s[..|s| - 1]) * 10 + (s[|s| - 1] as int - '0' as int)
  }

  /** Reading back the digits `NatToString` writes gives the number again. */
  lemma {:induction false} DecimalRoundTrip(n: nat)
    ensures DecimalValue(NatToString(n)) == n
  {
    if n >= 10 {
      DecimalRoundTrip(n / 10);
      var t := NatToString(n / 10);
      assert (t + [DigitChar(n % 10)])[..|t|] == t;
    }
  }

  /** Different numbers are written differently. */
  lemma NatToStringInjective(a: nat, b: nat)
    requires NatToString(a) == NatToString(b)
    ensures a == b
  {
    DecimalRoundTrip(a);
    DecimalRoundTrip(b);
  }

  /** `String(b)` for a boolean. */
  function BoolToString(b: bool): string
  {
    if b then "true" else "false"
  }
}
