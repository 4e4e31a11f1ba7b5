/** The step logger of script/index.js (`logMessage`): a template whose `{0}`,
    `{1}`, ... placeholders are filled in from the arguments one after another,
    each argument replacing the first occurrence of its placeholder in the text
    produced so far. Only the resulting line is modelled; printing it is not. */
module Log {
  import opened JsText

  /** An argument of `logMessage`: the script passes names and paths (strings)
      and presence flags (booleans). */
  datatype LogArg = Text(s: string) | Flag(b: bool)

  /** `arg.toString()` */
  function ArgString(a: LogArg): string
  {
    match a
    case Text(s) => s
    case Flag(b) => BoolToString(b)
  }

  /** The literal the placeholder keys are made from. */
  const KeyTemplate := "{0}"

  /** The key of argument `k + 1`: `"{0}".replace("0", k)`, that is `{k}`. */
  function Placeholder(k: nat): (p: string)
    ensures p == "{" + NatToString(k) + "}"
  {
    assert FirstOccurrence(KeyTemplate, "0", 1) by {
      assert KeyTemplate[1..2] == "0";
      assert KeyTemplate[0..1] == "{";
    }
    assert '$' !in NatToString(k) by {
      assert forall c :: c in NatToString(k) ==> IsDigit(c);
    }
    SubstitutionLiteral(NatToString(k), KeyTemplate, 1, 1);
    ReplaceFirst(KeyTemplate, "0", NatToString(k))
  }

  /** One call `logMessage(template, args...)`. */
  datatype LogLine = LogLine(template: string, args: seq<LogArg>)

  /** The line `logMessage(template, args...)` prints: argument `i` (counting the
      template as argument 0) replaces the first `{i-1}` of the text so far. */
  function Format(template: string, args: seq<LogArg>): string
    decreases |args|
  {
    if args == [] then template
    else
      var n := |args| - 1;
      ReplaceFirst(Format(template, args[..n]), Placeholder(n), ArgString(args[n]))
  }

  /** `logMessage`: the loop over the arguments, returning the line it prints. */
  method LogMessage(template: string, args: seq<LogArg>) returns (result: string)
    ensures result == Format(template, args)
  {
    var argumentCount := |args| + 1;
    if argumentCount == 1 {
      result := template;
    } else {
      result := template;
      var i := 1;
      while i < argumentCount
        invariant 1 <= i <= argumentCount
        invariant result == Format(template, args[..i - 1])
      {
        assert args[..i][..i - 1] == args[..i - 1];
        result := ReplaceFirst(result, ReplaceFirst(KeyTemplate, "0", NatToString(i - 1)), ArgString(args[i - 1]));
        i := i + 1;
      }
      assert args[..|args|] == args;
    }
  }

  /** The shape every key has: a brace, decimal digits, a closing brace. */
  predicate KeyShaped(p: string)
  {
    |p| >= 3 && p[0] == '{' && p[|p| - 1] == '}' &&
    forall x :: 0 < x < |p| - 1 ==> IsDigit(p[x])
  }

  lemma PlaceholderShaped(k: nat)
    ensures KeyShaped(Placeholder(k))
  {
    var d := NatToString(k);
    var p := Placeholder(k);
    forall x | 0 < x < |p| - 1
      ensures IsDigit(p[x])
    {
      assert p[x] == d[x - 1];
    }
  }

  /** Distinct arguments have distinct keys. */
  lemma PlaceholderInjective(j: nat, k: nat)
    requires Placeholder(j) == Placeholder(k)
    ensures j == k
  {
    var p := Placeholder(j);
    assert NatToString(j) == p[1..|p| - 1] == NatToString(k);
    NatToStringInjective(j, k);
  }

  /** Where a key occurs: its opening brace first, its closing brace last, and
      neither brace in between. */
  lemma {:induction false} KeyOccurrence(s: string, p: string, m: int)
    requires KeyShaped(p) && OccursAt(s, p, m)
    ensures s[m] == '{' && s[m + |p| - 1] == '}'
    ensures forall x :: m < x < m + |p| - 1 ==> IsDigit(s[x])
  {
    forall x | m <= x < m + |p|
      ensures s[x] == p[x - m]
    {
      assert s[m..m + |p|][x - m] == p[x - m];
    }
  }

  /** Two occurrences of different keys never overlap: a key's inner characters
      are digits, so neither its opening nor its closing brace can fall inside
      the other key. */
  lemma {:induction false} KeysDisjoint(s: string, p: string, q: string, m: int, i: int)
    requires KeyShaped(p) && KeyShaped(q) && p != q
    requires OccursAt(s, p, m) && OccursAt(s, q, i)
    ensures m + |p| <= i || i + |q| <= m
  {
    KeyOccurrence(s, p, m);
    KeyOccurrence(s, q, i);
    if m == i && |p| == |q| {
      assert false;
    }
  }

  /** Replacing the first `{j}` leaves every occurrence of another key `{k}` in
      place: at the same index when no `{j}` comes before it, otherwise shifted
      by the change in length the replacement makes. */
  lemma OtherKeySurvives(s: string, j: nat, k: nat, m: int, repl: string)
    requires j != k && OccursAt(s, Placeholder(k), m)
    ensures var q := Placeholder(j);
            var i := IndexOf(s, q);
            var r := ReplaceFirst(s, q, repl);
            ((i == -1 || m < i) ==> OccursAt(r, Placeholder(k), m)) &&
            (i != -1 && i < m ==> OccursAt(r, Placeholder(k), m - |q| + |Substitution(repl, s, i, |q|)|))
    ensures Occurs(ReplaceFirst(s, Placeholder(j), repl), Placeholder(k))
  {
    var p, q := Placeholder(k), Placeholder(j);
    var i := IndexOf(s, q);
    if i != -1 {
      PlaceholderShaped(j);
      PlaceholderShaped(k);
      if p == q {
        PlaceholderInjective(j, k);
      }
      KeysDisjoint(s, p, q, m, i);
      ReplaceFirstKeepsDisjointAt(s, q, repl, i, p, m);
      ReplaceFirstKeepsDisjoint(s, q, repl, i, p, m);
    }
  }

  /** A placeholder that no argument is there to fill is still in the printed line. */
  lemma {:induction false} UnfilledPlaceholderKept(template: string, args: seq<LogArg>, k: nat)
    requires |args| <= k && Occurs(template, Placeholder(k))
    ensures Occurs(Format(template, args), Placeholder(k))
  {
    if args != [] {
      var n := |args| - 1;
      UnfilledPlaceholderKept(template, args[..n], k);
      var s := Format(template, args[..n]);
      var m :| 0 <= m <= |s| && OccursAt(s, Placeholder(k), m);
      OtherKeySurvives(s, n, k, m, ArgString(args[n]));
    }
  }

  /** A template without the placeholders of its arguments is printed unchanged,
      whatever the arguments are. */
  lemma {:induction false} FormatWithoutPlaceholders(template: string, args: seq<LogArg>)
    requires forall k :: 0 <= k < |args| ==> !Occurs(template, Placeholder(k))
    ensures Format(template, args) == template
  {
    if args != [] {
      FormatWithoutPlaceholders(template, args[..|args| - 1]);
    }
  }

  /** With one argument free of `$`, only the first `{0}` is filled in: the text
      before it and everything after it, later `{0}`s included, are kept. */
  lemma FormatOneArgument(template: string, a: LogArg, i: int)
    requires FirstOccurrence(template, "{0}", i)
    requires '$' !in ArgString(a)
    ensures Format(template, [a]) == template[..i] + ArgString(a) + template[i + 3..]
  {
    assert Placeholder(0) == "{0}";
    assert [a][..0] == [];
    PlainReplaceFirst(template, "{0}", ArgString(a), i);
  }
}
