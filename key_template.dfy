/**
  Templated parameter keys. QueryBuilder keeps keys such as `pr{0}id` and
  `il{0}pi{1}cd{2}` as `MessageFormat` patterns and expands them with
  `MessageFormat.format(pattern, index, ...)`. This module models the part of
  `MessageFormat` those patterns use: literal characters and single-digit
  placeholders `{0}`..`{9}`, each replaced by the integer rendering of the
  argument it names. `Match` reads the indices back out of a key; it is the
  inverse that shows a key determines the indices it was built from.
*/
module KeyTemplate {
  import opened Optional
  import opened Decimal

  /** One element of a pattern: a literal character or a placeholder `{index}`. */
  datatype Segment = Lit(c: char) | Arg(index: nat)

  type Pattern = seq<Segment>

  /**
    Characters this model does not accept as literals in pattern text: the
    braces and the quote. `MessageFormat` itself takes a lone '}' as a literal;
    no key constant holds one, and refusing it keeps `Parse` and `Text` exact
    inverses.
  */
  predicate IsSyntax(c: char) {
    c == '{' || c == '}' || c == '\''
  }

  /** A pattern that has a pattern text: no syntax characters as literals, single-digit indices. */
  predicate Printable(t: Pattern) {
    forall i :: 0 <= i < |t| ==> PrintableSegment(t[i])
  }

  predicate PrintableSegment(s: Segment) {
    match s
    case Lit(c) => !IsSyntax(c)
    case Arg(k) => k < 10
  }

  /** Every placeholder of `t` names one of `n` arguments. */
  predicate Covers(t: Pattern, n: nat) {
    forall i :: 0 <= i < |t| && t[i].Arg? ==> t[i].index < n
  }

  /**
    Parses pattern text. Quoting, nested formats and multi-digit indices are
    not part of this model and are rejected, as is an unbalanced brace.
  */
  function Parse(p: string): (r: Option<Pattern>)
    ensures r.Some? ==> Printable(r.value)
    decreases |p|
  {
    if p == [] then Some([])
    else if p[0] == '{' then
      if |p| >= 3 && IsDigit(p[1]) && p[2] == '}' then
        match Parse(p[3..])
        case Some(t) => Some([Arg(DigitValue(p[1]))] + t)
        case None => None
      else None
    else if IsSyntax(p[0]) then None
    else
      match Parse(p[1..])
      case Some(t) => Some([Lit(p[0])] + t)
      case None => None
  }

  /** The pattern text of a pattern. */
  function Text(t: Pattern): string
    requires Printable(t)
    decreases |t|
  {
    if t == [] then "" else SegmentText(t[0]) + Text(t[1..])
  }

  /** The pattern text of one segment: the character itself or `{k}`. */
  function SegmentText(s: Segment): string
    requires PrintableSegment(s)
  {
    match s
    case Lit(c) => [c]
    case Arg(k) => "{" + [DigitChar(k)] + "}"
  }

  lemma PrintableAppend(t1: Pattern, t2: Pattern)
    requires Printable(t1) && Printable(t2)
    ensures Printable(t1 + t2)
  {
    forall i | 0 <= i < |t1 + t2|
      ensures PrintableSegment((t1 + t2)[i])
    {
      if i < |t1| {
        assert (t1 + t2)[i] == t1[i];
      } else {
        assert (t1 + t2)[i] == t2[i - |t1|];
      }
    }
  }

  lemma PrintableTail(t: Pattern)
    requires Printable(t) && t != []
    ensures Printable(t[1..])
  {
    forall i | 0 <= i < |t[1..]|
      ensures PrintableSegment(t[1..][i])
    {
      assert t[1..][i] == t[i + 1];
    }
  }

  /** The text of two patterns one after the other is the two texts one after the other. */
  lemma {:induction false} TextAppend(t1: Pattern, t2: Pattern)
    requires Printable(t1) && Printable(t2)
    ensures Printable(t1 + t2)
    ensures Text(t1 + t2) == Text(t1) + Text(t2)
    decreases |t1|
  {
    PrintableAppend(t1, t2);
    if t1 == [] {
      assert t1 + t2 == t2;
    } else {
      var t := t1 + t2;
      assert t[0] == t1[0];
      assert t[1..] == t1[1..] + t2;
      PrintableTail(t1);
      TextAppend(t1[1..], t2);
      var head := SegmentText(t1[0]);
      assert Text(t) == head + Text(t[1..]);
      assert Text(t1) == head + Text(t1[1..]);
    }
  }

  lemma {:induction false} ParseText(t: Pattern)
    requires Printable(t)
    ensures Parse(Text(t)) == Some(t)
    decreases |t|
  {
    if t != [] {
      var rest := Text(t[1..]);
      ParseText(t[1..]);
      match t[0]
      case Lit(c) =>
        assert Text(t) == [c] + rest;
        assert Text(t)[1..] == rest;
        assert !IsSyntax(c);
        assert [Lit(c)] + t[1..] == t;
      case Arg(k) =>
        assert Text(t) == "{" + [DigitChar(k)] + "}" + rest;
        assert Text(t)[3..] == rest;
        var text := Text(t);
        assert text[0] == '{' && text[1] == DigitChar(k) && text[2] == '}';
        assert [Arg(k)] + t[1..] == t;
    }
  }

  lemma {:induction false} TextParse(p: string)
    requires Parse(p).Some?
    ensures Text(Parse(p).value) == p
    decreases |p|
  {
    if p != [] {
      if p[0] == '{' {
        TextParse(p[3..]);
        assert p == "{" + [DigitChar(DigitValue(p[1]))] + "}" + p[3..];
      } else {
        TextParse(p[1..]);
        assert p == [p[0]] + p[1..];
      }
    }
  }

  /** No character of `w` has a meaning of its own in pattern text. */
  predicate NoSyntax(w: string) {
    forall i :: 0 <= i < |w| ==> !IsSyntax(w[i])
  }

  /** The pattern that is the literal characters of `w`. */
  function Word(w: string): Pattern {
    seq(|w|, i requires 0 <= i < |w| => Lit(w[i]))
  }

  /** A word followed by the placeholder `{k}`, as in the `il{0}` of `il{0}pi{1}cd{2}`. */
  function Field(w: string, k: nat): Pattern {
    Word(w) + [Arg(k)]
  }

  lemma {:induction false} WordText(w: string)
    requires NoSyntax(w)
    ensures Printable(Word(w)) && Text(Word(w)) == w
    decreases |w|
  {
    if w != [] {
      WordText(w[1..]);
      assert Word(w)[1..] == Word(w[1..]);
      assert w == [w[0]] + w[1..];
    }
  }

  lemma FieldText(w: string, k: nat)
    requires NoSyntax(w) && k < 10
    ensures Printable(Field(w, k)) && Text(Field(w, k)) == w + ['{', DigitChar(k), '}']
  {
    WordText(w);
    assert [Arg(k)][1..] == [];
    TextAppend(Word(w), [Arg(k)]);
  }

  /** Parsing the texts of two printable patterns one after the other gives the two patterns joined. */
  lemma ParseOfTwo(t1: Pattern, t2: Pattern, s: string)
    requires Printable(t1) && Printable(t2)
    requires s == Text(t1) + Text(t2)
    ensures Parse(s) == Some(t1 + t2)
  {
    TextAppend(t1, t2);
    ParseText(t1 + t2);
  }

  lemma ParseOfThree(t1: Pattern, t2: Pattern, t3: Pattern, s: string)
    requires Printable(t1) && Printable(t2) && Printable(t3)
    requires s == Text(t1) + Text(t2) + Text(t3)
    ensures Parse(s) == Some(t1 + t2 + t3)
  {
    TextAppend(t1, t2);
    TextAppend(t1 + t2, t3);
    ParseText(t1 + t2 + t3);
  }

  /** The rendering of one segment: the literal itself or the argument its placeholder names. */
  function Render(s: Segment, args: seq<nat>): string
    requires s.Arg? ==> s.index < |args|
  {
    match s
    case Lit(c) => [c]
    case Arg(k) => GroupedDecimal(args[k])
  }

  /** `MessageFormat.format` applied to a parsed pattern. */
  function Format(t: Pattern, args: seq<nat>): string
    requires Covers(t, |args|)
    decreases |t|
  {
    if t == [] then "" else Render(t[0], args) + Format(t[1..], args)
  }

  /** `MessageFormat.format(pattern, args...)` on pattern text. */
  function FormatPattern(pattern: string, args: seq<nat>): (key: string)
    requires Parse(pattern).Some? && Covers(Parse(pattern).value, |args|)
    ensures |key| >= |Parse(pattern).value|
  {
    FormatLength(Parse(pattern).value, args);
    Format(Parse(pattern).value, args)
  }

  /** Every segment renders to at least one character. */
  lemma {:induction false} FormatLength(t: Pattern, args: seq<nat>)
    requires Covers(t, |args|)
    ensures |Format(t, args)| >= |t|
    decreases |t|
  {
    if t != [] {
      CoversTail(t, |args|);
      FormatLength(t[1..], args);
    }
  }

  /**
    When every placeholder is followed by a non-digit literal and no argument
    needs a grouping separator, the arguments can be read back from the key.
  */
  lemma FormatPatternReadBack(pattern: string, args: seq<nat>)
    requires Parse(pattern).Some? && Covers(Parse(pattern).value, |args|)
    requires Separated(Parse(pattern).value)
    requires forall k :: 0 <= k < |args| ==> args[k] < 1000
    ensures Match(Parse(pattern).value, FormatPattern(pattern, args)) == Some(Shown(Parse(pattern).value, args))
  {
    MatchFormat(Parse(pattern).value, args);
  }

  lemma CoversAppend(t1: Pattern, t2: Pattern, n: nat)
    requires Covers(t1, n) && Covers(t2, n)
    ensures Covers(t1 + t2, n)
  {
    forall i | 0 <= i < |t1 + t2| && (t1 + t2)[i].Arg?
      ensures (t1 + t2)[i].index < n
    {
      if i < |t1| {
        assert (t1 + t2)[i] == t1[i];
      } else {
        assert (t1 + t2)[i] == t2[i - |t1|];
      }
    }
  }

  lemma CoversTail(t: Pattern, n: nat)
    requires Covers(t, n) && t != []
    ensures Covers(t[1..], n)
  {
    forall i | 0 <= i < |t[1..]| && t[1..][i].Arg?
      ensures t[1..][i].index < n
    {
      assert t[1..][i] == t[i + 1];
    }
  }

  /** Formatting two patterns one after the other formats each in turn. */
  lemma {:induction false} FormatAppend(t1: Pattern, t2: Pattern, args: seq<nat>)
    requires Covers(t1, |args|) && Covers(t2, |args|)
    ensures Covers(t1 + t2, |args|)
    ensures Format(t1 + t2, args) == Format(t1, args) + Format(t2, args)
    decreases |t1|
  {
    CoversAppend(t1, t2, |args|);
    if t1 == [] {
      assert t1 + t2 == t2;
    } else {
      var t := t1 + t2;
      assert t[0] == t1[0];
      assert t[1..] == t1[1..] + t2;
      CoversTail(t1, |args|);
      FormatAppend(t1[1..], t2, args);
      var head := Render(t1[0], args);
      assert Format(t, args) == head + Format(t[1..], args);
      assert Format(t1, args) == head + Format(t1[1..], args);
    }
  }

  lemma FormatSingleArg(k: nat, args: seq<nat>)
    requires k < |args|
    ensures Covers([Arg(k)], |args|)
    ensures Format([Arg(k)], args) == GroupedDecimal(args[k])
  {
    assert [Arg(k)][1..] == [];
  }

  lemma FormatAppend3(t1: Pattern, t2: Pattern, t3: Pattern, args: seq<nat>)
    requires Covers(t1, |args|) && Covers(t2, |args|) && Covers(t3, |args|)
    ensures Covers(t1 + t2 + t3, |args|)
    ensures Format(t1 + t2 + t3, args) == Format(t1, args) + Format(t2, args) + Format(t3, args)
  {
    FormatAppend(t1, t2, args);
    FormatAppend(t1 + t2, t3, args);
  }

  lemma {:induction false} WordFormat(w: string, args: seq<nat>)
    ensures Covers(Word(w), |args|) && Format(Word(w), args) == w
    decreases |w|
  {
    if w != [] {
      WordFormat(w[1..], args);
      assert Word(w)[1..] == Word(w[1..]);
      assert w == [w[0]] + w[1..];
    }
  }

  lemma FieldFormat(w: string, k: nat, args: seq<nat>)
    requires k < |args|
    ensures Covers(Field(w, k), |args|)
    ensures Format(Field(w, k), args) == w + GroupedDecimal(args[k])
  {
    WordFormat(w, args);
    FormatSingleArg(k, args);
    FormatAppend(Word(w), [Arg(k)], args);
  }

  /** Two fields: each word followed by the rendering of the argument its placeholder names. */
  lemma FormatTwoFields(w1: string, k1: nat, w2: string, k2: nat, args: seq<nat>)
    requires k1 < |args| && k2 < |args|
    ensures Covers(Field(w1, k1) + Field(w2, k2), |args|)
    ensures Format(Field(w1, k1) + Field(w2, k2), args) ==
      w1 + GroupedDecimal(args[k1]) + w2 + GroupedDecimal(args[k2])
  {
    FieldFormat(w1, k1, args);
    FieldFormat(w2, k2, args);
    FormatAppend(Field(w1, k1), Field(w2, k2), args);
    assert (w1 + GroupedDecimal(args[k1])) + (w2 + GroupedDecimal(args[k2])) ==
      w1 + GroupedDecimal(args[k1]) + w2 + GroupedDecimal(args[k2]);
  }

  /** Three fields: each word followed by the rendering of the argument its placeholder names. */
  lemma FormatThreeFields(w1: string, k1: nat, w2: string, k2: nat, w3: string, k3: nat, args: seq<nat>)
    requires k1 < |args| && k2 < |args| && k3 < |args|
    ensures Covers(Field(w1, k1) + Field(w2, k2) + Field(w3, k3), |args|)
    ensures Format(Field(w1, k1) + Field(w2, k2) + Field(w3, k3), args) ==
      w1 + GroupedDecimal(args[k1]) + w2 + GroupedDecimal(args[k2]) + w3 + GroupedDecimal(args[k3])
  {
    FieldFormat(w1, k1, args);
    FieldFormat(w2, k2, args);
    FieldFormat(w3, k3, args);
    FormatAppend3(Field(w1, k1), Field(w2, k2), Field(w3, k3), args);
    Regroup(w1, GroupedDecimal(args[k1]), w2, GroupedDecimal(args[k2]), w3, GroupedDecimal(args[k3]));
  }

  lemma Regroup(a: string, b: string, c: string, d: string, e: string, f: string)
    ensures (a + b) + (c + d) + (e + f) == a + b + c + d + e + f
  {
    assert (a + b) + (c + d) == a + b + c + d;
  }

  /** The arguments a pattern shows, in the order its placeholders appear. */
  function Shown(t: Pattern, args: seq<nat>): seq<nat>
    requires Covers(t, |args|)
    decreases |t|
  {
    if t == [] then []
    else if t[0].Arg? then [args[t[0].index]] + Shown(t[1..], args)
    else Shown(t[1..], args)
  }

  /** The arguments shown by two patterns one after the other. */
  lemma {:induction false} ShownAppend(t1: Pattern, t2: Pattern, args: seq<nat>)
    requires Covers(t1, |args|) && Covers(t2, |args|)
    ensures Covers(t1 + t2, |args|)
    ensures Shown(t1 + t2, args) == Shown(t1, args) + Shown(t2, args)
    decreases |t1|
  {
    if t1 == [] {
      assert t1 + t2 == t2;
    } else {
      assert (t1 + t2)[1..] == t1[1..] + t2;
      ShownAppend(t1[1..], t2, args);
    }
  }

  lemma ShownAppend3(t1: Pattern, t2: Pattern, t3: Pattern, args: seq<nat>)
    requires Covers(t1, |args|) && Covers(t2, |args|) && Covers(t3, |args|)
    ensures Shown(t1 + t2 + t3, args) == Shown(t1, args) + Shown(t2, args) + Shown(t3, args)
  {
    ShownAppend(t1, t2, args);
    ShownAppend(t1 + t2, t3, args);
  }

  /** Each placeholder is last or followed by a literal that is not a digit. */
  predicate Separated(t: Pattern) {
    forall i :: 0 <= i < |t| - 1 && t[i].Arg? ==> t[i + 1].Lit? && !IsDigit(t[i + 1].c)
  }

  lemma {:induction false} WordShown(w: string, args: seq<nat>)
    ensures Covers(Word(w), |args|) && Shown(Word(w), args) == []
    decreases |w|
  {
    if w != [] {
      WordShown(w[1..], args);
      assert Word(w)[1..] == Word(w[1..]);
    }
  }

  lemma FieldShown(w: string, k: nat, args: seq<nat>)
    requires k < |args|
    ensures Covers(Field(w, k), |args|) && Shown(Field(w, k), args) == [args[k]]
  {
    WordShown(w, args);
    assert [Arg(k)][1..] == [];
    ShownAppend(Word(w), [Arg(k)], args);
  }

  /** A field's one placeholder is its last element. */
  lemma FieldSeparated(w: string, k: nat)
    ensures Separated(Field(w, k))
  {
    forall i | 0 <= i < |Field(w, k)| - 1
      ensures !Field(w, k)[i].Arg?
    {
      assert Field(w, k)[i] == Word(w)[i];
    }
  }

  /** Joining two separated patterns keeps them separated when the join does not put a digit after a placeholder. */
  lemma SeparatedAppend(t1: Pattern, t2: Pattern)
    requires Separated(t1) && Separated(t2)
    requires t1 != [] && t1[|t1| - 1].Arg? && t2 != [] ==> t2[0].Lit? && !IsDigit(t2[0].c)
    ensures Separated(t1 + t2)
  {
    var t := t1 + t2;
    forall i | 0 <= i < |t| - 1 && t[i].Arg?
      ensures t[i + 1].Lit? && !IsDigit(t[i + 1].c)
    {
      if i < |t1| - 1 {
        assert t[i] == t1[i] && t[i + 1] == t1[i + 1];
      } else if i == |t1| - 1 {
        assert t[i] == t1[i] && t[i + 1] == t2[0];
      } else {
        assert t[i] == t2[i - |t1|] && t[i + 1] == t2[i - |t1| + 1];
      }
    }
  }

  /** A field whose word starts with a character that is not a digit may follow a placeholder. */
  lemma FieldStartsWithLetter(w: string, k: nat)
    requires w != [] && !IsDigit(w[0])
    ensures Field(w, k) != [] && Field(w, k)[0] == Lit(w[0]) && !IsDigit(Field(w, k)[0].c)
  {
    assert Field(w, k)[0] == Word(w)[0];
  }

  /** Length of the longest run of digits at the front of `s`. */
  function DigitRun(s: string): (n: nat)
    ensures n <= |s| && AllDigits(s[..n])
    ensures n < |s| ==> !IsDigit(s[n])
    decreases |s|
  {
    if s == [] || !IsDigit(s[0]) then 0
    else
      var n := 1 + DigitRun(s[1..]);
      assert s[..n] == [s[0]] + s[1..][..n - 1];
      n
  }

  /** Reads the placeholder values out of a key built from `t`. */
  function Match(t: Pattern, key: string): Option<seq<nat>>
    decreases |t|
  {
    if t == [] then
      if key == [] then Some([]) else None
    else
      match t[0]
      case Lit(c) =>
        if key != [] && key[0] == c then Match(t[1..], key[1..]) else None
      case Arg(_) =>
        var n := DigitRun(key);
        if n == 0 then None
        else
          match Match(t[1..], key[n..])
          case Some(vs) => Some([DigitsValue(key[..n])] + vs)
          case None => None
  }

  lemma {:induction false} DigitRunOfDigitsThenOther(a: string, b: string)
    requires AllDigits(a)
    requires b == [] || !IsDigit(b[0])
    ensures DigitRun(a + b) == |a|
    decreases |a|
  {
    if a == [] {
      assert a + b == b;
    } else {
      assert (a + b)[1..] == a[1..] + b;
      DigitRunOfDigitsThenOther(a[1..], b);
    }
  }

  lemma {:induction false} FormatStartsWithLiteral(t: Pattern, args: seq<nat>)
    requires Covers(t, |args|) && t != [] && t[0].Lit?
    ensures Format(t, args) != [] && Format(t, args)[0] == t[0].c
  {
  }

  /**
    Reading a key built from a separated pattern gives back the arguments
    shown, as long as they render without grouping separators.
  */
  lemma {:induction false} MatchFormat(t: Pattern, args: seq<nat>)
    requires Covers(t, |args|) && Separated(t)
    requires forall k :: 0 <= k < |args| ==> args[k] < 1000
    ensures Match(t, Format(t, args)) == Some(Shown(t, args))
    decreases |t|
  {
    if t != [] {
      var rest := Format(t[1..], args);
      assert Separated(t[1..]) by {
        forall i | 0 <= i < |t[1..]| - 1 && t[1..][i].Arg?
          ensures t[1..][i + 1].Lit? && !IsDigit(t[1..][i + 1].c)
        {
          assert t[1..][i] == t[i + 1] && t[1..][i + 1] == t[i + 2];
        }
      }
      MatchFormat(t[1..], args);
      match t[0]
      case Lit(c) =>
        assert Format(t, args)[1..] == rest;
      case Arg(k) =>
        var digits := GroupedDecimal(args[k]);
        GroupedBelowThousand(args[k]);
        if t[1..] != [] {
          FormatStartsWithLiteral(t[1..], args);
        }
        DigitRunOfDigitsThenOther(digits, rest);
        assert Format(t, args) == digits + rest;
        assert (digits + rest)[..|digits|] == digits;
        assert (digits + rest)[|digits|..] == rest;
        DigitsValueOfNatToString(args[k]);
    }
  }

  /** Two keys built from one separated pattern are equal only if they show the same arguments. */
  lemma FormatInjective(t: Pattern, a: seq<nat>, b: seq<nat>)
    requires Covers(t, |a|) && Covers(t, |b|) && Separated(t)
    requires forall k :: 0 <= k < |a| ==> a[k] < 1000
    requires forall k :: 0 <= k < |b| ==> b[k] < 1000
    ensures Format(t, a) == Format(t, b) ==> Shown(t, a) == Shown(t, b)
  {
    MatchFormat(t, a);
    MatchFormat(t, b);
  }
}
