/** fmt.Sprintf called with a format string and no operands, the way the
    dispatcher's errorResponse uses it. Plain text is copied; every verb finds
    no operand and prints one of fmt's documented complaints ("%!v(MISSING)",
    "%!(NOVERB)", "%!(BADWIDTH)", "%!(BADPREC)", "%!v(BADINDEX)"); "%%" prints
    a single '%'. The scanning follows fmt's doPrintf, one verb at a time. */
module GoFmt {
  import opened Wrappers

  predicate IsFlag(c: char) {
    c == '#' || c == '0' || c == '+' || c == '-' || c == ' '
  }

  predicate IsDigit(c: char) {
    '0' <= c <= '9'
  }

  /** The index of the first character at or after i that is not a flag. */
  function SkipFlags(t: string, i: nat): (j: nat)
    requires i <= |t|
    ensures i <= j <= |t|
    decreases |t| - i
  {
    if i < |t| && IsFlag(t[i]) then SkipFlags(t, i + 1) else i
  }

  /** fmt's parsenum on t[i..end]: whether a number was read, and where it
      stopped. Once the value passes one million fmt gives up and jumps to end. */
  function ParseNum(t: string, i: nat, end: nat, num: nat, isnum: bool): (r: (bool, nat))
    requires i <= end <= |t|
    ensures i <= r.1 <= end
    decreases end - i
  {
    if i < end && IsDigit(t[i]) then
      if num > 1000000 then (false, end)
      else ParseNum(t, i + 1, end, num * 10 + (t[i] as int - '0' as int), true)
    else (isnum, i)
  }

  /** The first ']' at or after j. */
  function CloseBracket(t: string, j: nat): (r: Option<nat>)
    requires j <= |t|
    ensures r.Some? ==> j <= r.value < |t| && t[r.value] == ']'
    decreases |t| - j
  {
    if j == |t| then None
    else if t[j] == ']' then Some(j)
    else CloseBracket(t, j + 1)
  }

  /** Whether an explicit operand index "[n]" starts at i. With no operands,
      any such index is out of range and spoils the verb. */
  predicate AtIndex(t: string, i: nat) {
    i < |t| && t[i] == '['
  }

  /** fmt's argNumber at i: where scanning resumes, and whether "[n]" parsed. */
  function ArgNumber(t: string, i: nat): (r: (nat, bool))
    requires i <= |t|
    ensures i <= r.0 <= |t|
  {
    if !AtIndex(t, i) then (i, false)
    else if |t| - i < 3 then (i + 1, false)
    else
      match CloseBracket(t, i + 1)
      case None => (i + 1, false)
      case Some(k) =>
        var (ok, stop) := ParseNum(t, i + 1, k, 0, false);
        (k + 1, ok && stop == k)
  }

  /** What a verb character prints when no operand is left for it. */
  function VerbText(c: char, goodIndex: bool): string {
    if c == '%' then "%"
    else if goodIndex then "%!" + [c] + "(MISSING)"
    else "%!" + [c] + "(BADINDEX)"
  }

  /** One directive: t is the text after a '%'. Yields what it prints and the
      text after it. */
  function Directive(t: string): (r: (string, string))
    ensures |r.0| > 0
    ensures |r.1| <= |t| && r.1 == t[|t| - |r.1|..]
    ensures t != [] ==> |r.1| < |t|
  {
    var i1 := SkipFlags(t, 0);
    var (i2, after1) := ArgNumber(t, i1);
    var bad1 := AtIndex(t, i1);
    // width
    var (i3, after2, bad2, badWidth) :=
      if i2 < |t| && t[i2] == '*' then (i2 + 1, false, false, "%!(BADWIDTH)")
      else
        var (widPresent, j) := ParseNum(t, i2, |t|, 0, false);
        (j, after1, after1 && widPresent, "");
    // precision
    var (i4, after3, bad3, badPrec) :=
      if i3 + 1 < |t| && t[i3] == '.' then
        var (j, found) := ArgNumber(t, i3 + 1);
        var spoiled := after2 || AtIndex(t, i3 + 1);
        if j < |t| && t[j] == '*' then (j + 1, false, spoiled, "%!(BADPREC)")
        else (ParseNum(t, j, |t|, 0, false).1, found, spoiled, "")
      else (i3, after2, false, "");
    // an index just before the verb
    var (i5, bad4) := if after3 then (i4, false) else (ArgNumber(t, i4).0, AtIndex(t, i4));
    var goodIndex := !(bad1 || bad2 || bad3 || bad4);
    if i5 == |t| then (badWidth + badPrec + "%!(NOVERB)", "")
    else (badWidth + badPrec + VerbText(t[i5], goodIndex), t[i5 + 1..])
  }

  /** fmt.Sprintf(format) with no operands. */
  function Sprintf(format: string): (r: string)
    ensures '%' !in format ==> r == format
    ensures format != [] ==> r != []
    decreases 2 * |format|
  {
    if format == [] then []
    else if format[0] != '%' then [format[0]] + Sprintf(format[1..])
    else SprintfAfterPercent(format[1..])
  }

  /** What Sprintf prints from a '%' on, given the text after the '%': the
      directive, then the rest of the format. */
  function SprintfAfterPercent(t: string): (r: string)
    ensures r != []
    decreases 2 * |t| + 1
  {
    var (out, rest) := Directive(t);
    out + Sprintf(rest)
  }

  /** One step of Sprintf on a plain character. */
  lemma SprintfPlain(c: char, s: string)
    requires c != '%'
    ensures Sprintf([c] + s) == [c] + Sprintf(s)
  {
    assert ([c] + s)[0] == c && ([c] + s)[1..] == s;
  }

  /** One step of Sprintf on a directive. */
  lemma SprintfDirective(t: string)
    ensures Sprintf(['%'] + t) == Directive(t).0 + Sprintf(Directive(t).1)
  {
    assert SprintfAfterPercent(t) == Directive(t).0 + Sprintf(Directive(t).1);
    assert (['%'] + t)[0] == '%' && (['%'] + t)[1..] == t;
  }

  /** A text without '%' splits into a first character other than '%' and
      a rest without '%'. */
  lemma NoPercentSplit(p: string)
    requires '%' !in p && p != []
    ensures p[0] != '%' && '%' !in p[1..] && p == [p[0]] + p[1..]
  {
    assert p[0] in p;
    forall k | 0 <= k < |p[1..]| ensures p[1..][k] != '%' {
      assert p[1..][k] == p[k + 1] && p[k + 1] in p;
    }
  }

  /** Sprintf copies a leading character other than '%'. */
  lemma PlainStep(p: string, s: string)
    requires p != [] && p[0] != '%'
    ensures Sprintf(p + s) == [p[0]] + Sprintf(p[1..] + s)
  {
    assert p + s == [p[0]] + (p[1..] + s);
    SprintfPlain(p[0], p[1..] + s);
  }

  /** Text without '%' in front of a format is printed as it is. */
  lemma {:induction false} PlainPrefixVerbatim(p: string, s: string)
    requires '%' !in p
    ensures Sprintf(p + s) == p + Sprintf(s)
  {
    if p == [] {
      assert p + s == s;
    } else {
      NoPercentSplit(p);
      PlainStep(p, s);
      PlainPrefixVerbatim(p[1..], s);
      Regroup(p, Sprintf(s));
    }
  }

  /** The first character of p, then the rest of p, then out, is p then out. */
  lemma Regroup(p: string, out: string)
    requires p != []
    ensures [p[0]] + (p[1..] + out) == p + out
  {
    assert p == [p[0]] + p[1..];
  }

  /** A message with every '%' doubled: the format an error text would need to
      reach the client unchanged. */
  function EscapePercent(s: string): string {
    if s == [] then []
    else (if s[0] == '%' then "%%" else [s[0]]) + EscapePercent(s[1..])
  }

  /** "%%" prints a single '%'. */
  lemma PercentDirective(e: string)
    ensures Directive("%" + e).0 == "%" && Directive("%" + e).1 == e
  {
    var t := "%" + e;
    assert t[0] == '%' && t[1..] == e;
    assert SkipFlags(t, 0) == 0;
    assert ArgNumber(t, 0) == (0, false);
    assert ParseNum(t, 0, |t|, 0, false) == (false, 0);
    assert !AtIndex(t, 0) && t[0] != '*' && t[0] != '.';
    assert forall g :: VerbText(t[0], g) == "%";
  }

  /** Sprintf prints "%%" as '%' and goes on after it. */
  lemma EscapedStep(e: string)
    ensures Sprintf("%%" + e) == "%" + Sprintf(e)
  {
    assert "%%" + e == ['%'] + ("%" + e);
    SprintfDirective("%" + e);
    PercentDirective(e);
  }

  lemma {:induction false} EscapedVerbatim(s: string)
    ensures Sprintf(EscapePercent(s)) == s
  {
    if s != [] {
      var e := EscapePercent(s[1..]);
      EscapedVerbatim(s[1..]);
      if s[0] == '%' {
        assert EscapePercent(s) == "%%" + e;
        EscapedStep(e);
      } else {
        assert EscapePercent(s) == [s[0]] + e;
        SprintfPlain(s[0], e);
      }
      assert s == [s[0]] + s[1..];
    }
  }

  /** A verb letter after "% " finds no operand. */
  lemma SpaceFlaggedVerb(c: char, rest: string)
    requires !IsFlag(c) && !IsDigit(c) && c != '[' && c != '*' && c != '.' && c != '%'
    ensures Directive([' ', c] + rest).0 == "%!" + [c] + "(MISSING)"
    ensures Directive([' ', c] + rest).1 == rest
  {
    var t := [' ', c] + rest;
    assert t[0] == ' ' && t[1] == c && t[2..] == rest;
    assert SkipFlags(t, 0) == 1;
    assert ArgNumber(t, 1) == (1, false);
    assert ParseNum(t, 1, |t|, 0, false) == (false, 1);
  }

  /** "% " followed by a verb letter, then plain text. */
  lemma MangledDirective(c: char, post: string)
    requires '%' !in post
    requires !IsFlag(c) && !IsDigit(c) && c != '[' && c != '*' && c != '.' && c != '%'
    ensures Sprintf(['%', ' ', c] + post) == "%!" + [c] + "(MISSING)" + post
  {
    var t := [' ', c] + post;
    assert ['%', ' ', c] + post == ['%'] + t;
    SprintfDirective(t);
    SpaceFlaggedVerb(c, post);
  }

  /** An error text that mentions a percentage, such as "disk 100% full", is
      mangled on its way out: "% f" reads as the verb f with a space flag. */
  lemma PercentInTextIsMangled(pre: string, c: char, post: string)
    requires '%' !in pre && '%' !in post
    requires !IsFlag(c) && !IsDigit(c) && c != '[' && c != '*' && c != '.' && c != '%'
    ensures Sprintf(pre + "% " + [c] + post) == pre + "%!" + [c] + "(MISSING)" + post
    ensures Sprintf(pre + "% " + [c] + post) != pre + "% " + [c] + post
  {
    var d := ['%', ' ', c] + post;
    var m := "%!" + [c] + "(MISSING)" + post;
    MangledDirective(c, post);
    PlainPrefixVerbatim(pre, d);
    assert pre + "% " + [c] + post == pre + d;
    assert pre + "%!" + [c] + "(MISSING)" + post == pre + m;
    assert (pre + m)[|pre| + 1] == '!' != (pre + d)[|pre| + 1];
  }
}
