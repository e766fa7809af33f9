/** The theorem: resolving the printed text of a tree gives the tree's value. */
module ExpressionRoundTrip {
  import opened Wrappers
  import opened Alphabet
  import opened Expressions
  import opened ExpressionPrinting

  // ---------------------------------------------------------------- lexemes

  lemma {:induction false} OneOfIff(c: char, chars: string)
    ensures OneOf(c, chars) <==> c in chars
  {
    if chars != "" {
      OneOfIff(c, chars[1..]);
      assert chars == [chars[0]] + chars[1..];
    }
  }

  lemma LettersAre(c: char)
    ensures IdentStart(c) <==> c in LETTERS
  {
    CapitalsAre(c);
    SmallsAre(c);
  }

  lemma BlanksAre(c: char)
    ensures IsSpace(c) <==> c in BLANKS
  {
  }

  /** The evaluator's three character classes are exactly the characters written out. */
  lemma CharacterClasses(c: char)
    ensures IdentStart(c) <==> Letter(c)
    ensures IsDigit(c) <==> Digit(c)
    ensures IsSpace(c) <==> BlankChar(c)
  {
    LettersAre(c);
    DigitsAre(c);
    BlanksAre(c);
    OneOfIff(c, LETTERS);
    OneOfIff(c, DIGITS);
    OneOfIff(c, BLANKS);
  }

  lemma LetterIsPlain(c: char)
    requires Letter(c) || Digit(c)
    ensures IdentPart(c) && !Special(c) && Edge(c) && c != '!' && c != '-' && c != '.'
  {
    CharacterClasses(c);
  }

  lemma BlankIsPlain(s: string)
    requires Blank(s)
    ensures Plain(s) && forall i :: 0 <= i < |s| ==> IsSpace(s[i])
  {
    forall i | 0 <= i < |s|
      ensures !Special(s[i]) && IsSpace(s[i])
    {
      CharacterClasses(s[i]);
    }
  }

  lemma NameChars(s: string)
    requires Name(s)
    ensures Plain(s) && forall i :: 0 <= i < |s| ==> IdentPart(s[i])
    ensures Edge(s[0]) && Edge(s[|s| - 1]) && s[|s| - 1] != '!'
  {
    forall i | 0 <= i < |s|
      ensures IdentPart(s[i]) && !Special(s[i]) && Edge(s[i]) && s[i] != '!'
    {
      LetterIsPlain(s[i]);
    }
  }

  lemma IdentChars(s: string)
    requires Identifier(s)
    ensures IdentStart(s[0]) && Plain(s) && forall i :: 0 <= i < |s| ==> IdentPart(s[i])
  {
    NameChars(s);
    CharacterClasses(s[0]);
  }

  lemma NumeralChars(s: string)
    requires Numeral(s)
    ensures forall i :: 0 <= i < |s| ==> IsDigit(s[i]) && !Special(s[i])
  {
    forall i | 0 <= i < |s|
      ensures IsDigit(s[i]) && !Special(s[i])
    {
      CharacterClasses(s[i]);
    }
  }

  lemma {:induction false} PartStops(s: string, rest: string)
    requires (forall i :: 0 <= i < |s| ==> IdentPart(s[i])) && (rest == "" || !IdentPart(rest[0]))
    ensures PartLen(s + rest) == |s|
  {
    if s == [] {
      assert s + rest == rest;
    } else {
      assert (s + rest)[1..] == s[1..] + rest;
      assert forall i :: 0 <= i < |s[1..]| ==> s[1..][i] == s[i + 1];
      PartStops(s[1..], rest);
    }
  }

  lemma IdentStops(s: string, rest: string)
    requires Identifier(s) && (rest == "" || !IdentPart(rest[0]))
    ensures IdentLen(s + rest) == |s|
  {
    IdentChars(s);
    assert (s + rest)[1..] == s[1..] + rest;
    assert forall i :: 0 <= i < |s[1..]| ==> s[1..][i] == s[i + 1];
    PartStops(s[1..], rest);
  }

  lemma {:induction false} DigitsStop(s: string, rest: string)
    requires (forall i :: 0 <= i < |s| ==> IsDigit(s[i])) && (rest == "" || !IsDigit(rest[0]))
    ensures DigitLen(s + rest) == |s|
  {
    if s == [] {
      assert s + rest == rest;
    } else {
      assert (s + rest)[1..] == s[1..] + rest;
      assert forall i :: 0 <= i < |s[1..]| ==> s[1..][i] == s[i + 1];
      DigitsStop(s[1..], rest);
    }
  }

  lemma NameStops(name: string, rest: string)
    requires Name(name) && (rest == "" || !IdentPart(rest[0]))
    ensures NameLen(name + rest) == |name| > 0
    ensures Plain(name) && forall i :: 0 <= i < |name| ==> IdentPart(name[i])
  {
    NameChars(name);
    if Identifier(name) {
      IdentStops(name, rest);
    } else {
      NumeralChars(name);
      CharacterClasses(name[0]);
      DigitsStop(name, rest);
    }
  }

  // ---------------------------------------------------------------- number literals

  lemma NumeralIsAllDigits(s: string)
    requires Numeral(s)
    ensures AllDigits(s)
  {
    NumeralChars(s);
    DigitsStop(s, "");
    assert s + "" == s;
  }

  lemma UnsignedIsNumber(whole: string, fraction: string)
    requires Numeral(whole) && (fraction == "" || Numeral(fraction))
    ensures var t := NumberText(false, whole, fraction);
      DigitLen(t) == |whole| && t != "" && t[0] != '-' && IsNumber(t)
  {
    NumeralChars(whole);
    var rest := if fraction == "" then "" else "." + fraction;
    var t := NumberText(false, whole, fraction);
    assert t == whole + rest;
    DigitsStop(whole, rest);
    if fraction != "" {
      NumeralIsAllDigits(fraction);
      assert t[|whole| + 1..] == fraction;
    }
  }

  lemma NumberChars(negative: bool, whole: string, fraction: string)
    requires Numeral(whole) && (fraction == "" || Numeral(fraction))
    ensures var s := NumberText(negative, whole, fraction);
      IsNumber(s) && Plain(s) && (s[0] == '-' || IsDigit(s[0])) && IsDigit(s[|s| - 1])
  {
    var s, t := NumberText(negative, whole, fraction), NumberText(false, whole, fraction);
    UnsignedIsNumber(whole, fraction);
    assert negative ==> s[1..] == t;
    NumeralChars(whole);
    if fraction != "" { NumeralChars(fraction); }
  }

  // ---------------------------------------------------------------- trimming

  lemma {:induction false} TrimStartPadded(pre: string, p: string)
    requires (forall i :: 0 <= i < |pre| ==> IsSpace(pre[i])) && p != [] && !IsSpace(p[0])
    ensures TrimStart(pre + p) == p
  {
    if pre == [] {
      assert pre + p == p;
    } else {
      assert (pre + p)[1..] == pre[1..] + p;
      assert forall i :: 0 <= i < |pre[1..]| ==> pre[1..][i] == pre[i + 1];
      TrimStartPadded(pre[1..], p);
    }
  }

  lemma {:induction false} TrimEndPadded(p: string, post: string)
    requires (forall i :: 0 <= i < |post| ==> IsSpace(post[i])) && p != [] && !IsSpace(p[|p| - 1])
    ensures TrimEnd(p + post) == p
    decreases |post|
  {
    if post == [] {
      assert p + post == p;
    } else {
      var n := |post| - 1;
      assert (p + post)[..|p + post| - 1] == p + post[..n];
      assert (p + post)[|p + post| - 1] == post[n];
      TrimEndPadded(p, post[..n]);
    }
  }

  lemma TrimPadded(pre: string, p: string, post: string)
    requires Blank(pre) && Blank(post) && p != [] && !IsSpace(p[0]) && !IsSpace(p[|p| - 1])
    ensures Trim(pre + p + post) == p
  {
    BlankIsPlain(pre);
    BlankIsPlain(post);
    assert pre + p + post == pre + (p + post);
    TrimStartPadded(pre, p + post);
    TrimEndPadded(p, post);
  }

  // ---------------------------------------------------------------- the shape of printed text

  lemma Padded(k: Kind, a: string, p: string, b: string)
    requires Blank(a) && Blank(b) && Closed(k, p, 0)
    ensures Closed(k, a + p, 0) && Closed(k, a + p + b, 0)
  {
    BlankIsPlain(a);
    BlankIsPlain(b);
    PlainIsQuiet(a);
    PlainIsQuiet(b);
    ClosedConcat(k, a, p, 0, 0);
    ClosedConcat(k, a + p, b, 0, 0);
  }

  lemma QuotedIsClosed(k: Kind, quote: char, body: string)
    requires Unsplit([quote] + body + [quote])
    ensures Closed(k, [quote] + body + [quote], 0)
  {
    QuietIsClosed([quote] + body + [quote], 0);
  }

  lemma NegatedIsClosed(k: Kind, sp: string, p: string)
    requires Blank(sp) && Closed(k, p, 0)
    ensures Closed(k, "!" + (sp + p), 0)
  {
    Padded(k, sp, p, "");
    assert ("!" + (sp + p))[1..] == sp + p;
  }

  lemma {:induction false} PrintIsClosed(k: Kind, e: Expr)
    requires WellFormed(e)
    ensures Closed(k, Print(e), 0)
    decreases e
  {
    match e
    case Path(head, segs) =>
      IdentChars(head);
      PlainIsQuiet(head);
      SegmentsAreClosed(k, segs);
      ClosedConcat(k, head, PrintSegments(segs), 0, 0);
    case Word(word) => PlainIsQuiet(word);
    case Number(negative, whole, fraction) =>
      NumberChars(negative, whole, fraction);
      PlainIsQuiet(Print(e));
    case Text(quote, body) => QuotedIsClosed(k, quote, body);
    case Not(a, f) =>
      PrintIsClosed(k, f);
      NegatedIsClosed(k, a, Print(f));
    case Equality(op, l, a, b, r) =>
      PrintIsClosed(k, l);
      PrintIsClosed(k, r);
      EqualityIsClosed(k, Print(l), a, op, b, Print(r));
    case Group(a, f, b) =>
      PrintIsClosed(k, f);
      Padded(k, a, Print(f), b);
      WrappedIsClosed(k, '(', a + Print(f) + b, ')');
  }

  lemma {:induction false} FlatIsClosed(k: Kind, s: string)
    requires forall i :: 0 <= i < |s| ==> !Opens(Both, s[i]) && !Closes(Both, s[i])
    ensures Closed(k, s, 0)
  {
    if s != [] {
      assert forall i :: 0 <= i < |s[1..]| ==> s[1..][i] == s[i + 1];
      FlatIsClosed(k, s[1..]);
    }
  }

  lemma EqualityIsClosed(k: Kind, left: string, a: string, op: Op, b: string, right: string)
    requires Closed(k, left, 0) && Closed(k, right, 0) && Blank(a) && Blank(b)
    ensures Closed(k, left + a + OpText(op) + (b + right), 0)
  {
    BlankIsPlain(a);
    FlatIsClosed(k, OpText(op));
    FlatIsClosed(k, a);
    Padded(k, b, right, "");
    ClosedConcat(k, left, a, 0, 0);
    ClosedConcat(k, left + a, OpText(op), 0, 0);
    ClosedConcat(k, left + a + OpText(op), b + right, 0, 0);
  }

  lemma DotIsClosed(k: Kind, name: string, more: string)
    requires Name(name) && Closed(k, more, 0)
    ensures Closed(k, "." + name + more, 0)
  {
    NameStops(name, "");
    PlainIsQuiet("." + name);
    ClosedConcat(k, "." + name, more, 0, 0);
  }

  lemma AtIsClosed(k: Kind, a: string, key: string, b: string, more: string)
    requires Blank(a) && Blank(b) && Closed(k, key, 0) && Closed(k, more, 0)
    ensures Closed(k, "[" + (a + key + b) + "]" + more, 0)
  {
    Padded(k, a, key, b);
    WrappedIsClosed(k, '[', a + key + b, ']');
    ClosedConcat(k, "[" + (a + key + b) + "]", more, 0, 0);
  }

  lemma {:induction false} SegmentsAreClosed(k: Kind, segs: Segments)
    requires SegmentsWellFormed(segs)
    ensures Closed(k, PrintSegments(segs), 0)
    decreases segs
  {
    match segs
    case End =>
    case Dot(name, rest) =>
      SegmentsAreClosed(k, rest);
      DotIsClosed(k, name, PrintSegments(rest));
    case At(a, key, b, rest) =>
      PrintIsClosed(k, key);
      SegmentsAreClosed(k, rest);
      AtIsClosed(k, a, Print(key), b, PrintSegments(rest));
  }

  lemma NegatedIsQuiet(sp: string, p: string)
    requires Blank(sp) && Quiet(p, 0) && p != "" && p[0] != '='
    ensures Quiet("!" + (sp + p), 0)
  {
    BlankIsPlain(sp);
    PlainIsQuiet(sp);
    QuietConcat(sp, p, 0, 0);
    var t := "!" + (sp + p);
    assert t[1..] == sp + p;
    assert t[1] == if sp == "" then p[0] else sp[0];
  }

  lemma {:induction false} PrintIsQuiet(e: Expr)
    requires WellFormed(e) && !e.Equality?
    ensures Quiet(Print(e), 0)
    decreases e
  {
    match e
    case Path(head, segs) =>
      IdentChars(head);
      PlainIsQuiet(head);
      SegmentsAreQuiet(segs);
      QuietConcat(head, PrintSegments(segs), 0, 0);
    case Word(word) => PlainIsQuiet(word);
    case Number(negative, whole, fraction) =>
      NumberChars(negative, whole, fraction);
      PlainIsQuiet(Print(e));
    case Text(quote, body) =>
    case Not(a, f) =>
      PrintIsQuiet(f);
      PrintEnds(f);
      NegatedIsQuiet(a, Print(f));
    case Group(a, f, b) =>
      PrintIsClosed(Both, f);
      Padded(Both, a, Print(f), b);
      WrappedIsQuiet('(', a + Print(f) + b, ')');
  }

  lemma DotIsQuiet(name: string, more: string)
    requires Name(name) && Quiet(more, 0)
    ensures Quiet("." + name + more, 0)
  {
    NameChars(name);
    PlainIsQuiet("." + name);
    QuietConcat("." + name, more, 0, 0);
  }

  lemma AtIsQuiet(a: string, key: string, b: string, more: string)
    requires Blank(a) && Blank(b) && Closed(Both, key, 0) && Quiet(more, 0)
    ensures Quiet("[" + (a + key + b) + "]" + more, 0)
  {
    Padded(Both, a, key, b);
    WrappedIsQuiet('[', a + key + b, ']');
    QuietConcat("[" + (a + key + b) + "]", more, 0, 0);
  }

  lemma {:induction false} SegmentsAreQuiet(segs: Segments)
    requires SegmentsWellFormed(segs)
    ensures Quiet(PrintSegments(segs), 0)
    decreases segs
  {
    match segs
    case End =>
    case Dot(name, rest) =>
      SegmentsAreQuiet(rest);
      DotIsQuiet(name, PrintSegments(rest));
    case At(a, key, b, rest) =>
      PrintIsClosed(Both, key);
      SegmentsAreQuiet(rest);
      AtIsQuiet(a, Print(key), b, PrintSegments(rest));
  }

  predicate Edge(c: char) {
    !IsSpace(c) && c != '=' && c != '.'
  }

  predicate Ended(p: string) {
    p != [] && Edge(p[0]) && Edge(p[|p| - 1]) && p[|p| - 1] != '!'
  }

  lemma JoinedEnds(a: string, b: string)
    requires a != [] && b != [] && Edge(a[0]) && Edge(b[|b| - 1]) && b[|b| - 1] != '!'
    ensures Ended(a + b) && (a + b)[0] == a[0]
  {
  }

  lemma PathEnds(head: string, segs: Segments)
    requires Identifier(head) && SegmentsWellFormed(segs)
    ensures var p := head + PrintSegments(segs); Ended(p) && p[0] != '(' && p[0] != '!'
  {
    IdentChars(head);
    SegmentsEnd(segs);
    if segs.End? {
      assert head + PrintSegments(segs) == head;
    } else {
      JoinedEnds(head, PrintSegments(segs));
    }
  }

  lemma WordEnds(word: string)
    requires IsWord(word)
    ensures Ended(word) && word[0] != '(' && word[0] != '!'
  {
  }

  lemma NumberEnds(negative: bool, whole: string, fraction: string)
    requires Numeral(whole) && (fraction == "" || Numeral(fraction))
    ensures var p := NumberText(negative, whole, fraction); Ended(p) && p[0] != '(' && p[0] != '!'
  {
    NumberChars(negative, whole, fraction);
  }

  lemma LeafEnds(e: Expr)
    requires WellFormed(e) && (e.Path? || e.Word? || e.Number? || e.Text?)
    ensures Ended(Print(e)) && Print(e)[0] != '(' && Print(e)[0] != '!'
  {
    match e
    case Path(head, segs) => PathEnds(head, segs);
    case Word(word) => WordEnds(word);
    case Number(negative, whole, fraction) => NumberEnds(negative, whole, fraction);
    case Text(quote, body) => JoinedEnds([quote] + body, [quote]);
  }

  lemma NotEnds(sp: string, p: string)
    requires Ended(p)
    ensures Ended("!" + (sp + p)) && ("!" + (sp + p))[0] == '!'
  {
    JoinedEnds("!" + sp, p);
    assert "!" + sp + p == "!" + (sp + p);
  }

  lemma GroupEnds(t: string)
    ensures Ended("(" + t + ")") && ("(" + t + ")")[0] == '('
  {
    JoinedEnds("(" + t, ")");
  }

  lemma EqualityEnds(l: string, a: string, op: string, b: string, r: string)
    requires Ended(l) && Ended(r)
    ensures Ended(l + a + op + (b + r))
  {
    JoinedEnds(l + a + op + b, r);
    assert l + a + op + b + r == l + a + op + (b + r);
    assert (l + a + op + b)[0] == l[0];
  }

  /** Printed text neither begins nor ends with a blank or an operator. */
  lemma {:induction false} PrintEnds(e: Expr)
    requires WellFormed(e)
    ensures Ended(Print(e))
    ensures !e.Equality? ==> (Print(e)[0] == '(' <==> e.Group?) && (Print(e)[0] == '!' <==> e.Not?)
    decreases e
  {
    match e
    case Not(a, f) =>
      PrintEnds(f);
      NotEnds(a, Print(f));
    case Equality(op, l, a, b, r) =>
      PrintEnds(l);
      PrintEnds(r);
      EqualityEnds(Print(l), a, OpText(op), b, Print(r));
    case Group(a, f, b) => GroupEnds(a + Print(f) + b);
    case Path(_, _) => LeafEnds(e);
    case Word(_) => LeafEnds(e);
    case Number(_, _, _) => LeafEnds(e);
    case Text(_, _) => LeafEnds(e);
  }

  lemma {:induction false} SegmentsEnd(segs: Segments)
    requires SegmentsWellFormed(segs)
    ensures var p := PrintSegments(segs);
      p != [] ==> (p[0] == '.' || p[0] == '[') && Edge(p[|p| - 1]) && p[|p| - 1] != '!'
    ensures PrintSegments(segs) == [] <==> segs.End?
    decreases segs
  {
    match segs
    case End =>
    case Dot(name, rest) =>
      NameStops(name, "");
      SegmentsEnd(rest);
    case At(_, _, _, rest) => SegmentsEnd(rest);
  }

  // ---------------------------------------------------------------- the scanners on printed text

  lemma QuietFindsNothing(p: string)
    requires Quiet(p, 0)
    ensures FindEquality(p, 0, 0) == None
  {
    assert p[0..|p|] == p;
    FindPasses(p, 0, |p|, 0, 0);
  }

  lemma GroupWraps(t: string, rest: string)
    requires Closed(Parens, t, 0)
    ensures WrapsWhole("(" + t + ")" + rest, 0, 0) <==> rest == ""
  {
    var p := "(" + t + ")" + rest;
    assert p[1..1 + |t|] == t;
    WrapPasses(p, 1, 1 + |t|, 1, 0);
  }

  lemma OperatorIsRead(left: string, op: Op, right: string)
    requires left != "" && left[|left| - 1] != '=' && left[|left| - 1] != '!' && right != "" && right[0] != '='
    requires Trim(left) != ""
    ensures var p := left + OpText(op) + right;
      p[..|left|] == left && EqualityAt(p, |left|) && OperatorAt(p, |left|) == OpText(op)
  {
    var p := left + OpText(op) + right;
    var n := |left|;
    assert p[..n] == left;
    assert p[n] == OpText(op)[0] && p[n + 1] == OpText(op)[1] && p[n - 1] == left[n - 1];
    assert p[n + 2] == if |OpText(op)| == 3 then '=' else right[0];
  }

  lemma FoundAfterQuiet(p: string, n: nat)
    requires n < |p| && Quiet(p[..n], 0) && EqualityAt(p, n)
    ensures FindEquality(p, 0, 0) == Some((n, OperatorAt(p, n)))
  {
    assert p[0..n] == p[..n];
    FindPasses(p, 0, n, 0, 0);
  }

  /** The operator found is the one printed: nothing to its left hides another. */
  lemma EqualityIsFound(left: string, op: Op, right: string)
    requires Quiet(left, 0) && left != "" && Trim(left) != ""
    requires left[|left| - 1] != '=' && left[|left| - 1] != '!' && right != "" && right[0] != '='
    ensures FindEquality(left + OpText(op) + right, 0, 0) == Some((|left|, OpText(op)))
  {
    OperatorIsRead(left, op, right);
    FoundAfterQuiet(left + OpText(op) + right, |left|);
  }

  // ---------------------------------------------------------------- the theorem

  /** Text that is not parenthesised as a whole and has no top-level equality. */
  lemma ResolveQuiet(h: Host, vals: Value, src: string, p: string)
    requires Trim(src) == p && p != "" && Quiet(p, 0) && p[0] != '('
    ensures p[0] == '!' ==> Resolve(h, vals, src) == Bool(!h.truthy(Resolve(h, vals, p[1..])))
    ensures IsWord(p) ==> Resolve(h, vals, src) == Eval(h, vals, Word(p))
    ensures p[0] != '!' && !IsWord(p) && IsNumber(p) ==> Resolve(h, vals, src) == h.number(p)
    ensures (p[0] == '"' || p[0] == '\'') && |p| >= 2 && p[|p| - 1] == p[0] ==>
      Resolve(h, vals, src) == Str(p[1..|p| - 1])
    ensures IdentStart(p[0]) && !IsWord(p) ==> Resolve(h, vals, src) == ResolvePath(h, vals, p)
  {
    QuietFindsNothing(p);
  }

  lemma ResolveGroup(h: Host, vals: Value, src: string, t: string)
    requires Trim(src) == "(" + t + ")" && Closed(Parens, t, 0)
    ensures Resolve(h, vals, src) == Resolve(h, vals, t)
  {
    GroupWraps(t, "");
    var p := "(" + t + ")";
    assert p + "" == p && p[1..|p| - 1] == t;
  }

  lemma ResolveEquality(h: Host, vals: Value, src: string, left: string, op: Op, right: string)
    requires Trim(src) == left + OpText(op) + right
    requires Quiet(left, 0) && left != "" && Trim(left) != ""
    requires left[|left| - 1] != '=' && left[|left| - 1] != '!' && right != "" && right[0] != '='
    requires left[0] == '(' ==> !WrapsWhole(left + OpText(op) + right, 0, 0)
    ensures Resolve(h, vals, src) == Compare(h, OpText(op), Resolve(h, vals, left), Resolve(h, vals, right))
  {
    EqualityIsFound(left, op, right);
    var p := left + OpText(op) + right;
    assert p[..|left|] == left && p[|left| + |OpText(op)|..] == right;
  }

  /** The value of a tree whose text needs no recursion. */
  lemma LeafResolves(h: Host, vals: Value, e: Expr, src: string)
    requires WellFormed(e) && (e.Word? || e.Number? || e.Text?) && Trim(src) == Print(e)
    ensures Resolve(h, vals, src) == Eval(h, vals, e)
  {
    var p := Print(e);
    LeafEnds(e);
    PrintIsQuiet(e);
    ResolveQuiet(h, vals, src, p);
    match e
    case Word(_) =>
    case Number(negative, whole, fraction) => NumberIsRead(negative, whole, fraction);
    case Text(quote, body) => assert p[1..|p| - 1] == body;
  }

  lemma NumberIsRead(negative: bool, whole: string, fraction: string)
    requires Numeral(whole) && (fraction == "" || Numeral(fraction))
    ensures var p := NumberText(negative, whole, fraction); IsNumber(p) && p[0] != '!' && !IsWord(p)
  {
    NumberChars(negative, whole, fraction);
  }

  lemma NotResolves(h: Host, vals: Value, a: string, f: Expr, src: string)
    requires WellFormed(Not(a, f)) && Trim(src) == Print(Not(a, f))
    ensures Resolve(h, vals, src) == Bool(!h.truthy(Resolve(h, vals, a + Print(f))))
  {
    var p := Print(Not(a, f));
    PrintIsQuiet(Not(a, f));
    ResolveQuiet(h, vals, src, p);
    assert p[1..] == a + Print(f);
  }

  lemma GroupDoesNotWrap(g: Expr, rest: string)
    requires WellFormed(g) && g.Group?
    ensures WrapsWhole(Print(g) + rest, 0, 0) <==> rest == ""
  {
    PrintIsClosed(Parens, g.e);
    Padded(Parens, g.a, Print(g.e), g.b);
    GroupWraps(g.a + Print(g.e) + g.b, rest);
  }

  /** What the text of a left operand looks like. */
  predicate IsLeft(p: string) {
    Quiet(p, 0) && Ended(p)
  }

  lemma OperandAndBlanks(p: string, sp: string)
    requires IsLeft(p) && Blank(sp)
    ensures var left := p + sp;
      && Quiet(left, 0) && left != "" && Trim(left) != ""
      && left[|left| - 1] != '=' && left[|left| - 1] != '!' && left[0] == p[0]
  {
    BlankIsPlain(sp);
    PlainIsQuiet(sp);
    QuietConcat(p, sp, 0, 0);
    TrimPadded("", p, sp);
    assert "" + p + sp == p + sp;
  }

  lemma LeftOperand(l: Expr, a: string)
    requires WellFormed(l) && Blank(a) && !l.Equality?
    ensures var left := Print(l) + a;
      && Quiet(left, 0) && left != "" && Trim(left) != ""
      && left[|left| - 1] != '=' && left[|left| - 1] != '!'
      && (left[0] == '(' ==> l.Group?)
  {
    PrintEnds(l);
    PrintIsQuiet(l);
    OperandAndBlanks(Print(l), a);
  }

  lemma LeftGroup(g: Expr, a: string, op: Op, left: string, right: string)
    requires WellFormed(g) && g.Group? && left == Print(g) + a
    ensures !WrapsWhole(left + OpText(op) + right, 0, 0)
  {
    GroupDoesNotWrap(g, a + OpText(op) + right);
    assert Print(g) + (a + OpText(op) + right) == left + OpText(op) + right;
    assert a + OpText(op) + right != "";
  }

  lemma EqualityResolves(h: Host, vals: Value, e: Expr, src: string, left: string, right: string)
    requires WellFormed(e) && e.Equality? && Trim(src) == Print(e)
    requires left == Print(e.l) + e.a && right == e.b + Print(e.r)
    ensures Resolve(h, vals, src) == Compare(h, OpText(e.op), Resolve(h, vals, left), Resolve(h, vals, right))
  {
    LeftOperand(e.l, e.a);
    PrintEnds(e.r);
    BlankIsPlain(e.b);
    if e.l.Group? { LeftGroup(e.l, e.a, e.op, left, right); }
    ResolveEquality(h, vals, src, left, e.op, right);
  }

  lemma HeadIsNoWord(head: string, more: string)
    requires Identifier(head) && (more == "" ==> !IsWord(head)) && (more != "" ==> more[0] == '.' || more[0] == '[')
    ensures !IsWord(head + more)
  {
    var p := head + more;
    if more == "" {
      assert p == head;
    } else {
      assert p[|head|] == more[0];
    }
  }

  lemma PathResolves(h: Host, vals: Value, src: string, head: string, more: string)
    requires Identifier(head) && (more == "" ==> !IsWord(head)) && (more != "" ==> more[0] == '.' || more[0] == '[')
    requires Trim(src) == head + more && Quiet(head + more, 0)
    ensures Resolve(h, vals, src) == Walk(h, vals, head + more, |head|, Get(h, vals, Str(head)))
  {
    IdentChars(head);
    HeadIsNoWord(head, more);
    IdentStops(head, more);
    assert (head + more)[..|head|] == head;
    ResolveQuiet(h, vals, src, head + more);
  }

  lemma DotSlices(expr: string, i: nat, name: string, more: string)
    requires i <= |expr| && expr[i..] == "." + name + more
    ensures i < |expr| && expr[i] == '.' && expr[i + 1..] == name + more && i + 1 + |name| <= |expr|
    ensures expr[i + 1..i + 1 + |name|] == name && expr[i + 1 + |name|..] == more
  {
    assert expr[i] == expr[i..][0];
    assert expr[i + 1..] == expr[i..][1..] == name + more;
    assert expr[i + 1..i + 1 + |name|] == expr[i + 1..][..|name|];
    assert expr[i + 1 + |name|..] == expr[i + 1..][|name|..];
  }

  lemma BracketSlices(expr: string, i: nat, t: string, more: string) returns (c: nat)
    requires i <= |expr| && expr[i..] == "[" + t + "]" + more && Closed(Brackets, t, 0)
    ensures i < c < |expr| && expr[i] == '[' && CloseBracket(expr, i + 1, 1) == Some(c)
    ensures expr[i + 1..c] == t && expr[c + 1..] == more
  {
    c := i + 1 + |t|;
    assert expr[i] == expr[i..][0];
    assert expr[c] == expr[i..][1 + |t|];
    assert expr[i + 1..c] == expr[i..][1..1 + |t|] == t;
    assert expr[c + 1..] == expr[i..][|t| + 2..] == more;
    ClosePasses(expr, i + 1, c, 1, 0);
  }

  lemma GroupResolves(h: Host, vals: Value, g: Expr, src: string)
    requires WellFormed(g) && g.Group? && Trim(src) == Print(g)
    ensures Resolve(h, vals, src) == Resolve(h, vals, g.a + Print(g.e) + g.b)
  {
    PrintIsClosed(Parens, g.e);
    Padded(Parens, g.a, Print(g.e), g.b);
    ResolveGroup(h, vals, src, g.a + Print(g.e) + g.b);
  }

  lemma PathIsEval(h: Host, vals: Value, head: string, segs: Segments, src: string)
    requires WellFormed(Path(head, segs)) && Trim(src) == Print(Path(head, segs))
    ensures Resolve(h, vals, src) == Walk(h, vals, head + PrintSegments(segs), |head|, Get(h, vals, Str(head)))
    ensures (head + PrintSegments(segs))[|head|..] == PrintSegments(segs)
  {
    PrintIsQuiet(Path(head, segs));
    SegmentsEnd(segs);
    PathResolves(h, vals, src, head, PrintSegments(segs));
  }

  lemma NameAfterDot(expr: string, i: nat, name: string, more: string)
    requires i <= |expr| && expr[i..] == "." + name + more
    requires Name(name) && (more == "" || !IdentPart(more[0]))
    ensures i + 1 + |name| <= |expr| && expr[i] == '.' && name != "" && NameLen(expr[i + 1..]) == |name|
    ensures expr[i + 1..i + 1 + |name|] == name && expr[i + 1 + |name|..] == more
  {
    NameStops(name, more);
    DotSlices(expr, i, name, more);
  }

  lemma DotWalks(h: Host, vals: Value, expr: string, i: nat, name: string, more: string, cur: Value) returns (j: nat)
    requires i <= |expr| && expr[i..] == "." + name + more
    requires Name(name) && (more == "" || !IdentPart(more[0]))
    ensures j <= |expr| && expr[j..] == more
    ensures Walk(h, vals, expr, i, cur) == Walk(h, vals, expr, j, Get(h, cur, Str(name)))
  {
    NameAfterDot(expr, i, name, more);
    j := i + 1 + |name|;
    WalkDotTo(h, vals, expr, i, j, name, cur);
  }

  lemma BracketWalks(h: Host, vals: Value, expr: string, i: nat, t: string, more: string, cur: Value, key: Value)
    returns (j: nat)
    requires i <= |expr| && expr[i..] == "[" + t + "]" + more && Closed(Brackets, t, 0)
    requires Resolve(h, vals, t) == key
    ensures j <= |expr| && expr[j..] == more
    ensures Walk(h, vals, expr, i, cur) == Walk(h, vals, expr, j, Get(h, cur, key))
  {
    var c := BracketSlices(expr, i, t, more);
    j := WalkBracketTo(h, vals, expr, i, c, t, more, cur, key);
  }

  lemma CatAssociates(a: string, b: string, c: string)
    ensures a + b + c == a + (b + c)
  {
  }

  lemma RestStops(rest: Segments, behind: string)
    requires SegmentsWellFormed(rest) && (behind == "" || !IdentPart(behind[0]))
    ensures var more := PrintSegments(rest) + behind; more == "" || !IdentPart(more[0])
  {
    SegmentsEnd(rest);
  }

  lemma KeyIsClosed(a: string, key: Expr, b: string)
    requires WellFormed(key) && Blank(a) && Blank(b)
    ensures Closed(Brackets, a + Print(key) + b, 0)
  {
    PrintIsClosed(Brackets, key);
    Padded(Brackets, a, Print(key), b);
  }

  lemma CompareIsEval(h: Host, vals: Value, e: Expr)
    requires e.Equality?
    ensures Compare(h, OpText(e.op), Eval(h, vals, e.l), Eval(h, vals, e.r)) == Eval(h, vals, e)
  {
  }

  /** For every host, every value of the variables and every tree with whatever blanks: resolving the text
      of the tree, with any blanks around it, is evaluating the tree. */
  lemma {:induction false} ResolveIsEval(h: Host, vals: Value, e: Expr, pre: string, post: string)
    requires WellFormed(e) && Blank(pre) && Blank(post)
    ensures Resolve(h, vals, pre + Print(e) + post) == Eval(h, vals, e)
    decreases e, 1
  {
    PrintEnds(e);
    TrimPadded(pre, Print(e), post);
    TrimmedIsEval(h, vals, e, pre + Print(e) + post);
  }

  lemma {:induction false} TrimmedIsEval(h: Host, vals: Value, e: Expr, src: string)
    requires WellFormed(e) && Trim(src) == Print(e)
    ensures Resolve(h, vals, src) == Eval(h, vals, e)
    decreases e, 0, 1
  {
    match e
    case Word(_) => LeafResolves(h, vals, e, src);
    case Number(_, _, _) => LeafResolves(h, vals, e, src);
    case Text(_, _) => LeafResolves(h, vals, e, src);
    case Group(a, f, b) =>
      GroupResolves(h, vals, e, src);
      ResolveIsEval(h, vals, f, a, b);
    case Equality(_, _, _, _, _) => EqualityIsEval(h, vals, e, src);
    case Not(a, f) =>
      NotResolves(h, vals, a, f, src);
      ResolveIsEval(h, vals, f, a, "");
      assert a + Print(f) + "" == a + Print(f);
    case Path(head, segs) =>
      PathIsEval(h, vals, head, segs, src);
      WalkIsEval(h, vals, head + PrintSegments(segs), |head|, segs, Get(h, vals, Str(head)));
  }

  lemma {:induction false} EqualityIsEval(h: Host, vals: Value, e: Expr, src: string)
    requires WellFormed(e) && e.Equality? && Trim(src) == Print(e)
    ensures Resolve(h, vals, src) == Eval(h, vals, e)
    decreases e, 0, 0
  {
    var lt, rt := "" + Print(e.l) + e.a, e.b + Print(e.r) + "";
    assert lt == Print(e.l) + e.a && rt == e.b + Print(e.r);
    EqualityResolves(h, vals, e, src, lt, rt);
    ResolveIsEval(h, vals, e.l, "", e.a);
    ResolveIsEval(h, vals, e.r, e.b, "");
    CompareIsEval(h, vals, e);
  }

  /** Following the printed segments of a path, whatever stands behind them. */
  lemma {:induction false} WalkReaches(h: Host, vals: Value, expr: string, i: nat, segs: Segments, more: string,
                                       cur: Value)
    returns (j: nat)
    requires SegmentsWellFormed(segs) && i <= |expr| && expr[i..] == PrintSegments(segs) + more
    requires more == "" || !IdentPart(more[0])
    ensures j <= |expr| && expr[j..] == more
    ensures Walk(h, vals, expr, i, cur) == Walk(h, vals, expr, j, EvalSegments(h, vals, cur, segs))
    decreases segs, 1
  {
    if segs.End? {
      j := i;
      assert "" + more == more;
    } else if segs.Dot? {
      j := DotReaches(h, vals, expr, i, segs, more, cur);
    } else {
      j := BracketReaches(h, vals, expr, i, segs, more, cur);
    }
  }

  lemma {:induction false} DotReaches(h: Host, vals: Value, expr: string, i: nat, segs: Segments, more: string,
                                      cur: Value)
    returns (j: nat)
    requires SegmentsWellFormed(segs) && i <= |expr| && expr[i..] == PrintSegments(segs) + more
    requires segs.Dot? && (more == "" || !IdentPart(more[0]))
    ensures j <= |expr| && expr[j..] == more
    ensures Walk(h, vals, expr, i, cur) == Walk(h, vals, expr, j, EvalSegments(h, vals, cur, segs))
    decreases segs, 0
  {
    RestStops(segs.rest, more);
    var rest := PrintSegments(segs.rest) + more;
    CatAssociates("." + segs.name, PrintSegments(segs.rest), more);
    var k := DotWalks(h, vals, expr, i, segs.name, rest, cur);
    j := WalkReaches(h, vals, expr, k, segs.rest, more, Get(h, cur, Str(segs.name)));
  }

  lemma {:induction false} BracketReaches(h: Host, vals: Value, expr: string, i: nat, segs: Segments, more: string,
                                          cur: Value)
    returns (j: nat)
    requires SegmentsWellFormed(segs) && i <= |expr| && expr[i..] == PrintSegments(segs) + more
    requires segs.At? && (more == "" || !IdentPart(more[0]))
    ensures j <= |expr| && expr[j..] == more
    ensures Walk(h, vals, expr, i, cur) == Walk(h, vals, expr, j, EvalSegments(h, vals, cur, segs))
    decreases segs, 0
  {
    var t, key := segs.a + Print(segs.key) + segs.b, Eval(h, vals, segs.key);
    KeyIsClosed(segs.a, segs.key, segs.b);
    ResolveIsEval(h, vals, segs.key, segs.a, segs.b);
    CatAssociates("[" + t + "]", PrintSegments(segs.rest), more);
    var k := BracketWalks(h, vals, expr, i, t, PrintSegments(segs.rest) + more, cur, key);
    j := WalkReaches(h, vals, expr, k, segs.rest, more, Get(h, cur, key));
  }

  lemma WalkIsEval(h: Host, vals: Value, expr: string, i: nat, segs: Segments, cur: Value)
    requires SegmentsWellFormed(segs) && i <= |expr| && expr[i..] == PrintSegments(segs)
    ensures Walk(h, vals, expr, i, cur) == EvalSegments(h, vals, cur, segs)
    decreases segs, 2
  {
    assert PrintSegments(segs) + "" == PrintSegments(segs);
    var j := WalkReaches(h, vals, expr, i, segs, "", cur);
    assert |expr[j..]| == 0;
  }

  /** An identifier that is none of the four words is looked up in the values. */
  lemma IdentifierIsLookedUp(h: Host, vals: Value, name: string)
    requires Identifier(name) && !IsWord(name)
    ensures Resolve(h, vals, name) == Property(h, vals, Str(name))
  {
    var e := Path(name, End);
    assert "" + Print(e) + "" == name;
    ResolveIsEval(h, vals, e, "", "");
  }

  // ---------------------------------------------------------------- quoted operators

  lemma QuotedResolves(h: Host, vals: Value, p: string)
    requires Trim(p) == p && |p| >= 2 && (p[0] == '"' || p[0] == '\'') && p[|p| - 1] == p[0]
    ensures FindEquality(p, 0, 0).None? ==> Resolve(h, vals, p) == Str(p[1..|p| - 1])
    ensures FindEquality(p, 0, 0).Some? ==> Resolve(h, vals, p).Bool?
  {
  }

  /** A quoted literal, whatever is in it, means its contents exactly when its text has no top-level
      equality operator: the quotes do not protect one. */
  lemma QuotedTextResolvesIff(h: Host, vals: Value, quote: char, body: string)
    requires quote == '"' || quote == '\''
    ensures Resolve(h, vals, [quote] + body + [quote]) == Str(body) <==>
            FindEquality([quote] + body + [quote], 0, 0).None?
  {
    var p := [quote] + body + [quote];
    TrimPadded("", p, "");
    assert "" + p + "" == p && p[1..|p| - 1] == body;
    QuotedResolves(h, vals, p);
  }

  lemma OperatorInQuotes(p: string)
    requires p == "'a==b'"
    ensures FindEquality(p, 0, 0) == Some((2, "==")) && Trim(p) == p
    ensures p[..2] == "'a" && p[4..] == "b'" && Trim(p[..2]) == p[..2] && Trim(p[4..]) == p[4..]
  {
    TrimPadded("", p, "");
    assert "" + p + "" == p;
    TrimPadded("", p[..2], "");
    assert "" + p[..2] + "" == p[..2];
    TrimPadded("", p[4..], "");
    assert "" + p[4..] + "" == p[4..];
    assert OperatorAt(p, 2) == "==";
    assert FindEquality(p, 2, 0) == Some((2, "=="));
    assert FindEquality(p, 1, 0) == FindEquality(p, 2, 0);
  }

  lemma SplitResolves(h: Host, vals: Value, p: string, k: nat)
    requires Trim(p) == p && p != "" && p[0] != '(' && FindEquality(p, 0, 0) == Some((k, "=="))
    ensures Resolve(h, vals, p) == Compare(h, "==", Resolve(h, vals, p[..k]), Resolve(h, vals, p[k + 2..]))
  {
  }

  /** Such a literal: the text is split at the operator and compares two undefined paths. */
  lemma QuotedOperatorSplits(h: Host, vals: Value)
    ensures Resolve(h, vals, "'a==b'") == Bool(h.looseEq(Undefined, Undefined))
  {
    OperatorInQuotes("'a==b'");
    SplitResolves(h, vals, "'a==b'", 2);
    UnclosedQuote(h, vals, "'a");
    TrailingQuote(h, vals);
  }

  lemma UnclosedQuote(h: Host, vals: Value, p: string)
    requires p == "'a" && Trim(p) == p
    ensures Resolve(h, vals, p) == Undefined
  {
    assert Plain(p);
    PlainIsQuiet(p);
    QuietFindsNothing(p);
  }

  lemma TrailingQuote(h: Host, vals: Value)
    requires Trim("b'") == "b'"
    ensures Resolve(h, vals, "b'") == Undefined
  {
    var p := "b'";
    PlainIsQuiet(p);
    IsB("b");
    IdentStops("b", "'");
    assert "b" + "'" == p;
    ResolveQuiet(h, vals, p, p);
    WalkStops(h, vals, p, 1, Get(h, vals, Str(p[..1])));
  }

  lemma IsB(b: string)
    requires b == "b"
    ensures Identifier(b)
  {
    CharacterClasses('b');
  }
}
