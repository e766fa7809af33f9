/** What the scanners of the evaluator find, said by counting brackets instead of by scanning; and the
    paths that lead nowhere. */
module ExpressionScanners {
  import opened Wrappers
  import opened Expressions
  import opened ExpressionPrinting
  import opened ExpressionRoundTrip

  // ---------------------------------------------------------------- trimming

  lemma {:induction false} TrimStartCuts(s: string) returns (pre: string)
    ensures s == pre + TrimStart(s) && Blank(pre)
    ensures TrimStart(s) == "" || !BlankChar(TrimStart(s)[0])
  {
    pre := "";
    if s != "" {
      CharacterClasses(s[0]);
      if IsSpace(s[0]) {
        var rest := TrimStartCuts(s[1..]);
        pre := [s[0]] + rest;
      }
    }
  }

  lemma {:induction false} TrimEndCuts(s: string) returns (post: string)
    ensures s == TrimEnd(s) + post && Blank(post)
    ensures TrimEnd(s) == "" || !BlankChar(TrimEnd(s)[|TrimEnd(s)| - 1])
  {
    post := "";
    if s != "" {
      CharacterClasses(s[|s| - 1]);
      if IsSpace(s[|s| - 1]) {
        var rest := TrimEndCuts(s[..|s| - 1]);
        post := rest + [s[|s| - 1]];
      }
    }
  }

  /** Trimming cuts off blanks at both ends, and what it leaves neither begins nor ends with one. */
  lemma TrimCutsBlanks(s: string) returns (pre: string, post: string)
    ensures s == pre + Trim(s) + post && Blank(pre) && Blank(post)
    ensures Trim(s) == "" || (!BlankChar(Trim(s)[0]) && !BlankChar(Trim(s)[|Trim(s)| - 1]))
  {
    pre := TrimStartCuts(s);
    post := TrimEndCuts(TrimStart(s));
  }

  lemma TrimsToNothingIff(s: string)
    ensures Trim(s) == "" <==> Blank(s)
  {
    var pre, post := TrimCutsBlanks(s);
    if Trim(s) != "" {
      assert s[|pre|] == Trim(s)[0];
    }
  }

  // ---------------------------------------------------------------- the top-level operator

  /** How many brackets and parentheses the text leaves open. */
  function Level(s: string): int {
    Count(s, '(') + Count(s, '[') - Count(s, ')') - Count(s, ']')
  }

  function Count(s: string, c: char): int {
    multiset(s)[c]
  }

  /** An equality operator begins here: an `=` or `!` before an `=`, not right behind another one, and with
      something to compare on its left. */
  predicate OperatorBegins(s: string, i: nat) {
    i + 1 < |s| && (s[i] == '=' || s[i] == '!') && s[i + 1] == '=' &&
    (i > 0 ==> s[i - 1] != '=' && s[i - 1] != '!') && !Blank(s[..i])
  }

  predicate TopOperator(s: string, i: nat) {
    OperatorBegins(s, i) && Level(s[..i]) == 0
  }

  lemma LevelNext(s: string, i: nat)
    requires i < |s|
    ensures Level(s[..i + 1]) == Level(s[..i]) +
      (if s[i] == '(' || s[i] == '[' then 1 else if s[i] == ')' || s[i] == ']' then -1 else 0)
  {
    assert s[..i + 1] == s[..i] + [s[i]];
  }

  lemma OperatorBeginsIff(s: string, i: nat)
    ensures EqualityAt(s, i) <==> OperatorBegins(s, i)
  {
    if i + 1 < |s| { TrimsToNothingIff(s[..i]); }
  }

  predicate NoneBetween(s: string, i: nat, j: nat) {
    forall k :: i <= k < j ==> !TopOperator(s, k)
  }

  lemma NoneBetweenNext(s: string, i: nat, j: nat)
    ensures NoneBetween(s, i, j) <==> i >= j || (!TopOperator(s, i) && NoneBetween(s, i + 1, j))
  {
  }

  lemma FindStep(s: string, i: nat)
    requires i < |s|
    ensures FindEquality(s, i, Level(s[..i])) ==
      if TopOperator(s, i) then Some((i, OperatorAt(s, i))) else FindEquality(s, i + 1, Level(s[..i + 1]))
  {
    LevelNext(s, i);
    OperatorBeginsIff(s, i);
  }

  lemma {:induction false} FindsFrom(s: string, i: nat)
    requires i <= |s|
    ensures var r := FindEquality(s, i, Level(s[..i]));
      && (r.None? ==> NoneBetween(s, i, |s|))
      && (r.Some? ==> i <= r.value.0 < |s| && TopOperator(s, r.value.0) && NoneBetween(s, i, r.value.0))
      && (r.Some? ==> r.value.1 == OperatorAt(s, r.value.0))
    decreases |s| - i
  {
    if i < |s| {
      FindStep(s, i);
      FindsFrom(s, i + 1);
      NoneBetweenNext(s, i, |s|);
      var r := FindEquality(s, i + 1, Level(s[..i + 1]));
      if r.Some? { NoneBetweenNext(s, i, r.value.0); }
    }
  }

  lemma OperatorText(s: string, i: nat)
    requires i + 1 < |s| && s[i + 1] == '='
    ensures OperatorAt(s, i) == if i + 2 < |s| && s[i + 2] == '=' then s[i..i + 3] else s[i..i + 2]
  {
  }

  lemma TopIsSomewhere(s: string, i: nat)
    requires TopOperator(s, i)
    ensures i + 1 < |s| && s[i + 1] == '=' && !NoneBetween(s, 0, |s|)
  {
  }

  /** The scan finds the first operator outside all brackets, with three characters if an `=` follows. */
  lemma FindsTheTopOperatorIff(s: string)
    ensures var r := FindEquality(s, 0, 0);
      && (r.None? <==> NoneBetween(s, 0, |s|))
      && (r.Some? ==> r.value.0 < |s| && TopOperator(s, r.value.0) && NoneBetween(s, 0, r.value.0))
      && (r.Some? ==> var i := r.value.0;
            r.value.1 == if i + 2 < |s| && s[i + 2] == '=' then s[i..i + 3] else s[i..i + 2])
  {
    assert s[..0] == "";
    FindsFrom(s, 0);
    var r := FindEquality(s, 0, 0);
    if r.Some? {
      TopIsSomewhere(s, r.value.0);
      OperatorText(s, r.value.0);
    }
  }

  // ---------------------------------------------------------------- parentheses around the whole, and brackets

  function ParenLevel(s: string): int {
    Count(s, '(') - Count(s, ')')
  }

  /** A parenthesis closes everything open before the last character. */
  predicate ClosesEarly(s: string, k: nat) {
    0 < k < |s| && s[k - 1] == ')' && ParenLevel(s[..k]) == 0
  }

  lemma {:induction false} WrapsFrom(s: string, i: nat)
    requires i < |s|
    ensures WrapsWhole(s, i, ParenLevel(s[..i])) <==> forall k :: i < k < |s| ==> !ClosesEarly(s, k)
    decreases |s| - i
  {
    if i + 1 < |s| {
      assert s[..i + 1] == s[..i] + [s[i]];
      WrapsFrom(s, i + 1);
      assert ClosesEarly(s, i + 1) <==> s[i] == ')' && ParenLevel(s[..i + 1]) == 0;
    }
  }

  /** The first parenthesis stays open up to the last character exactly when nothing closes it before. */
  lemma WrapsWholeIff(s: string)
    requires s != ""
    ensures WrapsWhole(s, 0, 0) <==> forall k :: 0 < k < |s| ==> !ClosesEarly(s, k)
  {
    assert s[..0] == "";
    WrapsFrom(s, 0);
  }

  function BracketLevel(s: string): int {
    Count(s, '[') - Count(s, ']')
  }

  /** Read from `from` to `k`, the text closes more brackets than it opens. */
  predicate Outside(s: string, from: nat, k: nat) {
    from <= k < |s| && BracketLevel(s[from..k + 1]) < 0
  }

  predicate Inside(s: string, from: nat, i: nat, j: nat) {
    forall k :: i <= k < j ==> !Outside(s, from, k)
  }

  lemma InsideNext(s: string, from: nat, i: nat, j: nat)
    ensures Inside(s, from, i, j) <==> i >= j || (!Outside(s, from, i) && Inside(s, from, i + 1, j))
  {
  }

  lemma BracketNext(s: string, from: nat, j: nat)
    requires from <= j < |s|
    ensures BracketLevel(s[from..j + 1]) ==
      BracketLevel(s[from..j]) + if s[j] == '[' then 1 else if s[j] == ']' then -1 else 0
  {
    assert s[from..j + 1] == s[from..j] + [s[j]];
  }

  lemma CloseStep(s: string, from: nat, j: nat)
    requires from <= j < |s| && BracketLevel(s[from..j]) >= 0
    ensures Outside(s, from, j) <==> BracketLevel(s[from..j + 1]) < 0
    ensures CloseBracket(s, j, BracketLevel(s[from..j]) + 1) ==
      if Outside(s, from, j) then Some(j) else CloseBracket(s, j + 1, BracketLevel(s[from..j + 1]) + 1)
  {
    BracketNext(s, from, j);
  }

  lemma {:induction false} ClosesFrom(s: string, from: nat, j: nat)
    requires from <= j <= |s| && BracketLevel(s[from..j]) >= 0
    ensures var r := CloseBracket(s, j, BracketLevel(s[from..j]) + 1);
      && (r.Some? ==> Outside(s, from, r.value) && Inside(s, from, j, r.value))
      && (r.None? ==> Inside(s, from, j, |s|))
    decreases |s| - j
  {
    if j < |s| {
      CloseStep(s, from, j);
      if !Outside(s, from, j) {
        ClosesFrom(s, from, j + 1);
        InsideNext(s, from, j, |s|);
        var r := CloseBracket(s, j + 1, BracketLevel(s[from..j + 1]) + 1);
        if r.Some? { InsideNext(s, from, j, r.value); }
      }
    }
  }

  /** The bracket found is the first that closes more than was opened since; there is none exactly when
      everything opened since is closed again. */
  lemma ClosesTheBracketIff(s: string, from: nat)
    requires from <= |s|
    ensures var r := CloseBracket(s, from, 1);
      && (r.Some? ==> Outside(s, from, r.value) && Inside(s, from, from, r.value))
      && (r.None? <==> Inside(s, from, from, |s|))
  {
    assert s[from..from] == "";
    ClosesFrom(s, from, from);
  }

  // ---------------------------------------------------------------- paths that lead nowhere

  /** A text no path goes on with: neither a name after a dot nor a bracket that is closed. */
  predicate Broken(s: string) {
    s != "" && !Letter(s[0]) && !Digit(s[0]) &&
    (s[0] == '.' ==> |s| == 1 || (!Letter(s[1]) && !Digit(s[1]))) &&
    (s[0] == '[' ==> Inside(s, 1, 1, |s|))
  }

  lemma NamelessStops(h: Host, vals: Value, expr: string, i: nat, cur: Value)
    requires i < |expr| && expr[i] == '.' && (|expr| == i + 1 || (!Letter(expr[i + 1]) && !Digit(expr[i + 1])))
    ensures Walk(h, vals, expr, i, cur) == Undefined
  {
    if |expr| > i + 1 { CharacterClasses(expr[i + 1]); }
    WalkDot(h, vals, expr, i, 0, cur);
  }

  lemma UnclosedStops(h: Host, vals: Value, expr: string, i: nat, cur: Value)
    requires i < |expr| && expr[i] == '[' && Inside(expr, i + 1, i + 1, |expr|)
    ensures Walk(h, vals, expr, i, cur) == Undefined
  {
    ClosesTheBracketIff(expr, i + 1);
    WalkBracket(h, vals, expr, i, cur);
  }

  lemma OutsideShifts(expr: string, i: nat, k: nat)
    requires i < k < |expr|
    ensures Outside(expr, i + 1, k) <==> Outside(expr[i..], 1, k - i)
  {
    assert expr[i + 1..k + 1] == expr[i..][1..k - i + 1];
  }

  lemma InsideShifts(expr: string, i: nat, from: nat)
    requires i < |expr| && from == i + 1 && Inside(expr[i..], 1, 1, |expr| - i)
    ensures Inside(expr, from, from, |expr|)
  {
    forall k | from <= k < |expr|
      ensures !Outside(expr, from, k)
    {
      OutsideShifts(expr, i, k);
      assert !Outside(expr[i..], 1, k - i);
    }
  }

  lemma BrokenStops(h: Host, vals: Value, expr: string, i: nat, cur: Value)
    requires i <= |expr| && Broken(expr[i..])
    ensures Walk(h, vals, expr, i, cur) == Undefined
  {
    var s := expr[i..];
    assert s[0] == expr[i];
    if s[0] == '.' {
      assert |s| > 1 ==> s[1] == expr[i + 1];
      NamelessStops(h, vals, expr, i, cur);
    } else if s[0] == '[' {
      InsideShifts(expr, i, i + 1);
      UnclosedStops(h, vals, expr, i, cur);
    } else {
      WalkStops(h, vals, expr, i, cur);
    }
  }

  /** A path with something broken behind it is undefined, whatever its beginning stands for. */
  lemma BrokenPathIsUndefined(h: Host, vals: Value, head: string, segs: Segments, more: string)
    requires Identifier(head) && SegmentsWellFormed(segs) && Broken(more)
    ensures ResolvePath(h, vals, head + PrintSegments(segs) + more) == Undefined
  {
    var expr, rest := head + PrintSegments(segs) + more, PrintSegments(segs) + more;
    CharacterClasses(more[0]);
    RestStops(segs, more);
    CatAssociates(head, PrintSegments(segs), more);
    IdentStops(head, rest);
    assert expr[|head|..] == rest && expr[..|head|] == head;
    var j := WalkReaches(h, vals, expr, |head|, segs, more, Get(h, vals, Str(head)));
    BrokenStops(h, vals, expr, j, EvalSegments(h, vals, Get(h, vals, Str(head)), segs));
  }

  /** And so is a text that does not begin with a letter. */
  lemma NoHeadIsUndefined(h: Host, vals: Value, expr: string)
    requires expr == "" || !Letter(expr[0])
    ensures ResolvePath(h, vals, expr) == Undefined
  {
    if expr != "" { CharacterClasses(expr[0]); }
  }

  lemma NothingElse(h: Host, vals: Value, expr: string)
    requires Trim(expr) == expr && expr != "" && IdentStart(expr[0]) && !IsWord(expr) && !IsNumber(expr)
    requires FindEquality(expr, 0, 0).None?
    ensures Resolve(h, vals, expr) == ResolvePath(h, vals, expr)
  {
  }

  /** A trimmed text that begins with a letter, shows no operator and is none of the four words is a path. */
  lemma OtherwiseAPath(h: Host, vals: Value, expr: string)
    requires expr != "" && Letter(expr[0]) && !BlankChar(expr[|expr| - 1])
    requires !IsWord(expr) && NoneBetween(expr, 0, |expr|)
    ensures Resolve(h, vals, expr) == ResolvePath(h, vals, expr)
  {
    CharacterClasses(expr[0]);
    CharacterClasses(expr[|expr| - 1]);
    TrimPadded("", expr, "");
    assert "" + expr + "" == expr;
    FindsTheTopOperatorIff(expr);
    NothingElse(h, vals, expr);
  }

  // ---------------------------------------------------------------- which texts are numbers

  lemma {:induction false} DigitsRead(s: string)
    ensures forall i :: 0 <= i < DigitLen(s) ==> Digit(s[i])
    ensures DigitLen(s) < |s| ==> !Digit(s[DigitLen(s)])
  {
    if s != "" {
      CharacterClasses(s[0]);
      if IsDigit(s[0]) {
        DigitsRead(s[1..]);
        assert forall i :: 1 <= i <= DigitLen(s) && i < |s| ==> s[i] == s[1..][i - 1];
      }
    }
  }

  lemma AllDigitsIsNumeral(s: string)
    requires AllDigits(s)
    ensures Numeral(s)
  {
    DigitsRead(s);
  }

  predicate IsNumberText(s: string, negative: bool, whole: string, fraction: string) {
    Numeral(whole) && (fraction == "" || Numeral(fraction)) && s == NumberText(negative, whole, fraction)
  }

  lemma CutAt(t: string, n: nat)
    requires n < |t|
    ensures t == t[..n] + ([t[n]] + t[n + 1..])
  {
  }

  lemma UnsignedRead(t: string) returns (whole: string, fraction: string)
    requires IsNumber(t) && t[0] != '-'
    ensures IsNumberText(t, false, whole, fraction)
  {
    var n := DigitLen(t);
    DigitsRead(t);
    whole := t[..n];
    if n == |t| {
      fraction := "";
    } else {
      fraction := t[n + 1..];
      AllDigitsIsNumeral(fraction);
      CutAt(t, n);
    }
  }

  lemma SignedText(whole: string, fraction: string)
    ensures NumberText(true, whole, fraction) == "-" + NumberText(false, whole, fraction)
  {
    CatAssociates("-", whole, if fraction == "" then "" else "." + fraction);
  }

  lemma NumberRead(s: string) returns (negative: bool, whole: string, fraction: string)
    requires IsNumber(s)
    ensures IsNumberText(s, negative, whole, fraction)
  {
    negative := s[0] == '-';
    if negative {
      whole, fraction := UnsignedRead(s[1..]);
      SignedText(whole, fraction);
      assert s == "-" + s[1..];
    } else {
      whole, fraction := UnsignedRead(s);
    }
  }

  /** The number literals are exactly the texts of a sign, digits and a fraction. */
  lemma NumbersAre(s: string)
    ensures IsNumber(s) <==> exists negative, whole, fraction :: IsNumberText(s, negative, whole, fraction)
  {
    if IsNumber(s) {
      var negative, whole, fraction := NumberRead(s);
    }
    if negative, whole, fraction :| IsNumberText(s, negative, whole, fraction) {
      NumberChars(negative, whole, fraction);
    }
  }
}
