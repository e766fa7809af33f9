/** Printing an expression tree and resolving the text is evaluating the tree. */
module ExpressionPrinting {
  import opened Alphabet
  import opened Expressions

  datatype Op = StrictEqual | StrictUnequal | LooseEqual | LooseUnequal

  /** A tree with the blanks `a` and `b` its text has around an operator or inside brackets. */
  datatype Expr =
    | Path(head: string, segs: Segments)
    | Word(word: string)
    | Number(negative: bool, whole: string, fraction: string)
    | Text(quote: char, body: string)
    | Not(a: string, e: Expr)
    | Equality(op: Op, l: Expr, a: string, b: string, r: Expr)
    | Group(a: string, e: Expr, b: string)

  datatype Segments = End | Dot(name: string, rest: Segments) | At(a: string, key: Expr, b: string, rest: Segments)

  // ---------------------------------------------------------------- which trees have a text

  // The characters, written out. The evaluator's own classes are not used here.
  const LETTERS := CAPITALS + SMALLS + "_$"
  const BLANKS :=
    " \t\n\U{000B}\U{000C}\r\U{00A0}\U{1680}" +
    "\U{2000}\U{2001}\U{2002}\U{2003}\U{2004}\U{2005}\U{2006}\U{2007}\U{2008}\U{2009}\U{200A}" +
    "\U{2028}\U{2029}\U{202F}\U{205F}\U{3000}\U{FEFF}"

  predicate OneOf(c: char, chars: string) {
    chars != "" && (c == chars[0] || OneOf(c, chars[1..]))
  }

  predicate Letter(c: char) {
    OneOf(c, LETTERS)
  }

  predicate Digit(c: char) {
    OneOf(c, DIGITS)
  }

  predicate BlankChar(c: char) {
    OneOf(c, BLANKS)
  }

  predicate Identifier(s: string) {
    s != "" && Letter(s[0]) && forall i :: 0 <= i < |s| ==> Letter(s[i]) || Digit(s[i])
  }

  predicate Numeral(s: string) {
    s != "" && forall i :: 0 <= i < |s| ==> Digit(s[i])
  }

  /** A name after a dot: an identifier, or the digits of an index. */
  predicate Name(s: string) {
    Identifier(s) || Numeral(s)
  }

  /** A sign, digits, and a fraction if it has digits. */
  function NumberText(negative: bool, whole: string, fraction: string): string {
    (if negative then "-" else "") + whole + if fraction == "" then "" else "." + fraction
  }

  predicate IsWord(s: string) {
    s == "true" || s == "false" || s == "null" || s == "undefined"
  }

  predicate Special(c: char) {
    c == '(' || c == ')' || c == '[' || c == ']' || c == '=' || c == '!'
  }

  predicate Plain(s: string) {
    forall i :: 0 <= i < |s| ==> !Special(s[i])
  }

  predicate Blank(s: string) {
    forall i :: 0 <= i < |s| ==> BlankChar(s[i])
  }

  /** Equality is right-associative and binds weakest; negation takes no bare equality. */
  predicate WellFormed(e: Expr) {
    match e
    case Path(head, segs) => Identifier(head) && (segs.End? ==> !IsWord(head)) && SegmentsWellFormed(segs)
    case Word(word) => IsWord(word)
    case Number(_, whole, fraction) => Numeral(whole) && (fraction == "" || Numeral(fraction))
    case Text(quote, body) => (quote == '"' || quote == '\'') && Unsplit([quote] + body + [quote])
    case Not(a, f) => Blank(a) && WellFormed(f) && !f.Equality?
    case Equality(_, l, a, b, r) => Blank(a) && Blank(b) && WellFormed(l) && WellFormed(r) && !l.Equality?
    case Group(a, f, b) => Blank(a) && Blank(b) && WellFormed(f)
  }

  predicate SegmentsWellFormed(segs: Segments) {
    match segs
    case End => true
    case Dot(name, rest) => Name(name) && SegmentsWellFormed(rest)
    case At(a, key, b, rest) => Blank(a) && Blank(b) && WellFormed(key) && SegmentsWellFormed(rest)
  }

  function OpText(op: Op): string {
    match op
    case StrictEqual => "==="
    case StrictUnequal => "!=="
    case LooseEqual => "=="
    case LooseUnequal => "!="
  }

  /** The text of a tree, with its own blanks wherever blanks may stand. */
  function Print(e: Expr): string
    decreases e
  {
    match e
    case Path(head, segs) => head + PrintSegments(segs)
    case Word(word) => word
    case Number(negative, whole, fraction) => NumberText(negative, whole, fraction)
    case Text(quote, body) => [quote] + body + [quote]
    case Not(a, f) => "!" + (a + Print(f))
    case Equality(op, l, a, b, r) => Print(l) + a + OpText(op) + (b + Print(r))
    case Group(a, f, b) => "(" + (a + Print(f) + b) + ")"
  }

  function PrintSegments(segs: Segments): string
    decreases segs
  {
    match segs
    case End => ""
    case Dot(name, rest) => "." + name + PrintSegments(rest)
    case At(a, key, b, rest) => "[" + (a + Print(key) + b) + "]" + PrintSegments(rest)
  }

  // ---------------------------------------------------------------- what a tree means

  /** Null and undefined have no properties: asking them for one gives undefined. */
  function Property(h: Host, cur: Value, key: Value): Value {
    match cur
    case Undefined => Undefined
    case Null => Undefined
    case _ => h.get(cur, key)
  }

  function Eval(h: Host, vals: Value, e: Expr): Value
    decreases e
  {
    match e
    case Path(head, segs) => EvalSegments(h, vals, Property(h, vals, Str(head)), segs)
    case Word(word) =>
      if word == "true" then Bool(true) else if word == "false" then Bool(false)
      else if word == "null" then Null else Undefined
    case Number(negative, whole, fraction) => h.number(NumberText(negative, whole, fraction))
    case Text(_, body) => Str(body)
    case Not(_, f) => Bool(!h.truthy(Eval(h, vals, f)))
    case Equality(op, l, _, _, r) =>
      var lv, rv := Eval(h, vals, l), Eval(h, vals, r);
      (match op
       case StrictEqual => Bool(h.strictEq(lv, rv))
       case StrictUnequal => Bool(!h.strictEq(lv, rv))
       case LooseEqual => Bool(h.looseEq(lv, rv))
       case LooseUnequal => Bool(!h.looseEq(lv, rv)))
    case Group(_, f, _) => Eval(h, vals, f)
  }

  function EvalSegments(h: Host, vals: Value, cur: Value, segs: Segments): Value
    decreases segs
  {
    match segs
    case End => cur
    case Dot(name, rest) => EvalSegments(h, vals, Property(h, cur, Str(name)), rest)
    case At(_, key, _, rest) => EvalSegments(h, vals, Property(h, cur, Eval(h, vals, key)), rest)
  }

  // ---------------------------------------------------------------- balanced text

  datatype Kind = Parens | Brackets | Both

  predicate Opens(k: Kind, c: char) {
    (c == '(' && k != Brackets) || (c == '[' && k != Parens)
  }

  predicate Closes(k: Kind, c: char) {
    (c == ')' && k != Brackets) || (c == ']' && k != Parens)
  }

  /** From `d` levels inside, the text never goes below level 0 and ends there. */
  predicate Closed(k: Kind, s: string, d: nat) {
    if s == [] then d == 0
    else if Opens(k, s[0]) then Closed(k, s[1..], d + 1)
    else if Closes(k, s[0]) then d > 0 && Closed(k, s[1..], d - 1)
    else Closed(k, s[1..], d)
  }

  /** Closed for both kinds, and at level 0 no `=` and no `!` before one. */
  predicate Quiet(s: string, d: nat) {
    if s == [] then d == 0
    else if Opens(Both, s[0]) then Quiet(s[1..], d + 1)
    else if Closes(Both, s[0]) then d > 0 && Quiet(s[1..], d - 1)
    else (d == 0 ==> s[0] != '=' && (s[0] == '!' ==> |s| > 1 && s[1] != '=')) && Quiet(s[1..], d)
  }

  /** Text that shows no operator at top level and closes whatever brackets it opens. */
  predicate Unsplit(s: string) {
    Quiet(s, 0) && Closed(Parens, s, 0) && Closed(Brackets, s, 0)
  }

  lemma {:induction false} QuietIsClosed(s: string, d: nat)
    requires Quiet(s, d)
    ensures Closed(Both, s, d)
  {
    if s != [] {
      QuietIsClosed(s[1..], if Opens(Both, s[0]) then d + 1 else if Closes(Both, s[0]) then d - 1 else d);
    }
  }

  lemma {:induction false} ClosedConcat(k: Kind, p: string, q: string, d: nat, e: nat)
    requires Closed(k, p, d) && Closed(k, q, e)
    ensures Closed(k, p + q, d + e)
    decreases |p|
  {
    if p == [] {
      assert p + q == q;
    } else {
      assert (p + q)[1..] == p[1..] + q;
      var d' := if Opens(k, p[0]) then d + 1 else if Closes(k, p[0]) then d - 1 else d;
      ClosedConcat(k, p[1..], q, d', e);
    }
  }

  /** Quiet text stays quiet inside more text; closed text needs no more than to be inside. */
  lemma {:induction false} QuietConcat(p: string, q: string, d: nat, e: nat)
    requires Quiet(p, d) || (Closed(Both, p, d) && e > 0)
    requires Quiet(q, e)
    ensures Quiet(p + q, d + e)
    decreases |p|
  {
    if p == [] {
      assert p + q == q;
    } else {
      assert (p + q)[1..] == p[1..] + q;
      var d' := if Opens(Both, p[0]) then d + 1 else if Closes(Both, p[0]) then d - 1 else d;
      QuietConcat(p[1..], q, d', e);
      assert |p| > 1 ==> (p + q)[1] == p[1];
    }
  }

  lemma {:induction false} PlainIsQuiet(s: string)
    requires Plain(s)
    ensures Quiet(s, 0) && forall k :: Closed(k, s, 0)
  {
    if s != [] {
      assert forall i :: 0 <= i < |s[1..]| ==> s[1..][i] == s[i + 1];
      PlainIsQuiet(s[1..]);
    }
  }

  lemma WrappedIsClosed(k: Kind, open: char, s: string, close: char)
    requires Closed(k, s, 0) && ((open == '(' && close == ')') || (open == '[' && close == ']'))
    ensures Closed(k, [open] + s + [close], 0)
  {
    var d := if Closes(k, close) then 1 else 0;
    assert [close][1..] == [];
    assert Closed(k, [close], d);
    ClosedConcat(k, s, [close], 0, d);
    assert ([open] + s + [close])[1..] == s + [close];
  }

  lemma WrappedIsQuiet(open: char, s: string, close: char)
    requires Closed(Both, s, 0) && ((open == '(' && close == ')') || (open == '[' && close == ']'))
    ensures Quiet([open] + s + [close], 0)
  {
    assert [close][1..] == [];
    assert Quiet([close], 1);
    QuietConcat(s, [close], 0, 1);
    assert ([open] + s + [close])[1..] == s + [close];
  }

  // ---------------------------------------------------------------- scanners pass over balanced text

  lemma {:induction false} FindPasses(expr: string, i: nat, j: nat, depth: nat, d: nat)
    requires i <= j <= |expr|
    requires Quiet(expr[i..j], d) || (Closed(Both, expr[i..j], d) && depth > 0)
    ensures FindEquality(expr, i, depth + d) == FindEquality(expr, j, depth)
    decreases j - i
  {
    if i < j {
      assert expr[i..j][1..] == expr[i + 1..j] && expr[i..j][0] == expr[i];
      var d' := if Opens(Both, expr[i]) then d + 1 else if Closes(Both, expr[i]) then d - 1 else d;
      FindPasses(expr, i + 1, j, depth, d');
      assert j - i > 1 ==> expr[i..j][1] == expr[i + 1];
    }
  }

  lemma {:induction false} WrapPasses(expr: string, i: nat, j: nat, depth: nat, d: nat)
    requires i <= j < |expr| && depth > 0 && Closed(Parens, expr[i..j], d)
    ensures WrapsWhole(expr, i, depth + d) == WrapsWhole(expr, j, depth)
    decreases j - i
  {
    if i < j {
      assert expr[i..j][1..] == expr[i + 1..j] && expr[i..j][0] == expr[i];
      var d' := if Opens(Parens, expr[i]) then d + 1 else if Closes(Parens, expr[i]) then d - 1 else d;
      WrapPasses(expr, i + 1, j, depth, d');
    }
  }

  lemma {:induction false} ClosePasses(expr: string, i: nat, j: nat, depth: nat, d: nat)
    requires i <= j <= |expr| && depth > 0 && Closed(Brackets, expr[i..j], d)
    ensures CloseBracket(expr, i, depth + d) == CloseBracket(expr, j, depth)
    decreases j - i
  {
    if i < j {
      assert expr[i..j][1..] == expr[i + 1..j] && expr[i..j][0] == expr[i];
      var d' := if Opens(Brackets, expr[i]) then d + 1 else if Closes(Brackets, expr[i]) then d - 1 else d;
      ClosePasses(expr, i + 1, j, depth, d');
    }
  }
}
