/** The template expression evaluator of the design runtime: a recursive interpreter that works on
    the text itself, with its own precedence, bracket matching and path walking. What JavaScript
    does with two values is a parameter; how the text is taken apart is the model. */
module Expressions {
  import opened Wrappers

  datatype Value = Undefined | Null | Bool(b: bool) | Str(s: string) | Other(id: nat)

  /** The JavaScript operations the evaluator applies to values. */
  datatype Host = Host(
    get: (Value, Value) -> Value,
    looseEq: (Value, Value) -> bool,
    strictEq: (Value, Value) -> bool,
    truthy: Value -> bool,
    number: string -> Value)

  // ---------------------------------------------------------------- characters

  /** What `String.prototype.trim` removes. */
  predicate IsSpace(c: char) {
    c == ' ' || '\t' <= c <= '\r' || c == '\U{00A0}' || c == '\U{1680}' || '\U{2000}' <= c <= '\U{200A}' ||
    c == '\U{2028}' || c == '\U{2029}' || c == '\U{202F}' || c == '\U{205F}' || c == '\U{3000}' || c == '\U{FEFF}'
  }

  predicate IsDigit(c: char) {
    '0' <= c <= '9'
  }

  predicate IdentStart(c: char) {
    'A' <= c <= 'Z' || 'a' <= c <= 'z' || c == '_' || c == '$'
  }

  predicate IdentPart(c: char) {
    IdentStart(c) || IsDigit(c)
  }

  function TrimStart(s: string): (r: string)
    ensures |r| <= |s|
  {
    if s != [] && IsSpace(s[0]) then TrimStart(s[1..]) else s
  }

  function TrimEnd(s: string): (r: string)
    ensures |r| <= |s|
  {
    if s != [] && IsSpace(s[|s| - 1]) then TrimEnd(s[..|s| - 1]) else s
  }

  function Trim(s: string): (r: string)
    ensures |r| <= |s|
  {
    TrimEnd(TrimStart(s))
  }

  function PartLen(s: string): (n: nat)
    ensures n <= |s|
  {
    if s != [] && IdentPart(s[0]) then 1 + PartLen(s[1..]) else 0
  }

  /** The length of the identifier the text starts with. */
  function IdentLen(s: string): (n: nat)
    ensures n <= |s|
  {
    if s != [] && IdentStart(s[0]) then 1 + PartLen(s[1..]) else 0
  }

  function DigitLen(s: string): (n: nat)
    ensures n <= |s|
  {
    if s != [] && IsDigit(s[0]) then 1 + DigitLen(s[1..]) else 0
  }

  predicate AllDigits(s: string) {
    s != [] && DigitLen(s) == |s|
  }

  predicate IsNumber(s: string) {
    var t := if s != [] && s[0] == '-' then s[1..] else s;
    var n := DigitLen(t);
    n > 0 && (n == |t| || (t[n] == '.' && AllDigits(t[n + 1..])))
  }

  // ---------------------------------------------------------------- the three scanners

  /** Does the opening parenthesis stay open up to the last character? */
  function WrapsWhole(expr: string, i: nat, depth: int): bool
    decreases |expr| - i
  {
    if i + 1 >= |expr| then true
    else if expr[i] == '(' then WrapsWhole(expr, i + 1, depth + 1)
    else if expr[i] == ')' then depth != 1 && WrapsWhole(expr, i + 1, depth - 1)
    else WrapsWhole(expr, i + 1, depth)
  }

  predicate EqualityAt(expr: string, i: nat) {
    i + 1 < |expr| && (expr[i] == '=' || expr[i] == '!') && expr[i + 1] == '=' &&
    !(i > 0 && (expr[i - 1] == '=' || expr[i - 1] == '!')) && Trim(expr[..i]) != ""
  }

  function OperatorAt(expr: string, i: nat): (op: string)
    requires i < |expr|
  {
    if i + 2 < |expr| && expr[i + 2] == '=' then [expr[i], '=', '='] else [expr[i], '=']
  }

  /** The first equality operator outside all brackets and parentheses. */
  function FindEquality(expr: string, i: nat, depth: int): (r: Option<(nat, string)>)
    ensures r.Some? ==> 0 < r.value.0 && 2 <= |r.value.1| && r.value.0 + |r.value.1| <= |expr|
    decreases |expr| - i
  {
    if i >= |expr| then None
    else if expr[i] == '[' || expr[i] == '(' then FindEquality(expr, i + 1, depth + 1)
    else if expr[i] == ']' || expr[i] == ')' then FindEquality(expr, i + 1, depth - 1)
    else if depth == 0 && EqualityAt(expr, i) then Some((i, OperatorAt(expr, i)))
    else FindEquality(expr, i + 1, depth)
  }

  /** The bracket that closes the one left open `depth` levels out. */
  function CloseBracket(expr: string, j: nat, depth: nat): (r: Option<nat>)
    requires depth >= 1
    ensures r.Some? ==> j <= r.value < |expr|
    decreases |expr| - j
  {
    if j >= |expr| then None
    else if expr[j] == '[' then CloseBracket(expr, j + 1, depth + 1)
    else if expr[j] == ']' then (if depth == 1 then Some(j) else CloseBracket(expr, j + 1, depth - 1))
    else CloseBracket(expr, j + 1, depth)
  }

  // ---------------------------------------------------------------- the evaluator

  function Get(h: Host, cur: Value, key: Value): Value {
    if cur == Null || cur == Undefined then Undefined else h.get(cur, key)
  }

  function Compare(h: Host, op: string, l: Value, r: Value): Value {
    if op == "===" then Bool(h.strictEq(l, r))
    else if op == "!==" then Bool(!h.strictEq(l, r))
    else if op == "==" then Bool(h.looseEq(l, r))
    else Bool(!h.looseEq(l, r))
  }

  /** The word after a dot: an identifier, or else digits. */
  function NameLen(s: string): (n: nat)
    ensures n <= |s|
  {
    if IdentLen(s) > 0 then IdentLen(s) else DigitLen(s)
  }

  function Resolve(h: Host, vals: Value, src: string): Value
    decreases |src|, 1, 0
  {
    var expr := Trim(src);
    if expr == "" then Undefined
    else if expr[0] == '(' && expr[|expr| - 1] == ')' && WrapsWhole(expr, 0, 0) then
      Resolve(h, vals, expr[1..|expr| - 1])
    else
      match FindEquality(expr, 0, 0)
      case Some((index, op)) =>
        Compare(h, op, Resolve(h, vals, expr[..index]), Resolve(h, vals, expr[index + |op|..]))
      case None =>
        if expr[0] == '!' then Bool(!h.truthy(Resolve(h, vals, expr[1..])))
        else if expr == "true" then Bool(true)
        else if expr == "false" then Bool(false)
        else if expr == "null" then Null
        else if expr == "undefined" then Undefined
        else if IsNumber(expr) then h.number(expr)
        else if |expr| >= 2 && (expr[0] == '"' || expr[0] == '\'') && expr[|expr| - 1] == expr[0] then
          Str(expr[1..|expr| - 1])
        else ResolvePath(h, vals, expr)
  }

  function ResolvePath(h: Host, vals: Value, expr: string): Value
    decreases |expr|, 0, |expr| + 1
  {
    var n := IdentLen(expr);
    if n == 0 then Undefined else Walk(h, vals, expr, n, Get(h, vals, Str(expr[..n])))
  }

  /** Follows dots and brackets from position `i` on. */
  function Walk(h: Host, vals: Value, expr: string, i: nat, cur: Value): Value
    requires i <= |expr|
    decreases |expr|, 0, |expr| - i
  {
    if i == |expr| then cur
    else if expr[i] == '.' then
      var n := NameLen(expr[i + 1..]);
      if n == 0 then Undefined
      else Walk(h, vals, expr, i + 1 + n, Get(h, cur, Str(expr[i + 1..i + 1 + n])))
    else if expr[i] == '[' then
      match CloseBracket(expr, i + 1, 1)
      case None => Undefined
      case Some(j) => Walk(h, vals, expr, j + 1, Get(h, cur, Resolve(h, vals, expr[i + 1..j])))
    else Undefined
  }

  lemma WalkDot(h: Host, vals: Value, expr: string, i: nat, n: nat, cur: Value)
    requires i < |expr| && expr[i] == '.' && NameLen(expr[i + 1..]) == n
    ensures i + 1 + n <= |expr|
    ensures Walk(h, vals, expr, i, cur) ==
      if n == 0 then Undefined else Walk(h, vals, expr, i + 1 + n, Get(h, cur, Str(expr[i + 1..i + 1 + n])))
  {
  }

  lemma WalkBracket(h: Host, vals: Value, expr: string, i: nat, cur: Value)
    requires i < |expr| && expr[i] == '['
    ensures var close := CloseBracket(expr, i + 1, 1);
      Walk(h, vals, expr, i, cur) ==
        if close.None? then Undefined
        else Walk(h, vals, expr, close.value + 1, Get(h, cur, Resolve(h, vals, expr[i + 1..close.value])))
  {
  }

  lemma WalkDotTo(h: Host, vals: Value, expr: string, i: nat, j: nat, name: string, cur: Value)
    requires i < j <= |expr| && expr[i] == '.' && name != "" && j == i + 1 + |name|
    requires NameLen(expr[i + 1..]) == |name| && expr[i + 1..j] == name
    ensures Walk(h, vals, expr, i, cur) == Walk(h, vals, expr, j, Get(h, cur, Str(name)))
  {
    WalkDot(h, vals, expr, i, |name|, cur);
  }

  lemma WalkBracketTo(h: Host, vals: Value, expr: string, i: nat, c: nat, t: string, more: string, cur: Value,
                      key: Value)
    returns (j: nat)
    requires i < c < |expr| && expr[i] == '[' && CloseBracket(expr, i + 1, 1) == Some(c)
    requires expr[i + 1..c] == t && expr[c + 1..] == more && Resolve(h, vals, t) == key
    ensures j <= |expr| && expr[j..] == more
    ensures Walk(h, vals, expr, i, cur) == Walk(h, vals, expr, j, Get(h, cur, key))
  {
    j := c + 1;
    WalkBracket(h, vals, expr, i, cur);
  }

  lemma WalkStops(h: Host, vals: Value, expr: string, i: nat, cur: Value)
    requires i < |expr| && expr[i] != '.' && expr[i] != '['
    ensures Walk(h, vals, expr, i, cur) == Undefined
  {
  }

  // ---------------------------------------------------------------- the loops of the source

  method ParensWrapWhole(expr: string) returns (whole: bool)
    ensures whole == WrapsWhole(expr, 0, 0)
  {
    var depth := 0;
    var i := 0;
    while i < |expr| - 1
      invariant 0 <= i && (i <= |expr| - 1 || i == 0)
      invariant WrapsWhole(expr, 0, 0) == WrapsWhole(expr, i, depth)
    {
      if expr[i] == '(' {
        depth := depth + 1;
      } else if expr[i] == ')' {
        depth := depth - 1;
        if depth == 0 {
          return false;
        }
      }
      i := i + 1;
    }
    whole := true;
  }

  method FindTopLevelEquality(expr: string) returns (r: Option<(nat, string)>)
    ensures r == FindEquality(expr, 0, 0)
  {
    var depth := 0;
    var i := 0;
    while i < |expr|
      invariant 0 <= i <= |expr|
      invariant FindEquality(expr, 0, 0) == FindEquality(expr, i, depth)
    {
      var c := expr[i];
      if c == '[' || c == '(' {
        depth := depth + 1;
      } else if c == ']' || c == ')' {
        depth := depth - 1;
      } else if depth == 0 && (c == '=' || c == '!') && i + 1 < |expr| && expr[i + 1] == '=' {
        if i > 0 && (expr[i - 1] == '=' || expr[i - 1] == '!') {
          i := i + 1;
          continue;
        }
        if Trim(expr[..i]) == "" {
          i := i + 1;
          continue;
        }
        var op := if i + 2 < |expr| && expr[i + 2] == '=' then [c, '=', '='] else [c, '='];
        return Some((i, op));
      }
      i := i + 1;
    }
    r := None;
  }

  /** The inner scan of a bracketed segment. */
  method MatchBracket(expr: string, start: nat) returns (close: Option<nat>)
    requires start <= |expr|
    ensures close == CloseBracket(expr, start, 1)
  {
    var depth := 1;
    var j := start;
    while j < |expr| && depth > 0
      invariant start <= j <= |expr| && depth >= 1
      invariant CloseBracket(expr, start, 1) == CloseBracket(expr, j, depth)
    {
      if expr[j] == '[' {
        depth := depth + 1;
      } else if expr[j] == ']' {
        depth := depth - 1;
        if depth == 0 {
          return Some(j);
        }
      }
      j := j + 1;
    }
    close := None;
  }

  /** The segment after a dot: the position behind it and the value there. */
  method FollowDot(h: Host, ghost vals: Value, expr: string, i: nat, cur: Value) returns (r: Option<(nat, Value)>)
    requires i < |expr| && expr[i] == '.'
    ensures r.None? ==> Walk(h, vals, expr, i, cur) == Undefined
    ensures r.Some? ==>
      i < r.value.0 <= |expr| && Walk(h, vals, expr, i, cur) == Walk(h, vals, expr, r.value.0, r.value.1)
  {
    var m := NameLen(expr[i + 1..]);
    WalkDot(h, vals, expr, i, m, cur);
    if m == 0 {
      return None;
    }
    r := Some((i + 1 + m, Get(h, cur, Str(expr[i + 1..i + 1 + m]))));
  }

  method FollowBracket(h: Host, vals: Value, expr: string, i: nat, cur: Value) returns (r: Option<(nat, Value)>)
    requires i < |expr| && expr[i] == '['
    ensures r.None? ==> Walk(h, vals, expr, i, cur) == Undefined
    ensures r.Some? ==>
      i < r.value.0 <= |expr| && Walk(h, vals, expr, i, cur) == Walk(h, vals, expr, r.value.0, r.value.1)
  {
    WalkBracket(h, vals, expr, i, cur);
    var close := MatchBracket(expr, i + 1);
    if close.None? {
      return None;
    }
    var key := Resolve(h, vals, expr[i + 1..close.value]);
    r := Some((close.value + 1, Get(h, cur, key)));
  }

  method ResolvePathLoop(h: Host, vals: Value, expr: string) returns (v: Value)
    ensures v == ResolvePath(h, vals, expr)
  {
    var head := IdentLen(expr);
    if head == 0 {
      return Undefined;
    }
    var cur := Get(h, vals, Str(expr[..head]));
    var i := head;
    ghost var goal := ResolvePath(h, vals, expr);
    while i < |expr|
      invariant 0 <= i <= |expr|
      invariant goal == Walk(h, vals, expr, i, cur)
    {
      var next: Option<(nat, Value)>;
      if expr[i] == '.' {
        next := FollowDot(h, vals, expr, i, cur);
      } else if expr[i] == '[' {
        next := FollowBracket(h, vals, expr, i, cur);
      } else {
        WalkStops(h, vals, expr, i, cur);
        next := None;
      }
      if next.None? {
        return Undefined;
      }
      i, cur := next.value.0, next.value.1;
    }
    v := cur;
  }
}
