/** Splitting, joining and stripping strings as Python does, and how they undo each other. */
module Text {
  /** The characters `str.strip` removes when called without an argument. */
  predicate IsSpace(c: char) {
    '\t' <= c <= '\r' || '\U{1c}' <= c <= ' ' || c == '\U{85}' || c == '\U{a0}' || c == '\U{1680}' ||
    '\U{2000}' <= c <= '\U{200a}' || c == '\U{2028}' || c == '\U{2029}' || c == '\U{202f}' || c == '\U{205f}' ||
    c == '\U{3000}'
  }

  const SPACES :=
    "\t\n\U{b}\U{c}\r\U{1c}\U{1d}\U{1e}\U{1f} \U{85}\U{a0}\U{1680}" +
    "\U{2000}\U{2001}\U{2002}\U{2003}\U{2004}\U{2005}\U{2006}\U{2007}\U{2008}\U{2009}\U{200a}" +
    "\U{2028}\U{2029}\U{202f}\U{205f}\U{3000}"

  /** Written out, these are the space characters. */
  lemma SpacesAre(c: char)
    ensures IsSpace(c) <==> c in SPACES
  {
  }

  function StripLeft(s: string, drop: char -> bool): (r: string)
    ensures |r| <= |s| && (r == "" || !drop(r[0]))
  {
    if s != "" && drop(s[0]) then StripLeft(s[1..], drop) else s
  }

  function StripRight(s: string, drop: char -> bool): (r: string)
    ensures |r| <= |s| && (r == "" || !drop(r[|r| - 1]))
  {
    if s != "" && drop(s[|s| - 1]) then StripRight(s[..|s| - 1], drop) else s
  }

  lemma {:induction false} StripRightTakes(s: string, drop: char -> bool)
    ensures StripRight(s, drop) == s[..|StripRight(s, drop)|]
  {
    if s != "" && drop(s[|s| - 1]) { StripRightTakes(s[..|s| - 1], drop); }
  }

  lemma {:induction false} StripLeftDrops(s: string, drop: char -> bool)
    ensures StripLeft(s, drop) == s[|s| - |StripLeft(s, drop)|..]
  {
    if s != "" && drop(s[0]) { StripLeftDrops(s[1..], drop); }
  }

  function Strip(s: string): (r: string)
    ensures Trimmed(r) && (Trimmed(s) ==> r == s)
  {
    StripRightTakes(StripLeft(s, IsSpace), IsSpace);
    StripRight(StripLeft(s, IsSpace), IsSpace)
  }

  predicate Trimmed(s: string) {
    s == "" || (!IsSpace(s[0]) && !IsSpace(s[|s| - 1]))
  }

  function Split(s: string, sep: char): (r: seq<string>)
    ensures r != []
  {
    if s == "" then [""]
    else
      var rest := Split(s[1..], sep);
      if s[0] == sep then [""] + rest else [[s[0]] + rest[0]] + rest[1..]
  }

  function Join(sep: string, parts: seq<string>): string {
    if parts == [] then ""
    else if |parts| == 1 then parts[0]
    else parts[0] + sep + Join(sep, parts[1..])
  }

  function Map<A, B>(f: A -> B, xs: seq<A>): (ys: seq<B>)
    ensures |ys| == |xs| && forall i :: 0 <= i < |xs| ==> ys[i] == f(xs[i])
  {
    seq(|xs|, i requires 0 <= i < |xs| => f(xs[i]))
  }

  function FlatMap<A, B>(f: A -> seq<B>, xs: seq<A>): seq<B> {
    if xs == [] then [] else FlatMap(f, xs[..|xs| - 1]) + f(xs[|xs| - 1])
  }

  /** A dictionary filled in order, a later entry replacing an earlier one. */
  function Merge<A, K, V>(key: A -> K, value: A -> V, xs: seq<A>): map<K, V> {
    if xs == [] then map[]
    else Merge(key, value, xs[..|xs| - 1])[key(xs[|xs| - 1]) := value(xs[|xs| - 1])]
  }

  function NonEmpty(parts: seq<string>): seq<string> {
    if parts == [] then []
    else NonEmpty(parts[..|parts| - 1]) + if parts[|parts| - 1] == "" then [] else [parts[|parts| - 1]]
  }

  // ---------------------------------------------------------------- how they compose

  lemma CatNothing<T>(a: seq<T>)
    ensures [] + a == a
  {
  }

  lemma CatAssociates<T>(a: seq<T>, b: seq<T>, c: seq<T>)
    ensures (a + b) + c == a + (b + c)
  {
  }

  lemma {:induction false} FlatMapCat<A, B>(f: A -> seq<B>, xs: seq<A>, ys: seq<A>)
    ensures FlatMap(f, xs + ys) == FlatMap(f, xs) + FlatMap(f, ys)
  {
    if ys == [] {
      assert xs + ys == xs;
    } else {
      var n := |ys| - 1;
      assert (xs + ys)[..|xs + ys| - 1] == xs + ys[..n];
      FlatMapCat(f, xs, ys[..n]);
    }
  }

  lemma FlatMapOne<A, B>(f: A -> seq<B>, x: A)
    ensures FlatMap(f, [x]) == f(x)
  {
    assert FlatMap(f, [x][..0]) == [];
  }

  lemma {:induction false} NonEmptyCat(xs: seq<string>, ys: seq<string>)
    ensures NonEmpty(xs + ys) == NonEmpty(xs) + NonEmpty(ys)
  {
    if ys == [] {
      assert xs + ys == xs;
    } else {
      var n := |ys| - 1;
      assert (xs + ys)[..|xs + ys| - 1] == xs + ys[..n];
      NonEmptyCat(xs, ys[..n]);
    }
  }

  lemma TakeOneMore<T>(a: seq<T>, s: seq<T>, k: nat)
    requires k < |s|
    ensures a + s[..k + 1] == a + s[..k] + [s[k]]
  {
  }

  lemma TakeEnds<T>(a: seq<T>, s: seq<T>)
    ensures a + s[..0] == a && a + s[..|s|] == a + s
  {
  }

  lemma MapCat<A, B>(f: A -> B, xs: seq<A>, ys: seq<A>)
    ensures Map(f, xs + ys) == Map(f, xs) + Map(f, ys)
  {
  }

  lemma MapSame<A>(f: A -> A, xs: seq<A>)
    requires forall x :: x in xs ==> f(x) == x
    ensures Map(f, xs) == xs
  {
  }

  lemma MapSnoc<A, B>(f: A -> B, xs: seq<A>, x: A)
    ensures Map(f, xs + [x]) == Map(f, xs) + [f(x)]
  {
  }

  lemma FlatMapSnoc<A, B>(f: A -> seq<B>, xs: seq<A>, x: A)
    ensures FlatMap(f, xs + [x]) == FlatMap(f, xs) + f(x)
  {
    FlatMapCat(f, xs, [x]);
    FlatMapOne(f, x);
  }

  lemma NonEmptySnoc(xs: seq<string>, x: string)
    ensures NonEmpty(xs + [x]) == if x == "" then NonEmpty(xs) else NonEmpty(xs) + [x]
  {
    assert (xs + [x])[..|xs|] == xs;
  }

  lemma SnocParts<T>(xs: seq<T>, x: T)
    ensures (xs + [x])[..|xs + [x]| - 1] == xs && (xs + [x])[|xs + [x]| - 1] == x
  {
  }

  lemma MergeSnoc<A, K, V>(key: A -> K, value: A -> V, xs: seq<A>, x: A)
    ensures Merge(key, value, xs + [x]) == Merge(key, value, xs)[key(x) := value(x)]
  {
    SnocParts(xs, x);
  }

  lemma {:induction false} MergeCat<A, K, V>(key: A -> K, value: A -> V, xs: seq<A>, ys: seq<A>)
    ensures Merge(key, value, xs + ys) == Merge(key, value, xs) + Merge(key, value, ys)
  {
    if ys == [] {
      assert xs + ys == xs;
    } else {
      var n := |ys| - 1;
      MergeCat(key, value, xs, ys[..n]);
      TakeSnoc(ys);
      CatAssociates(xs, ys[..n], [ys[n]]);
      MergeSnoc(key, value, xs + ys[..n], ys[n]);
    }
  }

  lemma TakeSnoc<T>(xs: seq<T>)
    requires xs != []
    ensures xs == xs[..|xs| - 1] + [xs[|xs| - 1]]
  {
  }

  lemma {:induction false} SplitCat(a: string, b: string, sep: char)
    ensures Split(a + [sep] + b, sep) == Split(a, sep) + Split(b, sep)
  {
    if a == "" {
      assert a + [sep] + b == [sep] + b;
      assert ([sep] + b)[1..] == b;
    } else {
      assert (a + [sep] + b)[1..] == a[1..] + [sep] + b;
      SplitCat(a[1..], b, sep);
    }
  }

  lemma {:induction false} SplitNone(s: string, sep: char)
    requires sep !in s
    ensures Split(s, sep) == [s]
  {
    if s != "" {
      assert sep !in s[1..];
      SplitNone(s[1..], sep);
      assert [s[0]] + s[1..] == s;
    }
  }

  /** The parts of a split hold no separator, and joining them gives the string back. */
  lemma {:induction false} JoinSplit(s: string, sep: char)
    ensures Join([sep], Split(s, sep)) == s
    ensures forall i :: 0 <= i < |Split(s, sep)| ==> sep !in Split(s, sep)[i]
  {
    if s != "" {
      JoinSplit(s[1..], sep);
      var rest := Split(s[1..], sep);
      if s[0] == sep {
        assert Split(s, sep)[1..] == rest;
        assert [s[0]] + s[1..] == s;
      } else {
        var head := [s[0]] + rest[0];
        assert Split(s, sep) == [head] + rest[1..];
        assert Split(s, sep)[1..] == rest[1..];
        assert Join([sep], Split(s, sep)) == [s[0]] + Join([sep], rest);
        assert [s[0]] + s[1..] == s;
      }
    }
  }

  /** Splitting a join of strings splits each of them. */
  lemma {:induction false} SplitJoin(parts: seq<string>, sep: char)
    requires parts != []
    ensures Split(Join([sep], parts), sep) == FlatMap(s => Split(s, sep), parts)
  {
    var f := s => Split(s, sep);
    FlatMapOne(f, parts[0]);
    if |parts| == 1 {
      assert parts == [parts[0]];
    } else {
      SplitCat(parts[0], Join([sep], parts[1..]), sep);
      SplitJoin(parts[1..], sep);
      assert parts == [parts[0]] + parts[1..];
      FlatMapCat(f, [parts[0]], parts[1..]);
    }
  }

  lemma {:induction false} FlatMapSingles(f: string -> seq<string>, xs: seq<string>)
    requires forall x :: x in xs ==> f(x) == [x]
    ensures FlatMap(f, xs) == xs
  {
    if xs != [] {
      FlatMapSingles(f, xs[..|xs| - 1]);
    }
  }

  /** The parts of a join are recovered when none of them holds the separator. */
  lemma SplitUndoesJoin(parts: seq<string>, sep: char)
    requires parts != [] && forall x :: x in parts ==> sep !in x
    ensures Split(Join([sep], parts), sep) == parts
  {
    SplitJoin(parts, sep);
    forall x | x in parts
      ensures (s => Split(s, sep))(x) == [x]
    {
      SplitNone(x, sep);
    }
    FlatMapSingles(s => Split(s, sep), parts);
  }

  lemma StripKeepsAbsent(s: string, c: char)
    requires c !in s
    ensures c !in Strip(s)
  {
    StripLeftDrops(s, IsSpace);
    StripRightTakes(StripLeft(s, IsSpace), IsSpace);
  }

  lemma {:induction false} JoinEnds(sep: string, parts: seq<string>)
    requires parts != [] && parts[0] != "" && parts[|parts| - 1] != ""
    ensures var s := Join(sep, parts); var last := parts[|parts| - 1];
      s != "" && s[0] == parts[0][0] && s[|s| - 1] == last[|last| - 1]
    decreases |parts|
  {
    if |parts| > 1 {
      JoinTail(sep, parts);
    }
  }

  lemma {:induction false} JoinTail(sep: string, parts: seq<string>)
    requires |parts| > 1 && parts[|parts| - 1] != ""
    ensures var s := Join(sep, parts); var last := parts[|parts| - 1]; s != "" && s[|s| - 1] == last[|last| - 1]
  {
    if |parts| > 2 {
      JoinTail(sep, parts[1..]);
    }
  }

  lemma StripNotEmpty(s: string, k: nat)
    requires k < |s| && !IsSpace(s[k])
    ensures Strip(s) != ""
  {
    assert s[k] in StripLeft(s, IsSpace) by { LeftKeeps(s, k); }
    var t := StripLeft(s, IsSpace);
    assert t != "" && s[k] in t;
    assert !IsSpace(t[0]);
    RightKeeps(t, 0);
  }

  lemma {:induction false} LeftKeeps(s: string, k: nat)
    requires k < |s| && !IsSpace(s[k])
    ensures s[k] in StripLeft(s, IsSpace)
  {
    if IsSpace(s[0]) { LeftKeeps(s[1..], k - 1); }
  }

  lemma {:induction false} RightKeeps(s: string, k: nat)
    requires k < |s| && !IsSpace(s[k])
    ensures StripRight(s, IsSpace) != ""
  {
    if IsSpace(s[|s| - 1]) { RightKeeps(s[..|s| - 1], k); }
  }
}
