/** Camel-case attribute names survive the trip through an HTML parser that lowers their case. */
module AttributeNames {
  import opened Alphabet

  predicate IsUpper(c: char) {
    'A' <= c <= 'Z'
  }

  predicate IsLower(c: char) {
    'a' <= c <= 'z'
  }

  function ToLower(c: char): char
    requires IsUpper(c)
  {
    (c as int + 32) as char
  }

  function ToUpper(c: char): char
    requires IsLower(c)
  {
    (c as int - 32) as char
  }

  /** The name part of `encodeCase`: every capital becomes a dash and the small letter. */
  function EncodeName(s: string): string {
    if s == [] then []
    else (if IsUpper(s[0]) then ['-', ToLower(s[0])] else [s[0]]) + EncodeName(s[1..])
  }

  function KebabToCamel(t: string): string {
    if t == [] then []
    else if |t| >= 2 && t[0] == '-' && IsLower(t[1]) then [ToUpper(t[1])] + KebabToCamel(t[2..])
    else [t[0]] + KebabToCamel(t[1..])
  }

  predicate DashedLetter(s: string) {
    exists i :: 0 <= i < |s| - 1 && s[i] == '-' && IsLower(s[i + 1])
  }

  /** Decoding undoes encoding exactly for the names without a dash before a small letter. */
  lemma {:induction false} DecodeUndoesEncodeIff(s: string)
    ensures KebabToCamel(EncodeName(s)) == s <==> !DashedLetter(s)
  {
    if s != [] {
      var rest := s[1..];
      DecodeUndoesEncodeIff(rest);
      assert s == [s[0]] + rest;
      if IsUpper(s[0]) {
        assert EncodeName(s)[2..] == EncodeName(rest);
        assert DashedLetter(s) <==> DashedLetter(rest) by { ShiftDash(s); }
      } else if s[0] == '-' && rest != [] && IsLower(rest[0]) {
        assert EncodeName(s)[1] == rest[0];
        assert DashedLetter(s);
        assert KebabToCamel(EncodeName(s))[0] != s[0];
      } else {
        assert EncodeName(s)[1..] == EncodeName(rest);
        assert rest != [] ==> EncodeName(s)[1] == EncodeName(rest)[0] == if IsUpper(rest[0]) then '-' else rest[0];
        assert DashedLetter(s) <==> DashedLetter(rest) by { ShiftDash(s); }
      }
    }
  }

  lemma ShiftDash(s: string)
    requires s != [] && !(|s| > 1 && s[0] == '-' && IsLower(s[1]))
    ensures DashedLetter(s) <==> DashedLetter(s[1..])
  {
    if i :| 0 <= i < |s| - 1 && s[i] == '-' && IsLower(s[i + 1]) {
      assert s[1..][i - 1] == '-' && IsLower(s[1..][i - 1 + 1]);
    }
    if i :| 0 <= i < |s[1..]| - 1 && s[1..][i] == '-' && IsLower(s[1..][i + 1]) {
      assert s[i + 1] == '-' && IsLower(s[i + 1 + 1]);
    }
  }

  /** The encoded name has no capital left for the parser to lower. */
  lemma {:induction false} EncodedHasNoCapital(s: string)
    ensures forall i :: 0 <= i < |EncodeName(s)| ==> !IsUpper(EncodeName(s)[i])
  {
    if s != [] {
      EncodedHasNoCapital(s[1..]);
    }
  }

  predicate IsLetterOrDigit(c: char) {
    IsUpper(c) || IsLower(c) || '0' <= c <= '9'
  }

  /** The attribute names `encodeCase` matches: small letters, a capital, then letters and digits. */
  predicate IsCamelName(s: string) {
    (forall i :: 0 <= i < |s| ==> IsLetterOrDigit(s[i])) &&
    exists i :: 0 < i < |s| && IsUpper(s[i]) && forall j :: 0 <= j < i ==> IsLower(s[j])
  }

  /** So every name the encoder touches comes back. */
  lemma CamelNamesSurvive(s: string)
    requires IsCamelName(s)
    ensures KebabToCamel(EncodeName(s)) == s && EncodeName(s) != s
  {
    DecodeUndoesEncodeIff(s);
    EncodedHasNoCapital(s);
  }

  // ---------------------------------------------------------------- letter by letter

  lemma {:induction false} EncodeCat(a: string, b: string)
    ensures EncodeName(a + b) == EncodeName(a) + EncodeName(b)
  {
    if a == "" {
      assert a + b == b;
    } else {
      assert (a + b)[1..] == a[1..] + b;
      EncodeCat(a[1..], b);
    }
  }

  lemma EncodeOne(c: char)
    ensures EncodeName([c]) == if IsUpper(c) then ['-', ToLower(c)] else [c]
  {
    assert [c][1..] == "";
  }

  /** Wherever it stands, a capital becomes a dash and its small letter, and nothing else changes. */
  lemma EncodesEachLetter(a: string, c: char, b: string)
    ensures c !in CAPITALS ==> EncodeName(a + [c] + b) == EncodeName(a) + [c] + EncodeName(b)
    ensures forall k :: 0 <= k < |CAPITALS| && c == CAPITALS[k] ==>
      EncodeName(a + [c] + b) == EncodeName(a) + ['-', SMALLS[k]] + EncodeName(b)
  {
    CapitalsAre(c);
    EncodeCat(a + [c], b);
    EncodeCat(a, [c]);
    EncodeOne(c);
    forall k | 0 <= k < |CAPITALS| && c == CAPITALS[k]
      ensures EncodeName(a + [c] + b) == EncodeName(a) + ['-', SMALLS[k]] + EncodeName(b)
    {
      LetterAt(k);
      assert ToLower(c) == SMALLS[k];
    }
  }

  lemma DecodeDashed(c: char, b: string)
    requires IsLower(c)
    ensures KebabToCamel("-" + [c] + b) == [ToUpper(c)] + KebabToCamel(b)
  {
    assert ("-" + [c] + b)[2..] == b;
  }

  lemma {:induction false} DecodesDash(a: string, c: char, b: string)
    requires IsLower(c)
    ensures KebabToCamel(a + ("-" + [c] + b)) == KebabToCamel(a) + ([ToUpper(c)] + KebabToCamel(b))
    decreases |a|
  {
    var more := "-" + [c] + b;
    if a == "" {
      DecodeDashed(c, b);
      assert a + more == more;
    } else if |a| >= 2 && a[0] == '-' && IsLower(a[1]) {
      assert (a + more)[2..] == a[2..] + more;
      DecodesDash(a[2..], c, b);
    } else {
      assert (a + more)[1..] == a[1..] + more;
      assert (a + more)[1] == if |a| > 1 then a[1] else '-';
      DecodesDash(a[1..], c, b);
    }
  }

  /** Wherever it stands, a dash before a small letter goes and the letter becomes a capital. */
  lemma DecodesEachDash(a: string, k: nat, b: string)
    requires k < |SMALLS|
    ensures KebabToCamel(a + ("-" + [SMALLS[k]] + b)) == KebabToCamel(a) + ([CAPITALS[k]] + KebabToCamel(b))
  {
    LetterAt(k);
    var c := SMALLS[k];
    assert ToUpper(c) == CAPITALS[k];
    DecodesDash(a, c, b);
  }

  /** Where no dash stands before a small letter, nothing changes. */
  lemma {:induction false} DecodesNothingElse(s: string)
    requires forall i :: 0 <= i < |s| - 1 && s[i] == '-' ==> s[i + 1] !in SMALLS
    ensures KebabToCamel(s) == s
  {
    if s != "" {
      if |s| > 1 { SmallsAre(s[1]); }
      var rest := s[1..];
      assert forall i :: 0 <= i < |rest| ==> rest[i] == s[i + 1];
      DecodesNothingElse(rest);
    }
  }
}
