/**
 * Text operations of the Qt string classes the launcher relies on
 * (QStringList::join, QString::split, toUpper/toLower, replace, number),
 * restricted to what the launcher's inputs use.
 */
module Strings {

  /** QStringList::join(sep): the parts with one separator between neighbours. */
  function Join(parts: seq<string>, sep: char): string
    decreases |parts|
  {
    if |parts| == 0 then ""
    else if |parts| == 1 then parts[0]
    else parts[0] + [sep] + Join(parts[1..], sep)
  }

  /** QString::split(sep) with empty parts kept (Qt's default). */
  function Split(s: string, sep: char): (r: seq<string>)
    ensures |r| >= 1
    ensures forall i :: 0 <= i < |r| ==> sep !in r[i]
    decreases |s|
  {
    if |s| == 0 then [""]
    else
      var rest := Split(s[1..], sep);
      if s[0] == sep then [""] + rest
      else [[s[0]] + rest[0]] + rest[1..]
  }

  /** Splitting on a character and joining with it gives the text back. */
  lemma {:induction false} JoinSplit(s: string, sep: char)
    ensures Join(Split(s, sep), sep) == s
    decreases |s|
  {
    if |s| > 0 {
      var rest := Split(s[1..], sep);
      JoinSplit(s[1..], sep);
      if s[0] == sep {
        assert Split(s, sep) == [""] + rest;
        assert ([""] + rest)[1..] == rest;
      } else {
        var parts := Split(s, sep);
        assert parts == [[s[0]] + rest[0]] + rest[1..];
        if |rest| == 1 {
          assert Join(rest, sep) == rest[0];
        } else {
          assert parts[1..] == rest[1..];
          assert Join(rest, sep) == rest[0] + [sep] + Join(rest[1..], sep);
        }
      }
    }
  }

  lemma {:induction false} SplitWithoutSeparator(a: string, sep: char)
    requires sep !in a
    ensures Split(a, sep) == [a]
    decreases |a|
  {
    if |a| > 0 {
      assert sep !in a[1..];
      SplitWithoutSeparator(a[1..], sep);
      assert Split(a, sep) == [[a[0]] + a[1..]] + [a[1..]][1..];
      assert [a[0]] + a[1..] == a;
    }
  }

  lemma {:induction false} SplitAfterSeparator(a: string, b: string, sep: char)
    requires sep !in a
    ensures Split(a + [sep] + b, sep) == [a] + Split(b, sep)
    decreases |a|
  {
    var s := a + [sep] + b;
    if |a| == 0 {
      assert s[0] == sep && s[1..] == b;
    } else {
      assert s[1..] == a[1..] + [sep] + b;
      assert sep !in a[1..];
      SplitAfterSeparator(a[1..], b, sep);
      var rest := Split(s[1..], sep);
      assert rest == [a[1..]] + Split(b, sep);
      assert s[0] == a[0] && s[0] != sep;
      assert Split(s, sep) == [[a[0]] + rest[0]] + rest[1..];
      assert [a[0]] + a[1..] == a;
    }
  }

  /** Joining parts that do not contain the separator and splitting again gives the parts back. */
  lemma {:induction false} SplitJoin(parts: seq<string>, sep: char)
    requires |parts| >= 1
    requires forall i :: 0 <= i < |parts| ==> sep !in parts[i]
    ensures Split(Join(parts, sep), sep) == parts
    decreases |parts|
  {
    if |parts| == 1 {
      SplitWithoutSeparator(parts[0], sep);
    } else {
      SplitJoin(parts[1..], sep);
      SplitAfterSeparator(parts[0], Join(parts[1..], sep), sep);
      assert [parts[0]] + parts[1..] == parts;
    }
  }

  /** ASCII case mapping, as QString::toUpper and toLower act on ASCII letters. */
  function UpperChar(c: char): char {
    if 'a' <= c <= 'z' then (c as int - 32) as char else c
  }

  function LowerChar(c: char): char {
    if 'A' <= c <= 'Z' then (c as int + 32) as char else c
  }

  function ToUpper(s: string): (r: string)
    ensures |r| == |s|
    ensures forall i :: 0 <= i < |s| ==> r[i] == UpperChar(s[i])
  {
    seq(|s|, i requires 0 <= i < |s| => UpperChar(s[i]))
  }

  function ToLower(s: string): (r: string)
    ensures |r| == |s|
    ensures forall i :: 0 <= i < |s| ==> r[i] == LowerChar(s[i])
  {
    seq(|s|, i requires 0 <= i < |s| => LowerChar(s[i]))
  }

  /** Upper-casing forgets the case of the input: lower-casing first changes nothing. */
  lemma UpperIgnoresCase(s: string)
    ensures ToUpper(ToLower(s)) == ToUpper(s)
  {
    forall i | 0 <= i < |s|
      ensures ToUpper(ToLower(s))[i] == ToUpper(s)[i]
    {
      var c := s[i];
      if 'A' <= c <= 'Z' {
        assert LowerChar(c) as int == c as int + 32;
      }
    }
  }

  /** Lower-casing forgets the case of the input too: upper-casing first changes nothing. */
  lemma LowerIgnoresCase(s: string)
    ensures ToLower(ToUpper(s)) == ToLower(s)
  {
    forall i | 0 <= i < |s|
      ensures ToLower(ToUpper(s))[i] == ToLower(s)[i]
    {
      var c := s[i];
      if 'a' <= c <= 'z' {
        assert UpperChar(c) as int == c as int - 32;
      }
    }
  }

  /** Case-insensitive equality of ASCII text (Qt::CaseInsensitive). */
  predicate EqualsIgnoreCase(a: string, b: string) {
    ToLower(a) == ToLower(b)
  }

  /** QString::left(n): the first n characters, or all of them when there are fewer. */
  function Left(s: string, n: nat): (r: string)
    ensures r <= s
    ensures |r| == if n < |s| then n else |s|
  {
    if n < |s| then s[..n] else s
  }

  // ---------------------------------------------------------------------
  // Replacement of every occurrence of a pattern (QString/QByteArray::replace)

  /** `from` occurs in `s` at position i. */
  predicate OccursAt(s: string, from: string, i: nat) {
    i + |from| <= |s| && s[i..i + |from|] == from
  }

  /** Left-to-right, non-overlapping replacement; scanning resumes after each replacement. */
  function Replace(s: string, from: string, to: string): string
    requires |from| > 0
    decreases |s|
  {
    if |s| < |from| then s
    else if s[..|from|] == from then to + Replace(s[|from|..], from, to)
    else [s[0]] + Replace(s[1..], from, to)
  }

  /** How many occurrences Replace rewrites. */
  function Occurrences(s: string, from: string): nat
    requires |from| > 0
    decreases |s|
  {
    if |s| < |from| then 0
    else if s[..|from|] == from then 1 + Occurrences(s[|from|..], from)
    else Occurrences(s[1..], from)
  }

  /** Each rewritten occurrence changes the length by the difference of the two patterns. */
  lemma {:induction false} ReplaceLength(s: string, from: string, to: string)
    requires |from| > 0
    ensures |Replace(s, from, to)| == |s| + Occurrences(s, from) * (|to| - |from|)
    decreases |s|
  {
    var d := |to| - |from|;
    if |s| < |from| {
      assert Occurrences(s, from) == 0;
    } else if s[..|from|] == from {
      var rest := s[|from|..];
      ReplaceLength(rest, from, to);
      var k := Occurrences(rest, from);
      assert Occurrences(s, from) == 1 + k;
      calc {
        |Replace(s, from, to)|;
        |to| + |Replace(rest, from, to)|;
        |to| + |rest| + k * d;
        { assert |rest| == |s| - |from|; }
        |s| + d + k * d;
        { MulSucc(k, d); }
        |s| + (1 + k) * d;
      }
    } else {
      ReplaceLength(s[1..], from, to);
      assert |Replace(s, from, to)| == 1 + |Replace(s[1..], from, to)|;
      assert Occurrences(s, from) == Occurrences(s[1..], from);
    }
  }

  lemma MulSucc(k: int, d: int)
    ensures (1 + k) * d == d + k * d
  {
  }

  /**
   * Up to the first occurrence the text is kept; that occurrence becomes `to`, and the
   * rest of the text is rewritten in turn.
   */
  lemma ReplaceAtFirst(s: string, from: string, to: string, i: nat)
    requires |from| > 0 && OccursAt(s, from, i)
    requires forall j: nat :: j < i ==> !OccursAt(s, from, j)
    ensures Replace(s, from, to) == s[..i] + to + Replace(s[i + |from|..], from, to)
  {
    ReplaceFrom(s, from, to, 0, i);
    assert s[0..] == s;
    assert s[0..i] == s[..i];
  }

  /** The same, for the text from position k on, when no occurrence starts in [k, i). */
  lemma {:induction false} ReplaceFrom(s: string, from: string, to: string, k: nat, i: nat)
    requires |from| > 0 && k <= i && OccursAt(s, from, i)
    requires forall j: nat :: k <= j < i ==> !OccursAt(s, from, j)
    ensures Replace(s[k..], from, to) == s[k..i] + to + Replace(s[i + |from|..], from, to)
    decreases i - k
  {
    if k < i {
      ReplaceFrom(s, from, to, k + 1, i);
      ReplaceKeepsOne(s, from, to, k, i, Replace(s[i + |from|..], from, to));
    } else {
      assert s[k..][..|from|] == s[k..k + |from|];
      assert s[k..][|from|..] == s[i + |from|..];
      assert s[k..i] + to == to;
    }
  }

  /** A position where no occurrence starts keeps its character in front of the rewritten rest. */
  lemma ReplaceKeepsOne(s: string, from: string, to: string, k: nat, i: nat, tail: string)
    requires |from| > 0 && k < i && i + |from| <= |s| && !OccursAt(s, from, k)
    requires Replace(s[k + 1..], from, to) == s[k + 1..i] + to + tail
    ensures Replace(s[k..], from, to) == s[k..i] + to + tail
  {
    assert s[k..][..|from|] == s[k..k + |from|];
    assert s[k..][1..] == s[k + 1..];
    assert [s[k]] + s[k + 1..i] == s[k..i];
    calc {
      Replace(s[k..], from, to);
      [s[k]] + Replace(s[k + 1..], from, to);
      [s[k]] + (s[k + 1..i] + to + tail);
      { SeqAssoc3([s[k]], s[k + 1..i], to, tail); }
      ([s[k]] + s[k + 1..i]) + to + tail;
    }
  }

  lemma SeqAssoc3(a: string, b: string, c: string, d: string)
    ensures a + (b + c + d) == (a + b) + c + d
  {
  }

  /** Text in which the pattern does not occur is left as it is. */
  lemma {:induction false} ReplaceAbsent(s: string, from: string, to: string)
    requires |from| > 0
    requires forall i: nat :: !OccursAt(s, from, i)
    ensures Replace(s, from, to) == s
    ensures Occurrences(s, from) == 0
    decreases |s|
  {
    if |s| >= |from| {
      assert !OccursAt(s, from, 0);
      assert s[0..|from|] == s[..|from|];
      forall i: nat
        ensures !OccursAt(s[1..], from, i)
      {
        assert !OccursAt(s, from, i + 1);
        if i + |from| <= |s[1..]| {
          assert s[1..][i..i + |from|] == s[i + 1..i + 1 + |from|];
        }
      }
      ReplaceAbsent(s[1..], from, to);
      assert [s[0]] + s[1..] == s;
    }
  }

  /** Replacing a pattern by itself changes nothing. */
  lemma {:induction false} ReplaceBySelf(s: string, from: string)
    requires |from| > 0
    ensures Replace(s, from, from) == s
    decreases |s|
  {
    if |s| >= |from| {
      if s[..|from|] == from {
        ReplaceBySelf(s[|from|..], from);
        assert s[..|from|] + s[|from|..] == s;
      } else {
        ReplaceBySelf(s[1..], from);
        assert [s[0]] + s[1..] == s;
      }
    }
  }

  // ---------------------------------------------------------------------
  // Decimal text of integers (QString::number, QVariant::toString of an int)

  function DigitChar(d: nat): char
    requires d < 10
  {
    ('0' as int + d) as char
  }

  predicate IsDigit(c: char) {
    '0' <= c <= '9'
  }

  function DigitValue(c: char): nat
    requires IsDigit(c)
  {
    c as int - '0' as int
  }

  function NatToString(n: nat): (r: string)
    ensures |r| >= 1
    ensures forall i :: 0 <= i < |r| ==> IsDigit(r[i])
    decreases n
  {
    if n < 10 then [DigitChar(n)] else NatToString(n / 10) + [DigitChar(n % 10)]
  }

  /** Decimal text, with a leading '-' for negative values. */
  function IntToString(n: int): (r: string)
    ensures |r| >= 1
  {
    if n < 0 then "-" + NatToString(-n) else NatToString(n)
  }

  /** Reading back a run of decimal digits. */
  function ParseNat(s: string): nat
    requires forall i :: 0 <= i < |s| ==> IsDigit(s[i])
    decreases |s|
  {
    if |s| == 0 then 0 else ParseNat(s[..|s| - 1]) * 10 + DigitValue(s[|s| - 1])
  }

  function ParseInt(s: string): int
  {
    if |s| > 0 && s[0] == '-' && (forall i :: 1 <= i < |s| ==> IsDigit(s[i])) then -(ParseNat(s[1..]) as int)
    else if forall i :: 0 <= i < |s| ==> IsDigit(s[i]) then ParseNat(s)
    else 0
  }

  lemma {:induction false} ParseNatToString(n: nat)
    ensures ParseNat(NatToString(n)) == n
    decreases n
  {
    if n >= 10 {
      var s := NatToString(n);
      ParseNatToString(n / 10);
      assert s[..|s| - 1] == NatToString(n / 10);
    }
  }

  /** The decimal text of an integer reads back as that integer. */
  lemma IntToStringRoundTrip(n: int)
    ensures ParseInt(IntToString(n)) == n
  {
    var s := IntToString(n);
    if n < 0 {
      ParseNatToString(-n);
      assert s[1..] == NatToString(-n);
    } else {
      ParseNatToString(n);
      assert s[0] != '-';
    }
  }
}
