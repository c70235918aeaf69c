/**
 * String helpers shared by the Python back end and the JavaScript pages.
 * Strings are sequences of characters; case mapping is ASCII only and
 * "whitespace" is the fixed set IsSpace.
 */
module Text {
  import opened Wrappers

  predicate IsDigit(c: char) { '0' <= c <= '9' }

  /** Whitespace as stripped by str.strip / String.prototype.trim and matched by \s. */
  predicate IsSpace(c: char)
  {
    c == ' ' || c == '\t' || c == '\n' || c == '\r' || c == '\U{000B}' || c == '\U{000C}' || c == '\U{00A0}'
  }

  predicate AllDigits(s: string) { forall i :: 0 <= i < |s| ==> IsDigit(s[i]) }

  predicate NoSpace(s: string) { forall i :: 0 <= i < |s| ==> !IsSpace(s[i]) }

  /** The digits of s in their original order (Python's ''.join(filter(str.isdigit, s)), JS s.replace(/\D/g, '')). */
  function Digits(s: string): (r: string)
    ensures AllDigits(r)
    ensures |r| <= |s|
  {
    if |s| == 0 then ""
    else if IsDigit(s[0]) then [s[0]] + Digits(s[1..])
    else Digits(s[1..])
  }

  lemma {:induction false} DigitsOfDigits(s: string)
    requires AllDigits(s)
    ensures Digits(s) == s
  {
    if |s| > 0 {
      DigitsOfDigits(s[1..]);
    }
  }

  lemma DigitsIdempotent(s: string)
    ensures Digits(Digits(s)) == Digits(s)
  {
    DigitsOfDigits(Digits(s));
  }

  lemma {:induction false} DigitsAppend(a: string, b: string)
    ensures Digits(a + b) == Digits(a) + Digits(b)
  {
    if |a| == 0 {
      assert a + b == b;
    } else {
      assert (a + b)[1..] == a[1..] + b;
      DigitsAppend(a[1..], b);
    }
  }

  /** Leading whitespace removed. */
  function TrimStart(s: string): (r: string)
    ensures |r| <= |s| && r == s[|s| - |r|..]
    ensures r == [] || !IsSpace(r[0])
    ensures forall k :: 0 <= k < |s| - |r| ==> IsSpace(s[k])
  {
    if |s| > 0 && IsSpace(s[0]) then TrimStart(s[1..]) else s
  }

  /** Trailing whitespace removed. */
  function TrimEnd(s: string): (r: string)
    ensures |r| <= |s| && r == s[..|r|]
    ensures r == [] || !IsSpace(r[|r| - 1])
    ensures forall k :: |r| <= k < |s| ==> IsSpace(s[k])
  {
    if |s| > 0 && IsSpace(s[|s| - 1]) then TrimEnd(s[..|s| - 1]) else s
  }

  /** str.strip() / String.prototype.trim(). */
  function Trim(s: string): string
  {
    TrimEnd(TrimStart(s))
  }

  predicate IsTrimmed(s: string)
  {
    s == [] || (!IsSpace(s[0]) && !IsSpace(s[|s| - 1]))
  }

  lemma TrimSpec(s: string)
    ensures IsTrimmed(Trim(s))
    ensures OccursAt(s, Trim(s), |s| - |TrimStart(s)|)
  {
    var t := TrimStart(s);
    var r := TrimEnd(t);
    SuffixPrefixOccurs(s, t, r);
    assert r == [] || r[0] == t[0];
  }

  /** A prefix of a suffix of s occurs in s where the suffix starts. */
  lemma SuffixPrefixOccurs(s: string, t: string, r: string)
    requires |t| <= |s| && t == s[|s| - |t|..]
    requires |r| <= |t| && r == t[..|r|]
    ensures OccursAt(s, r, |s| - |t|)
  {
    assert s[|s| - |t|..][..|r|] == s[|s| - |t|..|s| - |t| + |r|];
  }

  lemma TrimOfTrimmed(s: string)
    requires IsTrimmed(s)
    ensures Trim(s) == s
  {
  }

  lemma TrimIdempotent(s: string)
    ensures Trim(Trim(s)) == Trim(s)
  {
    TrimSpec(s);
    TrimOfTrimmed(Trim(s));
  }

  predicate StartsWith(s: string, prefix: string)
  {
    |prefix| <= |s| && s[..|prefix|] == prefix
  }

  /** sub occurs in s starting at index i. */
  predicate OccursAt(s: string, sub: string, i: int)
  {
    0 <= i <= |s| - |sub| && s[i..i + |sub|] == sub
  }

  /** sub occurs in s at some position (Python `in`, JS includes). */
  predicate Contains(s: string, sub: string)
  {
    exists i :: 0 <= i <= |s| && OccursAt(s, sub, i)
  }

  predicate EndsWith(s: string, suffix: string)
  {
    |suffix| <= |s| && s[|s| - |suffix|..] == suffix
  }

  /** Whatever contains a + b contains b: the shorter keyword of an `||` pair already matches the longer. */
  lemma ContainsTail(s: string, a: string, b: string)
    requires Contains(s, a + b)
    ensures Contains(s, b)
  {
    var i :| 0 <= i <= |s| && OccursAt(s, a + b, i);
    assert s[i + |a|..i + |a| + |b|] == s[i..i + |a| + |b|][|a|..];
    assert OccursAt(s, b, i + |a|);
  }

  lemma ContainsSuffix(prefix: string, sub: string)
    ensures Contains(prefix + sub, sub)
  {
    var s := prefix + sub;
    assert OccursAt(s, sub, |prefix|);
  }

  function LowerChar(c: char): char
  {
    if 'A' <= c <= 'Z' then (c as int + 32) as char else c
  }

  function UpperChar(c: char): char
  {
    if 'a' <= c <= 'z' then (c as int - 32) as char else c
  }

  /** ASCII lower-casing (str.lower / toLowerCase restricted to ASCII letters). */
  function Lower(s: string): (r: string)
    ensures |r| == |s|
    ensures forall i :: 0 <= i < |s| ==> r[i] == LowerChar(s[i])
  {
    if |s| == 0 then "" else [LowerChar(s[0])] + Lower(s[1..])
  }

  /** ASCII upper-casing (str.upper restricted to ASCII letters). */
  function Upper(s: string): (r: string)
    ensures |r| == |s|
    ensures forall i :: 0 <= i < |s| ==> r[i] == UpperChar(s[i])
  {
    if |s| == 0 then "" else [UpperChar(s[0])] + Upper(s[1..])
  }

  lemma LowerAppend(a: string, b: string)
    ensures Lower(a + b) == Lower(a) + Lower(b)
  {
    assert Lower(a + b) == Lower(a) + Lower(b);
  }

  /** Every occurrence of `from` replaced by `to` (str.replace with one-character arguments). */
  function ReplaceChar(s: string, from: char, to: char): (r: string)
    ensures |r| == |s|
    ensures forall i :: 0 <= i < |s| ==> r[i] == (if s[i] == from then to else s[i])
  {
    if |s| == 0 then "" else [if s[0] == from then to else s[0]] + ReplaceChar(s[1..], from, to)
  }

  /**
   * s.split(sep) for a non-empty separator: the pieces between the
   * non-overlapping occurrences of sep, scanned from the left.
   */
  function SplitOn(s: string, sep: string): (r: seq<string>)
    requires |sep| > 0
    ensures |r| >= 1
    decreases |s|
  {
    if |s| < |sep| then [s]
    else if s[..|sep|] == sep then [""] + SplitOn(s[|sep|..], sep)
    else
      var rest := SplitOn(s[1..], sep);
      [[s[0]] + rest[0]] + rest[1..]
  }

  /** parts.join(sep). */
  function Join(parts: seq<string>, sep: string): string
  {
    if |parts| == 0 then ""
    else if |parts| == 1 then parts[0]
    else parts[0] + sep + Join(parts[1..], sep)
  }

  /** Prepending a character to the first part prepends it to the join. */
  lemma JoinPrepend(ch: char, parts: seq<string>, sep: string)
    requires |parts| >= 1
    ensures Join([[ch] + parts[0]] + parts[1..], sep) == [ch] + Join(parts, sep)
  {
    var r := [[ch] + parts[0]] + parts[1..];
    if |parts| > 1 {
      assert r[1..] == parts[1..];
    }
  }

  lemma {:induction false} JoinSplit(s: string, sep: string)
    requires |sep| > 0
    ensures Join(SplitOn(s, sep), sep) == s
    decreases |s|
  {
    if |s| < |sep| {
    } else if s[..|sep|] == sep {
      var rest := SplitOn(s[|sep|..], sep);
      JoinSplit(s[|sep|..], sep);
      assert ([""] + rest)[1..] == rest;
      assert s == s[..|sep|] + s[|sep|..];
    } else {
      JoinSplit(s[1..], sep);
      JoinPrepend(s[0], SplitOn(s[1..], sep), sep);
      assert s == [s[0]] + s[1..];
    }
  }

  /** A string without c splits on c into itself. */
  lemma NoSeparatorOneChar(s: string, c: char)
    requires forall i :: 0 <= i < |s| ==> s[i] != c
    ensures SplitOn(s, [c]) == [s]
  {
    assert !Contains(s, [c]) by {
      if i :| 0 <= i <= |s| && OccursAt(s, [c], i) {
        assert s[i] == s[i..i + 1][0];
      }
    }
    SplitWithoutSeparator(s, [c]);
  }

  /**
   * Splitting a piece that holds no separator's first character, followed by
   * the separator and the rest, yields that piece, then the rest's pieces.
   */
  lemma {:induction false} SplitAfterPiece(a: string, sep: string, rest: string)
    requires |sep| > 0
    requires forall i :: 0 <= i < |a| ==> a[i] != sep[0]
    ensures SplitOn(a + sep + rest, sep) == [a] + SplitOn(rest, sep)
    decreases |a|
  {
    var s := a + sep + rest;
    if |a| == 0 {
      assert s[..|sep|] == sep && s[|sep|..] == rest;
    } else {
      assert s[0] == a[0];
      assert s[..|sep|] != sep by { assert s[..|sep|][0] == a[0]; }
      assert s[1..] == a[1..] + sep + rest;
      SplitAfterPiece(a[1..], sep, rest);
      assert [a[0]] + a[1..] == a;
    }
  }

  /** The inverse of JoinSplit: pieces free of c survive a join on c and a split on c. */
  lemma {:induction false} SplitJoin(parts: seq<string>, c: char)
    requires |parts| >= 1
    requires forall k, i :: 0 <= k < |parts| && 0 <= i < |parts[k]| ==> parts[k][i] != c
    ensures SplitOn(Join(parts, [c]), [c]) == parts
  {
    if |parts| == 1 {
      NoSeparatorOneChar(parts[0], c);
    } else {
      SplitJoin(parts[1..], c);
      SplitAfterPiece(parts[0], [c], Join(parts[1..], [c]));
      assert [parts[0]] + parts[1..] == parts;
    }
  }

  /** A piece of a one-character split never contains that character. */
  lemma {:induction false} SplitPiecesAvoidSeparator(s: string, c: char)
    ensures forall k, i :: 0 <= k < |SplitOn(s, [c])| && 0 <= i < |SplitOn(s, [c])[k]| ==> SplitOn(s, [c])[k][i] != c
    decreases |s|
  {
    if |s| < 1 {
    } else if s[..1] == [c] {
      SplitPiecesAvoidSeparator(s[1..], c);
      assert SplitOn(s, [c]) == [""] + SplitOn(s[1..], [c]);
    } else {
      SplitPiecesAvoidSeparator(s[1..], c);
      var rest := SplitOn(s[1..], [c]);
      assert s[0] != c by { assert s[..1] == [s[0]]; }
      assert SplitOn(s, [c]) == [[s[0]] + rest[0]] + rest[1..];
    }
  }

  /** Without any occurrence of the separator, split returns the whole string. */
  lemma {:induction false} SplitWithoutSeparator(s: string, sep: string)
    requires |sep| > 0
    requires !Contains(s, sep)
    ensures SplitOn(s, sep) == [s]
    decreases |s|
  {
    if |s| >= |sep| {
      assert !OccursAt(s, sep, 0);
      assert !Contains(s[1..], sep) by {
        forall i | OccursAt(s[1..], sep, i)
          ensures false
        {
          assert s[1..][i..i + |sep|] == s[i + 1..i + 1 + |sep|];
          assert OccursAt(s, sep, i + 1);
        }
      }
      SplitWithoutSeparator(s[1..], sep);
      assert s[..|sep|] != sep;
      assert s == [s[0]] + s[1..];
    }
  }

  function DigitChar(d: nat): char
    requires d < 10
  {
    ('0' as int + d) as char
  }

  /** The decimal representation of n, without leading zeros (String(n), str(n)). */
  function NatToString(n: nat): (r: string)
    ensures |r| >= 1 && AllDigits(r)
    ensures (n < 10 <==> |r| == 1) && (n < 100 <==> |r| <= 2)
  {
    if n < 10 then [DigitChar(n)] else NatToString(n / 10) + [DigitChar(n % 10)]
  }

  lemma {:induction false} NatToStringInjective(n: nat, m: nat)
    requires NatToString(n) == NatToString(m)
    ensures n == m
  {
    var s := NatToString(n);
    if n < 10 && m < 10 {
      assert DigitChar(n) == DigitChar(m);
    } else if n >= 10 && m >= 10 {
      assert s[|s| - 1] == DigitChar(n % 10) == DigitChar(m % 10);
      assert s[..|s| - 1] == NatToString(n / 10) == NatToString(m / 10);
      NatToStringInjective(n / 10, m / 10);
    } else {
      assert false;
    }
  }

  /** The number a run of decimal digits denotes (parseInt of the run). */
  function DigitsValue(s: string): nat
    requires AllDigits(s)
  {
    if |s| == 0 then 0 else DigitsValue(s[..|s| - 1]) * 10 + (s[|s| - 1] as int - '0' as int)
  }

  /** Reading back the decimal representation of n gives n. */
  lemma {:induction false} DigitsValueOfNatToString(n: nat)
    ensures DigitsValue(NatToString(n)) == n
  {
    var s := NatToString(n);
    if n >= 10 {
      assert s[..|s| - 1] == NatToString(n / 10);
      DigitsValueOfNatToString(n / 10);
    }
  }

  /** The index of the first digit of s, or |s| when there is none. */
  function FirstDigitIndex(s: string): (i: nat)
    ensures i <= |s|
    ensures forall j :: 0 <= j < i ==> !IsDigit(s[j])
    ensures i < |s| ==> IsDigit(s[i])
  {
    if |s| == 0 then 0
    else if IsDigit(s[0]) then 0
    else 1 + FirstDigitIndex(s[1..])
  }

  /** The longest prefix of s made of digits. */
  function LeadingDigits(s: string): (r: string)
    ensures |r| <= |s| && r == s[..|r|] && AllDigits(r)
    ensures |r| < |s| ==> !IsDigit(s[|r|])
  {
    if |s| == 0 || !IsDigit(s[0]) then ""
    else [s[0]] + LeadingDigits(s[1..])
  }

  /** The first match of /(\d+)/: the first maximal run of digits, None when s has no digit. */
  function FirstDigitRun(s: string): (r: Option<string>)
    ensures r.None? <==> forall j :: 0 <= j < |s| ==> !IsDigit(s[j])
    ensures r.Some? ==> |r.value| > 0 && AllDigits(r.value)
  {
    var i := FirstDigitIndex(s);
    if i == |s| then None else Some(LeadingDigits(s[i..]))
  }

  /** A number printed between digit-free text is the run the pattern finds. */
  lemma FirstRunOfPrintedNumber(before: string, n: nat, after: string)
    requires forall j :: 0 <= j < |before| ==> !IsDigit(before[j])
    requires |after| == 0 || !IsDigit(after[0])
    ensures FirstDigitRun(before + NatToString(n) + after) == Some(NatToString(n))
    ensures DigitsValue(FirstDigitRun(before + NatToString(n) + after).value) == n
  {
    var d := NatToString(n);
    var s := before + d + after;
    var i := FirstDigitIndex(s);
    assert s[|before|] == d[0];
    assert i == |before|;
    assert s[i..] == d + after;
    LeadingDigitsOfRun(d, after);
    DigitsValueOfNatToString(n);
  }

  /** A run of digits followed by a non-digit is exactly the leading digits. */
  lemma {:induction false} LeadingDigitsOfRun(d: string, after: string)
    requires AllDigits(d)
    requires |after| == 0 || !IsDigit(after[0])
    ensures LeadingDigits(d + after) == d
  {
    if |d| > 0 {
      assert (d + after)[1..] == d[1..] + after;
      LeadingDigitsOfRun(d[1..], after);
    } else {
      assert d + after == after;
    }
  }

  /** String(n).padStart(2, '0'). */
  function Pad2(n: nat): (r: string)
    ensures |r| >= 2 && AllDigits(r)
    ensures n < 100 ==> |r| == 2
  {
    if n < 10 then "0" + NatToString(n) else NatToString(n)
  }
}
