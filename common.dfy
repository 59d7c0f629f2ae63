/** Values and text helpers shared by every module: an Option type and the
    handful of Python string operations the assistant relies on (`in`,
    `split`, `strip`, `lower`, `isdigit`, `int`, `str`, `replace`). */
module Common {

  datatype Option<T> = None | Some(value: T)

  // ---------------------------------------------------------------------
  // Substrings: Python's `pat in s`, `s.find(pat)` and `s.split(pat, 1)[-1]`
  // ---------------------------------------------------------------------

  /** `pat` occurs in `s` starting at index `i`. */
  predicate OccursAt(s: string, pat: string, i: int) {
    0 <= i && i + |pat| <= |s| && s[i..i + |pat|] == pat
  }

  /** Python's `pat in s`. */
  predicate Contains(s: string, pat: string) {
    exists i :: 0 <= i <= |s| - |pat| && OccursAt(s, pat, i)
  }

  lemma OccursShift(s: string, pat: string, i: int)
    requires |s| > 0 && 0 <= i
    ensures OccursAt(s, pat, i + 1) <==> OccursAt(s[1..], pat, i)
  {
    if i + 1 + |pat| <= |s| {
      assert s[1..][i..i + |pat|] == s[i + 1..i + 1 + |pat|];
    }
  }

  /** Index of the first occurrence of `pat` in `s` (Python's `s.find(pat)`). */
  function Find(s: string, pat: string): (r: Option<nat>)
    ensures r.Some? ==> OccursAt(s, pat, r.value)
    ensures r.Some? ==> forall j :: 0 <= j < r.value ==> !OccursAt(s, pat, j)
    ensures r.None? <==> !Contains(s, pat)
    decreases |s|
  {
    if |pat| > |s| then None
    else if s[..|pat|] == pat then Some(0)
    else
      var rest := Find(s[1..], pat);
      assert !OccursAt(s, pat, 0);
      assert forall j :: 0 <= j ==> (OccursAt(s, pat, j + 1) <==> OccursAt(s[1..], pat, j)) by {
        forall j | 0 <= j ensures OccursAt(s, pat, j + 1) <==> OccursAt(s[1..], pat, j) {
          OccursShift(s, pat, j);
        }
      }
      match rest
      case None =>
        assert forall i :: !OccursAt(s, pat, i) by {
          forall i ensures !OccursAt(s, pat, i) {
            if i > 0 { assert !OccursAt(s[1..], pat, i - 1); }
          }
        }
        None
      case Some(k) =>
        OccursShift(s, pat, k);
        assert forall j :: 0 < j < k + 1 ==> !OccursAt(s, pat, j) by {
          forall j | 0 < j < k + 1 ensures !OccursAt(s, pat, j) {
            OccursShift(s, pat, j - 1);
          }
        }
        Some(k + 1)
  }

  /** A pattern occurring inside a longer pattern occurs wherever the longer one does. */
  lemma {:induction false} ContainsTransitive(s: string, big: string, small: string)
    requires Contains(s, big) && Contains(big, small)
    ensures Contains(s, small)
  {
    var i :| 0 <= i <= |s| - |big| && OccursAt(s, big, i);
    var j :| 0 <= j <= |big| - |small| && OccursAt(big, small, j);
    assert s[i..i + |big|] == big;
    forall k | 0 <= k < |small| ensures s[i + j + k] == small[k] {
      assert small[k] == big[j + k] == s[i..i + |big|][j + k];
    }
    assert s[i + j..i + j + |small|] == small;
    assert OccursAt(s, small, i + j);
  }

  /** A pattern that holds a character the text lacks does not occur in it. */
  lemma MissingChar(s: string, pat: string, k: nat)
    requires k < |pat| && pat[k] !in s
    ensures !Contains(s, pat)
  {
  }

  /** The empty pattern occurs in every text. */
  lemma ContainsEmpty(s: string)
    ensures Contains(s, "")
  {
    assert OccursAt(s, "", 0);
  }

  /** Python's `s.split(pat, 1)[-1]`: the text after the first occurrence of
      `pat`, or the whole of `s` when `pat` does not occur. */
  function After(s: string, pat: string): (r: string)
    ensures Contains(s, pat) ==>
      exists i :: && OccursAt(s, pat, i) && r == s[i + |pat|..]
                  && forall j :: 0 <= j < i ==> !OccursAt(s, pat, j)
    ensures !Contains(s, pat) ==> r == s
  {
    match Find(s, pat)
    case None => s
    case Some(i) => s[i + |pat|..]
  }

  predicate StartsWith(s: string, prefix: string) {
    prefix <= s
  }

  predicate EndsWith(s: string, suffix: string) {
    |suffix| <= |s| && s[|s| - |suffix|..] == suffix
  }

  // ---------------------------------------------------------------------
  // Whitespace: Python's `str.strip()` with no argument
  // ---------------------------------------------------------------------

  /** The ASCII characters for which Python's `str.isspace()` holds. */
  predicate IsSpace(c: char) {
    c == ' ' || c == '\t' || c == '\n' || c == '\r' || c == '\U{B}' || c == '\U{C}'
    || ('\U{1C}' <= c <= '\U{1F}')
  }

  function TrimLeft(s: string): (r: string)
    ensures |r| <= |s| && r == s[|s| - |r|..]
    ensures forall i :: 0 <= i < |s| - |r| ==> IsSpace(s[i])
    ensures |r| > 0 ==> !IsSpace(r[0])
  {
    if |s| > 0 && IsSpace(s[0]) then TrimLeft(s[1..]) else s
  }

  function TrimRight(s: string): (r: string)
    ensures |r| <= |s| && r == s[..|r|]
    ensures forall i :: |r| <= i < |s| ==> IsSpace(s[i])
    ensures |r| > 0 ==> !IsSpace(r[|r| - 1])
  {
    if |s| > 0 && IsSpace(s[|s| - 1]) then TrimRight(s[..|s| - 1]) else s
  }

  /** `r` is the slice of `s` starting at `i` and everything around it is whitespace. */
  predicate StrippedAt(s: string, r: string, i: int) {
    0 <= i <= |s| - |r| && r == s[i..i + |r|]
    && (forall k :: 0 <= k < i ==> IsSpace(s[k]))
    && (forall k :: i + |r| <= k < |s| ==> IsSpace(s[k]))
  }

  /** Python's `s.strip()`: the longest slice of `s` that neither starts nor
      ends with whitespace, everything cut off being whitespace. */
  function Strip(s: string): (r: string)
    ensures exists i :: StrippedAt(s, r, i)
    ensures |r| > 0 ==> !IsSpace(r[0]) && !IsSpace(r[|r| - 1])
  {
    var l := TrimLeft(s);
    var r := TrimRight(l);
    var i := |s| - |l|;
    assert StrippedAt(s, r, i);
    r
  }

  /** Stripping a stripped string changes nothing. */
  lemma StripIdempotent(s: string)
    ensures Strip(Strip(s)) == Strip(s)
  {
    var r := Strip(s);
    if |r| > 0 {
      assert TrimLeft(r) == r;
      assert TrimRight(r) == r;
    }
  }

  // ---------------------------------------------------------------------
  // Case: Python's `str.lower()` on ASCII letters
  // ---------------------------------------------------------------------

  function LowerChar(c: char): char {
    if 'A' <= c <= 'Z' then (c as int + 32) as char else c
  }

  function Lower(s: string): (r: string)
    ensures |r| == |s| && forall i :: 0 <= i < |s| ==> r[i] == LowerChar(s[i])
  {
    seq(|s|, i requires 0 <= i < |s| => LowerChar(s[i]))
  }

  // ---------------------------------------------------------------------
  // Splitting on one character: Python's `s.split(".")`
  // ---------------------------------------------------------------------

  function Split(s: string, sep: char): (parts: seq<string>)
    ensures |parts| >= 1
  {
    if |s| == 0 then [""]
    else
      var rest := Split(s[1..], sep);
      if s[0] == sep then [""] + rest else [[s[0]] + rest[0]] + rest[1..]
  }

  lemma {:induction false} SplitWithoutSeparator(s: string, sep: char)
    requires sep !in s
    ensures Split(s, sep) == [s]
  {
    if |s| > 0 {
      SplitWithoutSeparator(s[1..], sep);
      assert [s[0]] + s[1..] == s;
    }
  }

  /** Splitting `a.b` where `a` holds no separator gives `a` followed by the parts of `b`. */
  lemma {:induction false} SplitAtFirstSeparator(a: string, b: string, sep: char)
    requires sep !in a
    ensures Split(a + [sep] + b, sep) == [a] + Split(b, sep)
  {
    if |a| == 0 {
      assert a + [sep] + b == [sep] + b;
      assert ([sep] + b)[1..] == b;
    } else {
      var s := a + [sep] + b;
      assert s[1..] == a[1..] + [sep] + b;
      SplitAtFirstSeparator(a[1..], b, sep);
      assert [a[0]] + a[1..] == a;
    }
  }

  // ---------------------------------------------------------------------
  // Decimal numerals: Python's `str.isdigit()`, `int(s)` and `str(n)`
  // ---------------------------------------------------------------------

  predicate IsDigit(c: char) {
    '0' <= c <= '9'
  }

  /** Python's `s.isdigit()` restricted to ASCII digits: false on the empty string. */
  predicate IsDigits(s: string) {
    |s| > 0 && forall i :: 0 <= i < |s| ==> IsDigit(s[i])
  }

  function DigitChar(d: nat): (c: char)
    requires d < 10
    ensures IsDigit(c)
  {
    ('0' as int + d) as char
  }

  /** Python's `int(s)` on a string of ASCII digits (leading zeros allowed). */
  function ParseNat(s: string): nat
    requires forall i :: 0 <= i < |s| ==> IsDigit(s[i])
  {
    if |s| == 0 then 0
    else ParseNat(s[..|s| - 1]) * 10 + DigitValue(s[|s| - 1])
  }

  function DigitValue(c: char): (d: nat)
    requires IsDigit(c)
    ensures d < 10
  {
    c as int - '0' as int
  }

  /** Python's `str(n)` for a natural number. */
  function NatToString(n: nat): (s: string)
    ensures IsDigits(s)
  {
    if n < 10 then [DigitChar(n)] else NatToString(n / 10) + [DigitChar(n % 10)]
  }

  /** `int(str(n)) == n`. */
  lemma {:induction false} ParseNatToString(n: nat)
    ensures ParseNat(NatToString(n)) == n
  {
    if n >= 10 {
      var s := NatToString(n);
      assert s[..|s| - 1] == NatToString(n / 10);
      ParseNatToString(n / 10);
    }
  }

  // ---------------------------------------------------------------------
  // Python's `s.replace(pat, "")`
  // ---------------------------------------------------------------------

  /** Deletes the non-overlapping occurrences of `pat`, scanning left to
      right; an empty pattern leaves `s` unchanged. */
  function RemoveAll(s: string, pat: string): (r: string)
    ensures |r| <= |s|
    ensures !Contains(s, pat) ==> r == s
    decreases |s|
  {
    if |pat| == 0 then s
    else if |s| < |pat| then s
    else if s[..|pat|] == pat then
      assert OccursAt(s, pat, 0);
      RemoveAll(s[|pat|..], pat)
    else
      assert !Contains(s, pat) ==> !Contains(s[1..], pat) by {
        if Contains(s[1..], pat) {
          var i :| 0 <= i <= |s[1..]| - |pat| && OccursAt(s[1..], pat, i);
          OccursShift(s, pat, i);
        }
      }
      assert [s[0]] + s[1..] == s by {
        assert |[s[0]] + s[1..]| == |s|;
        forall k | 0 <= k < |s| ensures ([s[0]] + s[1..])[k] == s[k] { }
      }
      [s[0]] + RemoveAll(s[1..], pat)
  }
}
