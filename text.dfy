/** String helpers with the meaning of the Python string operations the report
    generator relies on: `lower()` and `strip()` (on ASCII), `split(sep)`,
    `sep.join(parts)`, the substring test `k in s`, slicing `s[:n]` and `str(n)`
    for a non-negative integer. */
module Text {

  /** `str.isspace()` on the ASCII range: space, \t, \n, \v, \f, \r and the
      four separators \x1c-\x1f. */
  predicate IsSpace(c: char)
  {
    c == ' ' || c == '\t' || c == '\n' || c == '\r' || c == '\U{B}' || c == '\U{C}'
    || ('\U{1C}' <= c <= '\U{1F}')
  }

  predicate IsUpper(c: char)
  {
    'A' <= c <= 'Z'
  }

  function LowerChar(c: char): (r: char)
    ensures !IsUpper(r)
    ensures IsSpace(r) == IsSpace(c)
    ensures !IsUpper(c) ==> r == c
  {
    if IsUpper(c) then (c as int + 32) as char else c
  }

  /** `s.lower()`: every ASCII capital replaced by its small letter. */
  function Lower(s: string): (r: string)
    ensures |r| == |s|
    ensures forall i :: 0 <= i < |s| ==> r[i] == LowerChar(s[i])
  {
    seq(|s|, i requires 0 <= i < |s| => LowerChar(s[i]))
  }

  /** No ASCII capital occurs in `s`. */
  predicate IsLowerCase(s: string)
  {
    forall i :: 0 <= i < |s| ==> !IsUpper(s[i])
  }

  // ---------------------------------------------------------------------------
  // Substrings

  /** `k` occurs in `s` starting at index `i`. */
  predicate OccursAt(s: string, k: string, i: int)
  {
    0 <= i && i + |k| <= |s| && s[i..i + |k|] == k
  }

  /** Every word of `keywords` is non-empty and has no whitespace at its ends,
      so stripping a piece that holds it cannot cut into it. */
  predicate WordLike(keywords: seq<string>)
  {
    forall j :: 0 <= j < |keywords| ==>
      keywords[j] != [] && !IsSpace(keywords[j][0]) && !IsSpace(keywords[j][|keywords[j]| - 1])
  }

  /** Appending is associative; stated once so that long chains of appends
      need not be re-associated by the solver. */
  lemma ConcatAssoc<T>(a: seq<T>, b: seq<T>, c: seq<T>)
    ensures (a + b) + c == a + (b + c)
  {
  }

  /** Python's `k in s` for two strings. */
  predicate Contains(s: string, k: string)
  {
    exists i | 0 <= i && i + |k| <= |s| :: OccursAt(s, k, i)
  }

  /** `any(k in text for k in keywords)`. */
  predicate AnyKeyword(text: string, keywords: seq<string>)
  {
    exists j :: 0 <= j < |keywords| && Contains(text, keywords[j])
  }

  lemma ContainsPrefix(a: string, b: string)
    ensures Contains(a + b, a)
  {
    assert OccursAt(a + b, a, 0);
  }

  lemma ContainsSuffix(a: string, b: string)
    ensures Contains(a + b, b)
  {
    assert OccursAt(a + b, b, |a|);
  }

  lemma ContainsSelf(s: string)
    ensures Contains(s, s)
  {
    assert OccursAt(s, s, 0);
  }

  /** Being a substring is transitive. */
  lemma ContainsTransitive(a: string, b: string, c: string)
    requires Contains(a, b) && Contains(b, c)
    ensures Contains(a, c)
  {
    var i :| 0 <= i && i + |b| <= |a| && OccursAt(a, b, i);
    var j :| 0 <= j && j + |c| <= |b| && OccursAt(b, c, j);
    forall t | 0 <= t < |c| ensures a[i + j + t] == c[t] {
      assert b[j + t] == c[t];
      assert a[i + (j + t)] == b[j + t];
    }
    assert a[i + j..i + j + |c|] == c;
    assert OccursAt(a, c, i + j);
  }

  /** A substring of `s` that occurs inside a longer string `t` (here `p + s + q`). */
  lemma ContainsInContext(p: string, s: string, q: string, k: string)
    requires Contains(s, k)
    ensures Contains(p + s + q, k)
  {
    ContainsSuffix(p, s);
    ContainsPrefix(p + s, q);
    ContainsTransitive(p + s, s, k);
    ContainsTransitive(p + s + q, p + s, k);
  }

  /** Lower-casing keeps substrings: the lowered piece occurs in the lowered whole. */
  lemma LowerKeepsContains(s: string, k: string)
    requires Contains(s, k)
    ensures Contains(Lower(s), Lower(k))
  {
    var i :| 0 <= i && i + |k| <= |s| && OccursAt(s, k, i);
    assert Lower(s)[i..i + |k|] == Lower(k);
    assert OccursAt(Lower(s), Lower(k), i);
  }

  lemma AnyKeywordWiden(text: string, keywords: seq<string>, wider: seq<string>)
    requires AnyKeyword(text, keywords)
    requires forall j :: 0 <= j < |keywords| ==> keywords[j] in wider
    ensures AnyKeyword(text, wider)
  {
    var j :| 0 <= j < |keywords| && Contains(text, keywords[j]);
    var j' :| 0 <= j' < |wider| && wider[j'] == keywords[j];
    assert Contains(text, wider[j']);
  }

  lemma AnyKeywordInContext(s: string, t: string, keywords: seq<string>)
    requires AnyKeyword(s, keywords) && Contains(t, s)
    ensures AnyKeyword(t, keywords)
  {
    var j :| 0 <= j < |keywords| && Contains(s, keywords[j]);
    ContainsTransitive(t, s, keywords[j]);
  }

  // ---------------------------------------------------------------------------
  // strip()

  /** `r` is `s` with the whitespace run at its start (of length `lo`) and the
      whitespace run at its end removed, and nothing else. */
  predicate StrippedAt(s: string, r: string, lo: int)
  {
    && 0 <= lo && lo + |r| <= |s| && s[lo..lo + |r|] == r
    && (forall i :: 0 <= i < lo ==> IsSpace(s[i]))
    && (forall i :: lo + |r| <= i < |s| ==> IsSpace(s[i]))
    && (r == [] || (!IsSpace(r[0]) && !IsSpace(r[|r| - 1])))
  }

  function TrimStart(s: string): (r: string)
    ensures |r| <= |s|
  {
    if |s| > 0 && IsSpace(s[0]) then TrimStart(s[1..]) else s
  }

  function TrimEnd(s: string): (r: string)
    ensures |r| <= |s|
  {
    if |s| > 0 && IsSpace(s[|s| - 1]) then TrimEnd(s[..|s| - 1]) else s
  }

  /** `TrimStart` drops exactly the leading whitespace run. */
  lemma {:induction false} TrimStartSpec(s: string)
    ensures TrimStart(s) == s[|s| - |TrimStart(s)|..]
    ensures TrimStart(s) == [] || !IsSpace(TrimStart(s)[0])
    ensures forall i :: 0 <= i < |s| - |TrimStart(s)| ==> IsSpace(s[i])
    decreases |s|
  {
    if |s| > 0 && IsSpace(s[0]) {
      TrimStartSpec(s[1..]);
      var r := TrimStart(s);
      assert s[1..][|s| - 1 - |r|..] == s[|s| - |r|..];
      forall i | 0 <= i < |s| - |r| ensures IsSpace(s[i]) {
        if i > 0 { assert s[i] == s[1..][i - 1]; }
      }
    }
  }

  /** `TrimEnd` drops exactly the trailing whitespace run. */
  lemma {:induction false} TrimEndSpec(s: string)
    ensures TrimEnd(s) == s[..|TrimEnd(s)|]
    ensures TrimEnd(s) == [] || !IsSpace(TrimEnd(s)[|TrimEnd(s)| - 1])
    ensures forall i :: |TrimEnd(s)| <= i < |s| ==> IsSpace(s[i])
    decreases |s|
  {
    if |s| > 0 && IsSpace(s[|s| - 1]) {
      TrimEndSpec(s[..|s| - 1]);
      var r := TrimEnd(s);
      assert s[..|s| - 1][..|r|] == s[..|r|];
      forall i | |r| <= i < |s| ensures IsSpace(s[i]) {
        if i < |s| - 1 { assert s[i] == s[..|s| - 1][i]; }
      }
    }
  }

  /** `s.strip()`: `s` without its leading and trailing whitespace
      (`StripSpec` states this exactly). */
  function Strip(s: string): (r: string)
    ensures |r| <= |s|
  {
    TrimEnd(TrimStart(s))
  }

  /** What `strip()` yields: the slice of `s` left after dropping the
      whitespace run at each end; it is empty exactly when `s` is all whitespace. */
  lemma StripSpec(s: string)
    ensures StrippedAt(s, Strip(s), |s| - |TrimStart(s)|)
    ensures Strip(s) == [] <==> forall i :: 0 <= i < |s| ==> IsSpace(s[i])
  {
    TrimBoth(s);
  }

  lemma {:induction false} TrimBoth(s: string)
    ensures StrippedAt(s, TrimEnd(TrimStart(s)), |s| - |TrimStart(s)|)
    ensures TrimEnd(TrimStart(s)) == [] <==> forall i :: 0 <= i < |s| ==> IsSpace(s[i])
  {
    TrimStartSpec(s);
    TrimEndSpec(TrimStart(s));
    var t := TrimStart(s);
    var r := TrimEnd(t);
    var lo := |s| - |t|;
    assert t == s[lo..];
    assert r == t[..|r|];
    assert s[lo..lo + |r|] == r;
    TrimBothTrailing(s);
    TrimBothEmpty(s);
  }

  lemma {:induction false} TrimBothTrailing(s: string)
    ensures var t := TrimStart(s); var r := TrimEnd(t);
      forall i :: |s| - |t| + |r| <= i < |s| ==> IsSpace(s[i])
  {
    TrimStartSpec(s);
    TrimEndSpec(TrimStart(s));
    var t := TrimStart(s);
    var r := TrimEnd(t);
    var lo := |s| - |t|;
    assert t == s[lo..];
    forall i | lo + |r| <= i < |s| ensures IsSpace(s[i]) {
      assert s[i] == t[i - lo];
    }
  }

  lemma {:induction false} TrimBothEmpty(s: string)
    ensures var t := TrimStart(s); var r := TrimEnd(t);
      (r == [] <==> forall i :: 0 <= i < |s| ==> IsSpace(s[i]))
      && (r != [] ==> r[0] == s[|s| - |t|])
  {
    TrimStartSpec(s);
    TrimEndSpec(TrimStart(s));
    var t := TrimStart(s);
    var r := TrimEnd(t);
    var lo := |s| - |t|;
    assert t == s[lo..];
    if r != [] {
      assert r[0] == t[0] == s[lo];
    } else {
      assert |t| == 0;
    }
  }

  lemma StripContained(s: string)
    ensures Contains(s, Strip(s))
  {
    StripSpec(s);
    assert OccursAt(s, Strip(s), |s| - |TrimStart(s)|);
  }

  /** A character of `s.strip()` is a character of `s`. */
  lemma StripChars(s: string, c: char)
    requires c in Strip(s)
    ensures c in s
  {
    var lo := |s| - |TrimStart(s)|;
    var r := Strip(s);
    StripSpec(s);
    var i :| 0 <= i < |r| && r[i] == c;
    assert s[lo + i] == c;
  }

  /** A word with no whitespace at its ends that occurs in `s` also occurs in
      `s.strip()`: stripping only removes whitespace. */
  lemma {:induction false} StripKeepsWord(s: string, k: string)
    requires Contains(s, k)
    requires k != [] && !IsSpace(k[0]) && !IsSpace(k[|k| - 1])
    ensures Contains(Strip(s), k)
  {
    var lo := |s| - |TrimStart(s)|;
    var r := Strip(s);
    StripSpec(s);
    var i :| 0 <= i && i + |k| <= |s| && OccursAt(s, k, i);
    assert s[i] == k[0] by { assert s[i..i + |k|][0] == s[i]; }
    assert s[i + |k| - 1] == k[|k| - 1] by { assert s[i..i + |k|][|k| - 1] == s[i + |k| - 1]; }
    assert lo <= i;
    assert i + |k| <= lo + |r|;
    forall t | 0 <= t < |k| ensures r[i - lo + t] == k[t] {
      assert r[i - lo + t] == s[lo..lo + |r|][i - lo + t] == s[i + t];
      assert s[i..i + |k|][t] == s[i + t];
    }
    assert r[i - lo..i - lo + |k|] == k;
    assert OccursAt(r, k, i - lo);
  }

  lemma {:induction false} LowerTrimStart(s: string)
    ensures Lower(TrimStart(s)) == TrimStart(Lower(s))
    decreases |s|
  {
    if |s| > 0 && IsSpace(s[0]) {
      assert Lower(s)[1..] == Lower(s[1..]);
      LowerTrimStart(s[1..]);
    }
  }

  lemma {:induction false} LowerTrimEnd(s: string)
    ensures Lower(TrimEnd(s)) == TrimEnd(Lower(s))
    decreases |s|
  {
    if |s| > 0 && IsSpace(s[|s| - 1]) {
      assert Lower(s)[..|s| - 1] == Lower(s[..|s| - 1]);
      LowerTrimEnd(s[..|s| - 1]);
    }
  }

  /** Lower-casing and stripping commute. */
  lemma LowerStrip(s: string)
    ensures Lower(Strip(s)) == Strip(Lower(s))
  {
    LowerTrimStart(s);
    LowerTrimEnd(TrimStart(s));
  }

  /** Lower-casing leaves no capitals behind. */
  lemma LowerIsLowerCase(s: string)
    ensures IsLowerCase(Lower(s))
  {
  }

  lemma StripOfLowerCase(s: string)
    requires IsLowerCase(s)
    ensures IsLowerCase(Strip(s))
  {
    var lo := |s| - |TrimStart(s)|;
    var r := Strip(s);
    StripSpec(s);
    forall i | 0 <= i < |r| ensures !IsUpper(r[i]) {
      assert r[i] == s[lo + i];
    }
  }

  // ---------------------------------------------------------------------------
  // split() and join()

  /** `s.split(sep)`: the pieces between occurrences of `sep`; always at least
      one piece, and no piece holds `sep`. */
  function Split(s: string, sep: char): (parts: seq<string>)
    ensures |parts| >= 1
    ensures forall i :: 0 <= i < |parts| ==> sep !in parts[i]
  {
    if |s| == 0 then [""]
    else
      var rest := Split(s[1..], sep);
      if s[0] == sep then [""] + rest else [[s[0]] + rest[0]] + rest[1..]
  }

  /** `sep.join(parts)`. */
  function Join(parts: seq<string>, sep: string): string
  {
    if |parts| == 0 then ""
    else if |parts| == 1 then parts[0]
    else parts[0] + sep + Join(parts[1..], sep)
  }

  /** Joining the pieces of a split with the separator gives the string back. */
  lemma {:induction false} JoinSplit(s: string, sep: char)
    ensures Join(Split(s, sep), [sep]) == s
    decreases |s|
  {
    if |s| > 0 {
      var rest := Split(s[1..], sep);
      JoinSplit(s[1..], sep);
      if s[0] == sep {
        assert ([""] + rest)[1..] == rest;
      } else {
        var parts := [[s[0]] + rest[0]] + rest[1..];
        if |rest| > 1 {
          assert parts[1..] == rest[1..];
          assert Join(rest, [sep]) == rest[0] + [sep] + Join(rest[1..], [sep]);
        }
      }
    }
  }

  /** Splitting `a + t`, where `a` holds no separator, glues `a` to the first piece of `t`. */
  lemma {:induction false} SplitNoSeparatorPrefix(a: string, t: string, sep: char)
    requires sep !in a
    ensures Split(a + t, sep) == [a + Split(t, sep)[0]] + Split(t, sep)[1..]
    decreases |a|
  {
    var parts := Split(t, sep);
    if |a| > 0 {
      assert (a + t)[1..] == a[1..] + t;
      assert (a + t)[0] == a[0];
      SplitNoSeparatorPrefix(a[1..], t, sep);
      assert [a[0]] + (a[1..] + parts[0]) == a + parts[0];
    } else {
      assert a + t == t;
      assert a + parts[0] == parts[0];
      assert parts == [parts[0]] + parts[1..];
    }
  }

  /** Splitting a join of separator-free pieces gives the pieces back. */
  lemma {:induction false} SplitJoin(parts: seq<string>, sep: char)
    requires |parts| >= 1
    requires forall i :: 0 <= i < |parts| ==> sep !in parts[i]
    ensures Split(Join(parts, [sep]), sep) == parts
    decreases |parts|
  {
    if |parts| == 1 {
      SplitNoSeparatorPrefix(parts[0], "", sep);
      assert parts[0] + "" == parts[0];
      assert parts == [parts[0]];
    } else {
      var tail := Join(parts[1..], [sep]);
      SplitJoin(parts[1..], sep);
      assert Join(parts, [sep]) == parts[0] + ([sep] + tail);
      SplitNoSeparatorPrefix(parts[0], [sep] + tail, sep);
      assert ([sep] + tail)[1..] == tail;
      assert Split([sep] + tail, sep) == [""] + parts[1..];
      assert parts[0] + "" == parts[0];
      assert parts == [parts[0]] + parts[1..];
    }
  }

  /** Every piece of a join occurs in the joined string. */
  lemma {:induction false} JoinContainsPart(parts: seq<string>, sep: string, j: int)
    requires 0 <= j < |parts|
    ensures Contains(Join(parts, sep), parts[j])
    decreases |parts|
  {
    if |parts| == 1 {
      ContainsSelf(parts[0]);
    } else if j == 0 {
      ContainsPrefix(parts[0], sep + Join(parts[1..], sep));
      assert Join(parts, sep) == parts[0] + (sep + Join(parts[1..], sep));
    } else {
      JoinContainsPart(parts[1..], sep, j - 1);
      ContainsInContext(parts[0] + sep, Join(parts[1..], sep), "", parts[j]);
      assert parts[0] + sep + Join(parts[1..], sep) + "" == Join(parts, sep);
    }
  }

  /** Every piece of `s.split(sep)` is a substring of `s`. */
  lemma SplitPartContained(s: string, sep: char, j: int)
    requires 0 <= j < |Split(s, sep)|
    ensures Contains(s, Split(s, sep)[j])
  {
    JoinSplit(s, sep);
    JoinContainsPart(Split(s, sep), [sep], j);
  }

  // ---------------------------------------------------------------------------
  // Slicing and decimal rendering

  /** Python's `xs[:n]`. */
  function Take<T>(xs: seq<T>, n: nat): (r: seq<T>)
    ensures |r| <= n && |r| <= |xs|
    ensures r == xs[..|r|]
    ensures |xs| <= n ==> r == xs
    ensures n <= |xs| ==> |r| == n
  {
    if |xs| <= n then xs else xs[..n]
  }

  predicate IsDigit(c: char)
  {
    '0' <= c <= '9'
  }

  function DigitChar(d: nat): (c: char)
    requires d < 10
    ensures IsDigit(c)
  {
    "0123456789"[d]
  }

  function DigitValue(c: char): nat
    requires IsDigit(c)
  {
    c as int - '0' as int
  }

  /** `str(n)` for a non-negative integer: its decimal digits, most significant first. */
  function NatToString(n: nat): (r: string)
    ensures |r| >= 1
    ensures forall i :: 0 <= i < |r| ==> IsDigit(r[i])
  {
    if n < 10 then [DigitChar(n)] else NatToString(n / 10) + [DigitChar(n % 10)]
  }

  /** The number a string of decimal digits denotes (the inverse of `NatToString`). */
  function DecimalValue(s: string): nat
    requires forall i :: 0 <= i < |s| ==> IsDigit(s[i])
  {
    if |s| == 0 then 0 else DecimalValue(s[..|s| - 1]) * 10 + DigitValue(s[|s| - 1])
  }

  lemma {:induction false} DecimalRoundTrip(n: nat)
    ensures DecimalValue(NatToString(n)) == n
  {
    if n >= 10 {
      var s := NatToString(n);
      assert s[..|s| - 1] == NatToString(n / 10);
      DecimalRoundTrip(n / 10);
    }
  }

  /** Distinct numbers render as distinct strings. */
  lemma NatToStringInjective(m: nat, n: nat)
    requires NatToString(m) == NatToString(n)
    ensures m == n
  {
    DecimalRoundTrip(m);
    DecimalRoundTrip(n);
  }
}
