/** The few Python `str` operations the source relies on, over `seq<char>`:
    `strip`, `startswith`, `in`, `split`, `join`, `replace`, `lower`,
    slicing and `str()` of a non-negative integer. */
module Text {

  /** Python's `str.isspace()` for a single character. */
  predicate IsSpace(c: char) {
    || ('\t' <= c <= '\r')
    || ('\U{1c}' <= c <= '\U{1f}')
    || c == ' ' || c == '\U{85}' || c == '\U{a0}' || c == '\U{1680}'
    || ('\U{2000}' <= c <= '\U{200a}')
    || c == '\U{2028}' || c == '\U{2029}' || c == '\U{202f}' || c == '\U{205f}'
    || c == '\U{3000}'
  }

  /** No whitespace at either end. */
  predicate IsStripped(s: string) {
    |s| == 0 || (!IsSpace(s[0]) && !IsSpace(s[|s| - 1]))
  }

  /** `r` occurs in `s` starting at position `i`. */
  ghost predicate InfixAt(r: string, s: string, i: int) {
    0 <= i && i + |r| <= |s| && s[i..i + |r|] == r
  }

  function LStrip(s: string): (r: string)
    ensures |r| <= |s| && r == s[|s| - |r|..]
    ensures |r| == 0 || !IsSpace(r[0])
    ensures forall k :: 0 <= k < |s| - |r| ==> IsSpace(s[k])
  {
    if |s| > 0 && IsSpace(s[0]) then LStrip(s[1..]) else s
  }

  function RStrip(s: string): (r: string)
    ensures |r| <= |s| && r == s[..|r|]
    ensures |r| == 0 || !IsSpace(r[|r| - 1])
    ensures forall k :: |r| <= k < |s| ==> IsSpace(s[k])
  {
    if |s| > 0 && IsSpace(s[|s| - 1]) then RStrip(s[..|s| - 1]) else s
  }

  /** Where the stripped text starts: the number of leading whitespace
      characters. */
  function StripStart(s: string): (i: nat)
    ensures i <= |s|
  {
    |s| - |LStrip(s)|
  }

  /** Python's `s.strip()`: the infix of `s` starting at `StripStart(s)` that
      neither starts nor ends with whitespace, obtained by dropping only
      whitespace. */
  function Strip(s: string): (r: string)
    ensures IsStripped(r)
    ensures InfixAt(r, s, StripStart(s))
    ensures forall k :: 0 <= k < StripStart(s) ==> IsSpace(s[k])
    ensures forall k :: StripStart(s) + |r| <= k < |s| ==> IsSpace(s[k])
  {
    StripParts(s, LStrip(s), RStrip(LStrip(s)));
    RStrip(LStrip(s))
  }

  /** How the two halves of `strip` sit inside the original string. */
  lemma StripParts(s: string, l: string, r: string)
    requires |l| <= |s| && l == s[|s| - |l|..]
    requires |r| <= |l| && r == l[..|r|]
    requires forall k :: |r| <= k < |l| ==> IsSpace(l[k])
    ensures InfixAt(r, s, |s| - |l|)
    ensures forall k :: |s| - |l| + |r| <= k < |s| ==> IsSpace(s[k])
  {
    var i := |s| - |l|;
    assert s[i..i + |r|] == l[..|r|];
    forall k | i + |r| <= k < |s|
      ensures IsSpace(s[k])
    {
      assert s[k] == l[k - i];
    }
  }

  /** Stripping a stripped string changes nothing, so `strip` is idempotent. */
  lemma StripOfStripped(s: string)
    requires IsStripped(s)
    ensures Strip(s) == s
  {
  }

  lemma StripIdempotent(s: string)
    ensures Strip(Strip(s)) == Strip(s)
  {
    StripOfStripped(Strip(s));
  }

  predicate StartsWith(s: string, prefix: string) {
    |prefix| <= |s| && s[..|prefix|] == prefix
  }

  predicate OccursAt(s: string, t: string, i: int) {
    0 <= i && i + |t| <= |s| && s[i..i + |t|] == t
  }

  /** Python's substring test `t in s`. */
  predicate Contains(s: string, t: string) {
    exists i | 0 <= i <= |s| - |t| :: OccursAt(s, t, i)
  }

  lemma OccursShift(s: string, t: string, i: nat)
    requires |s| > 0
    ensures OccursAt(s, t, i + 1) <==> OccursAt(s[1..], t, i)
  {
    if i + 1 + |t| <= |s| {
      assert s[1..][i..i + |t|] == s[i + 1..i + 1 + |t|];
    }
  }

  /** Once the first position is ruled out, `t in s` is decided by the rest. */
  lemma ContainsTail(s: string, t: string)
    requires |s| > 0 && !OccursAt(s, t, 0)
    ensures Contains(s, t) <==> Contains(s[1..], t)
  {
    if Contains(s, t) {
      var i :| 0 <= i <= |s| - |t| && OccursAt(s, t, i);
      OccursShift(s, t, i - 1);
    }
    if Contains(s[1..], t) {
      var i :| 0 <= i <= |s[1..]| - |t| && OccursAt(s[1..], t, i);
      OccursShift(s, t, i);
    }
  }

  /** A string free of `t` has no infix containing `t`. */
  lemma NotContainsInfix(s: string, t: string, a: int, b: int)
    requires 0 <= a <= b <= |s| && !Contains(s, t)
    ensures !Contains(s[a..b], t)
  {
    if Contains(s[a..b], t) {
      var u := s[a..b];
      var i :| 0 <= i <= |u| - |t| && OccursAt(u, t, i);
      forall k | 0 <= k < |t|
        ensures s[a + i + k] == t[k]
      {
        assert u[i + k] == s[a + i + k];
      }
      assert s[a + i..a + i + |t|] == t;
      assert OccursAt(s, t, a + i);
    }
  }

  lemma ContainsMiddle(a: string, t: string, b: string)
    ensures Contains(a + t + b, t)
  {
    assert (a + t + b)[|a|..|a| + |t|] == t;
    assert OccursAt(a + t + b, t, |a|);
  }

  /** Stripping cannot create an occurrence. */
  lemma StripKeepsFree(s: string, t: string)
    requires !Contains(s, t)
    ensures !Contains(Strip(s), t)
  {
    var r := Strip(s);
    var i := StripStart(s);
    NotContainsInfix(s, t, i, i + |r|);
  }

  function Last(parts: seq<string>): string
    requires |parts| >= 1
  {
    parts[|parts| - 1]
  }

  /** Python's `s.split(sep)` for a non-empty separator: the pieces between
      the non-overlapping occurrences of `sep`, found left to right. */
  function Split(s: string, sep: string): (parts: seq<string>)
    requires |sep| > 0
    ensures |parts| >= 1
    decreases |s|
  {
    if |s| < |sep| then [s]
    else if s[..|sep|] == sep then [""] + Split(s[|sep|..], sep)
    else
      var rest := Split(s[1..], sep);
      [[s[0]] + rest[0]] + rest[1..]
  }

  /** Python's `sep.join(parts)`. */
  function Join(parts: seq<string>, sep: string): string
    requires |parts| >= 1
  {
    if |parts| == 1 then parts[0] else parts[0] + sep + Join(parts[1..], sep)
  }

  /** Python's `s.replace(pat, rep)` for a non-empty pattern: every
      non-overlapping occurrence, found left to right, is replaced. */
  function Replace(s: string, pat: string, rep: string): string
    requires |pat| > 0
  {
    Join(Split(s, pat), rep)
  }

  lemma JoinConsHead(x: string, parts: seq<string>, sep: string)
    requires |parts| >= 1
    ensures Join([x + parts[0]] + parts[1..], sep) == x + Join(parts, sep)
  {
    var q := [x + parts[0]] + parts[1..];
    if |parts| > 1 {
      assert q[1..] == parts[1..];
    }
  }

  /** Joining the pieces of a split with the same separator gives back the
      original string. */
  lemma {:induction false} JoinSplit(s: string, sep: string)
    requires |sep| > 0
    ensures Join(Split(s, sep), sep) == s
    decreases |s|
  {
    if |s| < |sep| {
    } else if s[..|sep|] == sep {
      var rest := Split(s[|sep|..], sep);
      JoinSplit(s[|sep|..], sep);
      assert ([""] + rest)[1..] == rest;
      assert s == sep + s[|sep|..];
    } else {
      var rest := Split(s[1..], sep);
      JoinSplit(s[1..], sep);
      JoinConsHead([s[0]], rest, sep);
      assert s == [s[0]] + s[1..];
    }
  }

  /** `s.split(sep)` has more than one piece exactly when `sep in s`; with
      one piece, that piece is `s` itself. */
  lemma {:induction false} SplitPieces(s: string, sep: string)
    requires |sep| > 0
    ensures |Split(s, sep)| > 1 <==> Contains(s, sep)
    ensures |Split(s, sep)| == 1 ==> Split(s, sep) == [s]
    decreases |s|
  {
    if |s| < |sep| {
    } else if s[..|sep|] == sep {
      assert OccursAt(s, sep, 0);
    } else {
      assert !OccursAt(s, sep, 0);
      ContainsTail(s, sep);
      SplitPieces(s[1..], sep);
      assert s == [s[0]] + s[1..];
    }
  }

  /** The last piece of `s.split(sep)` (Python's `s.split(sep)[-1]`) is a
      suffix of `s`. */
  lemma {:induction false} SplitLastSuffix(s: string, sep: string)
    requires |sep| > 0
    ensures |Last(Split(s, sep))| <= |s|
    ensures Last(Split(s, sep)) == s[|s| - |Last(Split(s, sep))|..]
    decreases |s|
  {
    if |s| < |sep| {
    } else if s[..|sep|] == sep {
      var s' := s[|sep|..];
      var rest := Split(s', sep);
      SplitLastSuffix(s', sep);
      var q := [""] + rest;
      assert Split(s, sep) == q;
      assert q[|q| - 1] == rest[|rest| - 1];
      var t := Last(rest);
      assert s'[|s'| - |t|..] == s[|s| - |t|..];
    } else {
      var s' := s[1..];
      var rest := Split(s', sep);
      SplitLastSuffix(s', sep);
      if |rest| == 1 {
        SplitPieces(s', sep);
        assert Split(s, sep) == [[s[0]] + s'];
        assert s == [s[0]] + s';
      } else {
        SplitLastOfTail(s, sep);
        var t := Last(rest);
        assert s'[|s'| - |t|..] == s[|s| - |t|..];
      }
    }
  }

  /** The last piece of `s.split(sep)` holds no occurrence of `sep`. */
  lemma {:induction false} SplitLastFree(s: string, sep: string)
    requires |sep| > 0
    ensures !Contains(Last(Split(s, sep)), sep)
    decreases |s|
  {
    if |s| < |sep| {
    } else if s[..|sep|] == sep {
      var s' := s[|sep|..];
      var rest := Split(s', sep);
      SplitLastFree(s', sep);
      var q := [""] + rest;
      assert Split(s, sep) == q;
      assert q[|q| - 1] == rest[|rest| - 1];
    } else {
      var s' := s[1..];
      var rest := Split(s', sep);
      if |rest| == 1 {
        SplitPieces(s', sep);
        assert !OccursAt(s, sep, 0);
        ContainsTail(s, sep);
        assert s == [s[0]] + s';
        assert Split(s, sep) == [s];
      } else {
        SplitLastFree(s', sep);
        SplitLastOfTail(s, sep);
      }
    }
  }

  predicate EndsWith(s: string, suffix: string) {
    |suffix| <= |s| && s[|s| - |suffix|..] == suffix
  }

  lemma EndsWithPrepend(x: string, y: string, suffix: string)
    requires EndsWith(y, suffix)
    ensures EndsWith(x + y, suffix)
  {
    assert (x + y)[|x + y| - |suffix|..] == y[|y| - |suffix|..];
  }

  /** When `sep in s`, the text before the last piece of `s.split(sep)` ends
      with `sep`: the last piece is the text after the last separator. */
  lemma {:induction false} SplitLastAfterSep(s: string, sep: string)
    requires |sep| > 0 && Contains(s, sep)
    ensures |Last(Split(s, sep))| <= |s|
    ensures EndsWith(s[..|s| - |Last(Split(s, sep))|], sep)
    decreases |s|, 1
  {
    SplitLastSuffix(s, sep);
    if s[..|sep|] == sep {
      SplitAfterLeadingSep(s, sep);
    } else {
      var s' := s[1..];
      assert !OccursAt(s, sep, 0);
      ContainsTail(s, sep);
      SplitPieces(s', sep);
      SplitLastOfTail(s, sep);
      var t := Last(Split(s', sep));
      SplitLastSuffix(s', sep);
      SplitLastAfterSep(s', sep);
      assert s[..|s| - |t|] == [s[0]] + s'[..|s'| - |t|];
      EndsWithPrepend([s[0]], s'[..|s'| - |t|], sep);
    }
  }

  /** A string free of `[c]` holds no `c` at any position. */
  lemma NoCharAt(u: string, c: char)
    requires !Contains(u, [c])
    ensures forall j :: 0 <= j < |u| ==> u[j] != c
  {
    forall j | 0 <= j < |u|
      ensures u[j] != c
    {
      assert !OccursAt(u, [c], j);
      assert u[j..j + 1] == [u[j]];
    }
  }

  /** When `c` occurs in `s`, the last piece of `s.split(c)` is the suffix
      after an occurrence of `c` and holds no `c` itself. */
  lemma LastPieceShape(s: string, c: char)
    requires Contains(s, [c])
    ensures var t := Last(Split(s, [c]));
            && |t| < |s| && s[|s| - |t| - 1] == c && t == s[|s| - |t|..]
            && forall j :: 0 <= j < |t| ==> t[j] != c
  {
    var sep := [c];
    SplitLastAfterSep(s, sep);
    SplitLastSuffix(s, sep);
    SplitLastFree(s, sep);
    var t := Last(Split(s, sep));
    NoCharAt(t, c);
    var n := |s| - |t|;
    assert s[..n][n - 1] == c;
  }

  /** For a one-character separator, the last piece of `(x + sep + u).split(sep)`
      is `u` when `u` holds no separator. */
  lemma LastPieceAfterSep(x: string, c: char, u: string)
    requires !Contains(u, [c])
    ensures Last(Split(x + [c] + u, [c])) == u
  {
    var s := x + [c] + u;
    ContainsMiddle(x, [c], u);
    LastPieceShape(s, c);
    NoCharAt(u, c);
    var t := Last(Split(s, [c]));
    var n := |s| - |t|;
    assert forall k :: |x| < k < |s| ==> s[k] == u[k - |x| - 1];
    assert forall k :: n <= k < |s| ==> s[k] == t[k - n];
    assert s[|x|] == c;
    assert n - 1 == |x|;
    assert s[n..] == u;
  }

  /** When the first character starts no separator and the rest still holds
      one, the last piece is that of the rest. */
  lemma SplitLastOfTail(s: string, sep: string)
    requires |sep| > 0 && |sep| <= |s| && s[..|sep|] != sep
    requires |Split(s[1..], sep)| > 1
    ensures Last(Split(s, sep)) == Last(Split(s[1..], sep))
  {
    var rest := Split(s[1..], sep);
    var q := [[s[0]] + rest[0]] + rest[1..];
    assert Split(s, sep) == q;
    assert q[|q| - 1] == rest[|rest| - 1];
  }

  lemma {:induction false} SplitAfterLeadingSep(s: string, sep: string)
    requires |sep| > 0 && |sep| <= |s| && s[..|sep|] == sep
    ensures |Last(Split(s, sep))| <= |s|
    ensures EndsWith(s[..|s| - |Last(Split(s, sep))|], sep)
    decreases |s|, 0
  {
    var s' := s[|sep|..];
    var t := Last(Split(s', sep));
    SplitLastSuffix(s', sep);
    LastAfterLeadingSep(s, sep);
    var m := |s'| - |t|;
    if Contains(s', sep) {
      SplitLastAfterSep(s', sep);
    } else {
      SplitPieces(s', sep);
    }
    EndsWithSepPrefix(s, sep, m);
  }

  /** Behind a leading `sep`, a prefix of the rest that ends with `sep` still
      ends with it, and the empty prefix leaves `sep` itself. */
  lemma EndsWithSepPrefix(s: string, sep: string, m: nat)
    requires |sep| <= |s| && s[..|sep|] == sep
    requires m <= |s| - |sep|
    requires m == 0 || EndsWith(s[|sep|..][..m], sep)
    ensures EndsWith(s[..|sep| + m], sep)
  {
    var rest := s[|sep|..];
    assert s == sep + rest;
    PrefixOfConcat(sep, rest, m);
    if m == 0 {
      assert rest[..0] == [];
      assert sep + [] == sep;
    } else {
      EndsWithPrepend(sep, rest[..m], sep);
    }
  }

  /** A leading separator only adds an empty first piece. */
  lemma LastAfterLeadingSep(s: string, sep: string)
    requires |sep| > 0 && |sep| <= |s| && s[..|sep|] == sep
    ensures Last(Split(s, sep)) == Last(Split(s[|sep|..], sep))
  {
    SplitLeadingSep(s, sep);
    LastCons("", Split(s[|sep|..], sep));
  }

  lemma SplitLeadingSep(s: string, sep: string)
    requires |sep| > 0 && |sep| <= |s| && s[..|sep|] == sep
    ensures Split(s, sep) == [""] + Split(s[|sep|..], sep)
  {
  }

  lemma LastCons(x: string, rest: seq<string>)
    requires |rest| >= 1
    ensures Last([x] + rest) == Last(rest)
  {
  }

  lemma PrefixOfConcat(a: string, b: string, m: nat)
    requires m <= |b|
    ensures (a + b)[..|a| + m] == a + b[..m]
  {
  }

  /** Python's `s[:n]`. */
  function Truncate(s: string, n: nat): (r: string)
    ensures |r| == (if |s| < n then |s| else n)
    ensures r == s[..|r|]
  {
    if |s| <= n then s else s[..n]
  }

  /** `str.lower()` restricted to the ASCII letters. */
  function LowerChar(c: char): char {
    if 'A' <= c <= 'Z' then (c as int - 'A' as int + 'a' as int) as char else c
  }

  function Lower(s: string): (r: string)
    ensures |r| == |s|
    ensures forall i :: 0 <= i < |s| ==> r[i] == LowerChar(s[i])
  {
    if |s| == 0 then "" else [LowerChar(s[0])] + Lower(s[1..])
  }

  predicate IsDigit(c: char) {
    '0' <= c <= '9'
  }

  function DigitChar(d: nat): (c: char)
    requires d < 10
    ensures IsDigit(c)
  {
    ('0' as int + d) as char
  }

  /** Python's `str(n)` for a non-negative integer: decimal digits without
      leading zeros. */
  function NatToDecimal(n: nat): (r: string)
    ensures |r| >= 1
    ensures forall i :: 0 <= i < |r| ==> IsDigit(r[i])
    ensures r[0] == '0' ==> n == 0
    decreases n
  {
    if n < 10 then [DigitChar(n)] else NatToDecimal(n / 10) + [DigitChar(n % 10)]
  }

  function DigitValue(c: char): (d: nat)
    requires IsDigit(c)
    ensures d < 10
  {
    c as int - '0' as int
  }

  /** The number a string of decimal digits denotes. */
  function DecimalValue(s: string): nat
    requires forall i :: 0 <= i < |s| ==> IsDigit(s[i])
  {
    if |s| == 0 then 0
    else DecimalValue(s[..|s| - 1]) * 10 + DigitValue(s[|s| - 1])
  }

  /** Reading back the decimal rendering of `n` gives `n`. */
  lemma {:induction false} DecimalRoundTrip(n: nat)
    ensures DecimalValue(NatToDecimal(n)) == n
    decreases n
  {
    var r := NatToDecimal(n);
    if n >= 10 {
      DecimalRoundTrip(n / 10);
      assert r[..|r| - 1] == NatToDecimal(n / 10);
    }
  }
}
