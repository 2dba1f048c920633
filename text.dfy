/** Strings and POSIX paths as the application's Python code uses them:
    whitespace stripping and splitting, substring search, `os.path.basename`
    and `os.path.join`, and clipping a long text with a truncation marker. */
module Text {

  datatype Option<T> = None | Some(value: T)

  /** Python's `str.isspace` for a single character (the complete set of
      characters Python treats as whitespace in `strip` and `split`). */
  predicate IsSpace(c: char) {
    var n := c as int;
    (9 <= n <= 13) || (28 <= n <= 32) || n == 0x85 || n == 0xA0 || n == 0x1680 ||
    (0x2000 <= n <= 0x200A) || n == 0x2028 || n == 0x2029 || n == 0x202F ||
    n == 0x205F || n == 0x3000
  }

  /** `str.isalnum` restricted to ASCII letters and digits. */
  predicate IsAlnum(c: char) {
    ('a' <= c <= 'z') || ('A' <= c <= 'Z') || ('0' <= c <= '9')
  }

  predicate NoSpace(s: string) {
    forall i :: 0 <= i < |s| ==> !IsSpace(s[i])
  }

  /** `s` with its leading whitespace removed. */
  function TrimStart(s: string): (r: string)
    ensures |r| <= |s|
  {
    if s != [] && IsSpace(s[0]) then TrimStart(s[1..]) else s
  }

  /** `TrimStart` drops exactly the leading run of whitespace. */
  lemma {:induction false} TrimStartSpec(s: string)
    ensures var r := TrimStart(s);
      r == s[|s| - |r|..] && (r == [] || !IsSpace(r[0])) &&
      forall i :: 0 <= i < |s| - |r| ==> IsSpace(s[i])
  {
    if s != [] && IsSpace(s[0]) {
      TrimStartSpec(s[1..]);
    }
  }

  /** `s` with its trailing whitespace removed. */
  function TrimEnd(s: string): (r: string)
    ensures |r| <= |s|
  {
    if s != [] && IsSpace(s[|s| - 1]) then TrimEnd(s[..|s| - 1]) else s
  }

  /** `TrimEnd` drops exactly the trailing run of whitespace. */
  lemma {:induction false} TrimEndSpec(s: string)
    ensures var r := TrimEnd(s);
      r == s[..|r|] && (r == [] || !IsSpace(r[|r| - 1])) &&
      forall i :: |r| <= i < |s| ==> IsSpace(s[i])
  {
    if s != [] && IsSpace(s[|s| - 1]) {
      TrimEndSpec(s[..|s| - 1]);
    }
  }

  /** Python's `str.strip()`. */
  function Strip(s: string): string {
    TrimEnd(TrimStart(s))
  }

  /** What `strip` keeps is one contiguous piece of the input that neither
      begins nor ends with whitespace, and all it drops is whitespace. */
  lemma StripSpec(s: string)
    ensures var r := Strip(s);
      exists k :: OccursAt(s, r, k) &&
        (forall i :: 0 <= i < k ==> IsSpace(s[i])) &&
        (forall i :: k + |r| <= i < |s| ==> IsSpace(s[i]))
    ensures Strip(s) == [] || (!IsSpace(Strip(s)[0]) && !IsSpace(Strip(s)[|Strip(s)| - 1]))
    ensures Strip(s) == [] <==> forall i :: 0 <= i < |s| ==> IsSpace(s[i])
  {
    var t := TrimStart(s);
    var r := TrimEnd(t);
    var k := |s| - |t|;
    TrimStartSpec(s);
    TrimEndSpec(t);
    assert s[k..k + |r|] == r by {
      assert t == s[k..];
      assert r == t[..|r|];
    }
    forall i | k + |r| <= i < |s| ensures IsSpace(s[i]) {
      assert s[i] == t[i - k];
    }
    if r == [] {
      assert t == [];
    } else {
      assert r[0] == t[0];
      assert !IsSpace(r[0]);
      assert r[|r| - 1] == t[|r| - 1];
      assert s[k] == r[0];
    }
    assert r == Strip(s);
    assert OccursAt(s, r, k) &&
      (forall i :: 0 <= i < k ==> IsSpace(s[i])) &&
      (forall i :: k + |r| <= i < |s| ==> IsSpace(s[i]));
  }

  /** Text without whitespace is its own stripped form. */
  lemma StripNoSpace(s: string)
    requires forall i :: 0 <= i < |s| ==> !IsSpace(s[i])
    ensures Strip(s) == s
  {
    if s != [] {
      assert !IsSpace(s[0]) && !IsSpace(s[|s| - 1]);
    }
  }

  /** Stripping twice is stripping once. */
  lemma StripIdempotent(s: string)
    ensures Strip(Strip(s)) == Strip(s)
  {
    StripSpec(s);
    var r := Strip(s);
    assert TrimStart(r) == r;
  }

  /** Length of the leading run of non-whitespace characters. */
  function TokenEnd(s: string): (n: nat)
    ensures n <= |s|
  {
    if s == [] || IsSpace(s[0]) then 0 else 1 + TokenEnd(s[1..])
  }

  /** The leading run is free of whitespace and ends at whitespace or at the
      end of `s`. */
  lemma {:induction false} TokenEndSpec(s: string)
    ensures var n := TokenEnd(s);
      (forall i :: 0 <= i < n ==> !IsSpace(s[i])) && (n < |s| ==> IsSpace(s[n]))
  {
    if s != [] && !IsSpace(s[0]) {
      TokenEndSpec(s[1..]);
      var n := TokenEnd(s);
      forall i | 0 <= i < n ensures !IsSpace(s[i]) {
        if i > 0 {
          assert s[i] == s[1..][i - 1];
        }
      }
    }
  }

  /** Python's `str.lower` on ASCII letters; every other character is kept. */
  function Lower(s: string): (r: string)
    ensures |r| == |s|
  {
    if s == [] then []
    else [if 'A' <= s[0] <= 'Z' then (s[0] as int + 32) as char else s[0]] + Lower(s[1..])
  }

  /** Sequence prefix test (`str.startswith`). */
  predicate StartsWith(s: string, p: string) {
    |p| <= |s| && s[..|p|] == p
  }

  lemma StartsWithConcat(p: string, s: string)
    ensures StartsWith(p + s, p)
  {
    assert (p + s)[..|p|] == p;
  }

  predicate EndsWith(s: string, p: string) {
    |p| <= |s| && s[|s| - |p|..] == p
  }

  predicate OccursAt(s: string, pat: string, i: int) {
    0 <= i && i + |pat| <= |s| && s[i..i + |pat|] == pat
  }

  /** Python's `pat in s`. */
  predicate Contains(s: string, pat: string) {
    exists i :: 0 <= i <= |s| && OccursAt(s, pat, i)
  }

  /** The first index at or after `from` where `pat` occurs in `s`, or -1;
      the same answer as `str.find(pat, from)` and as a regular-expression
      match of a literal pattern started at offset `from`. */
  function Find(s: string, pat: string, from: nat): (r: int)
    ensures r == -1 || (from <= r && OccursAt(s, pat, r))
    ensures r == -1 ==> forall i :: from <= i ==> !OccursAt(s, pat, i)
    ensures r >= 0 ==> forall i :: from <= i < r ==> !OccursAt(s, pat, i)
    decreases |s| - from
  {
    if from + |pat| > |s| then -1
    else if s[from..from + |pat|] == pat then from
    else Find(s, pat, from + 1)
  }

  lemma FindContains(s: string, pat: string)
    ensures Find(s, pat, 0) >= 0 <==> Contains(s, pat)
  {
    if Contains(s, pat) {
      var i :| OccursAt(s, pat, i);
    }
  }

  /** A piece placed between two others is contained in the whole. */
  lemma ContainsMiddle(a: string, t: string, b: string)
    ensures Contains(a + t + b, t)
  {
    assert (a + t + b)[|a|..|a| + |t|] == t;
    assert OccursAt(a + t + b, t, |a|);
  }

  lemma ContainsGrow(a: string, s: string, b: string, t: string)
    requires Contains(s, t)
    ensures Contains(a + s + b, t)
  {
    var i :| 0 <= i <= |s| && OccursAt(s, t, i);
    assert i + |t| <= |s|;
    assert (a + s + b)[|a| + i..|a| + i + |t|] == s[i..i + |t|];
    assert OccursAt(a + s + b, t, |a| + i);
  }

  lemma ContainsSelf(t: string)
    ensures Contains(t, t)
  {
    assert OccursAt(t, t, 0);
  }

  /** Text found in `s` is still found after something is put in front. */
  lemma ContainsLeft(a: string, s: string, t: string)
    requires Contains(s, t)
    ensures Contains(a + s, t)
  {
    var i :| 0 <= i <= |s| && OccursAt(s, t, i);
    assert (a + s)[|a| + i..|a| + i + |t|] == s[i..i + |t|];
    assert OccursAt(a + s, t, |a| + i);
  }

  /** Text found in `s` is still found after something is appended. */
  lemma ContainsRight(s: string, b: string, t: string)
    requires Contains(s, t)
    ensures Contains(s + b, t)
  {
    var i :| 0 <= i <= |s| && OccursAt(s, t, i);
    assert (s + b)[i..i + |t|] == s[i..i + |t|];
    assert OccursAt(s + b, t, i);
  }

  /** `os.path.basename`: the text after the last `/` (all of `p` when it
      holds none). */
  function Basename(p: string): (r: string)
    ensures '/' !in r
  {
    if p == [] then []
    else if p[|p| - 1] == '/' then []
    else Basename(p[..|p| - 1]) + [p[|p| - 1]]
  }

  /** The base name is a suffix of the path that is either all of it or
      follows a `/`. */
  lemma {:induction false} BasenameSuffix(p: string)
    ensures var r := Basename(p);
      |r| <= |p| && r == p[|p| - |r|..] && (|r| == |p| || p[|p| - |r| - 1] == '/')
  {
    if p != [] && p[|p| - 1] != '/' {
      var q := p[..|p| - 1];
      BasenameSuffix(q);
      assert Basename(q) + [p[|p| - 1]] == p[|q| - |Basename(q)|..];
    }
  }

  /** The base name is the only suffix without `/` that is either the whole
      path or follows a `/`. */
  lemma BasenameUnique(p: string, r: string)
    requires '/' !in r && |r| <= |p| && r == p[|p| - |r|..] && (|r| == |p| || p[|p| - |r| - 1] == '/')
    ensures r == Basename(p)
  {
    BasenameSuffix(p);
  }

  lemma {:induction false} BasenameAppend(x: string, y: string)
    ensures '/' in y ==> Basename(x + y) == Basename(y)
    ensures '/' !in y ==> Basename(x + y) == Basename(x) + y
  {
    if y == [] {
      assert x + y == x;
    } else {
      var z := x + y;
      var y' := y[..|y| - 1];
      var c := y[|y| - 1];
      assert y == y' + [c];
      assert z[..|z| - 1] == x + y';
      assert z[|z| - 1] == c;
      BasenameAppend(x, y');
      if c == '/' {
        assert Basename(z) == [] && Basename(y) == [];
      } else {
        assert Basename(z) == Basename(x + y') + [c];
        assert Basename(y) == Basename(y') + [c];
        if '/' !in y' {
          assert '/' !in y;
          calc {
            Basename(z);
            Basename(x) + y' + [c];
            Basename(x) + y;
          }
        }
      }
    }
  }

  /** A name without `/` is its own base name. */
  lemma {:induction false} BasenameNoSlash(s: string)
    requires '/' !in s
    ensures Basename(s) == s
  {
    if s != [] {
      assert '/' !in s[..|s| - 1];
      BasenameNoSlash(s[..|s| - 1]);
      assert s[..|s| - 1] + [s[|s| - 1]] == s;
    }
  }

  /** `os.path.join(a, b)` for two POSIX path components. */
  function Join(a: string, b: string): string {
    if |b| > 0 && b[0] == '/' then b
    else if a == [] || a[|a| - 1] == '/' then a + b
    else a + "/" + b
  }

  /** Joining never changes the basename of the joined name. */
  lemma JoinBasename(a: string, b: string)
    ensures Basename(Join(a, b)) == Basename(b)
  {
    if '/' !in b {
      BasenameAppend([], b);
      assert [] + b == b;
    }
    if |b| > 0 && b[0] == '/' {
    } else if a == [] {
      assert a + b == b;
    } else if a[|a| - 1] == '/' {
      BasenameAppend(a, b);
      assert Basename(a) == [];
    } else {
      BasenameAppend(a + "/", b);
      assert Basename(a + "/") == [];
      assert a + "/" + b == (a + "/") + b;
    }
  }

  const TruncationMarker: string := "\n[... content truncated ...]\n"

  /** `content[:limit] + (marker if len(content) > limit else "")`. */
  function Clip(content: string, limit: nat): (r: string)
    ensures |content| <= limit ==> r == content
    ensures |content| > limit ==> r == content[..limit] + TruncationMarker
  {
    content[..if |content| <= limit then |content| else limit] +
      (if |content| > limit then TruncationMarker else "")
  }

  /** Every character of `s` for which `keep` holds, in order. */
  function Filter(s: string, keep: char -> bool): (r: string)
    ensures |r| <= |s|
    ensures forall i :: 0 <= i < |r| ==> keep(r[i])
  {
    if s == [] then []
    else (if keep(s[0]) then [s[0]] else []) + Filter(s[1..], keep)
  }

  lemma {:induction false} FilterKeepsAll(s: string, keep: char -> bool)
    requires forall i :: 0 <= i < |s| ==> keep(s[i])
    ensures Filter(s, keep) == s
  {
    if s != [] {
      FilterKeepsAll(s[1..], keep);
    }
  }

  lemma FilterMembers(s: string, keep: char -> bool, c: char)
    ensures c in Filter(s, keep) <==> c in s && keep(c)
  {
    if s != [] {
      FilterMembers(s[1..], keep, c);
      assert s == [s[0]] + s[1..];
    }
  }

  /** Decimal notation of a natural number, as Python's `str(n)`. */
  function Decimal(n: nat): (r: string)
    ensures |r| >= 1
    ensures forall i :: 0 <= i < |r| ==> '0' <= r[i] <= '9'
  {
    if n < 10 then [('0' as int + n) as char]
    else Decimal(n / 10) + [('0' as int + n % 10) as char]
  }

  function ParseDecimal(s: string): nat
    requires forall i :: 0 <= i < |s| ==> '0' <= s[i] <= '9'
  {
    if s == [] then 0
    else ParseDecimal(s[..|s| - 1]) * 10 + (s[|s| - 1] as int - '0' as int)
  }

  /** Reading back the decimal notation gives the number. */
  lemma {:induction false} DecimalRoundTrip(n: nat)
    ensures ParseDecimal(Decimal(n)) == n
  {
    if n >= 10 {
      DecimalRoundTrip(n / 10);
      var d := Decimal(n);
      assert d[..|d| - 1] == Decimal(n / 10);
    }
  }

  lemma DecimalInjective(n: nat, m: nat)
    requires Decimal(n) == Decimal(m)
    ensures n == m
  {
    DecimalRoundTrip(n);
    DecimalRoundTrip(m);
  }
}
