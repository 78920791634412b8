/** The .NET string operations the core relies on: string.IsNullOrWhiteSpace,
    Trim, ToUpperInvariant / ToLowerInvariant, EndsWith, Contains, integer
    formatting and Path.GetExtension. */
module Text {

  /** char.IsWhiteSpace, restricted to the ASCII white space characters plus
      NEXT LINE (U+0085) and NO-BREAK SPACE (U+00A0). */
  predicate IsWhiteSpace(c: char) {
    c == ' ' || c == '\t' || c == '\n' || c == '\U{0B}' || c == '\U{0C}' || c == '\r'
    || c == '\U{85}' || c == '\U{A0}'
  }

  /** string.IsNullOrWhiteSpace (a null string is modelled as ""). */
  predicate IsBlank(s: string) {
    forall i :: 0 <= i < |s| ==> IsWhiteSpace(s[i])
  }

  /** A string with no white space at either end. */
  predicate Trimmed(s: string) {
    s == [] || (!IsWhiteSpace(s[0]) && !IsWhiteSpace(s[|s| - 1]))
  }

  function TrimStart(s: string): (r: string)
    ensures |r| <= |s|
  {
    if s != [] && IsWhiteSpace(s[0]) then TrimStart(s[1..]) else s
  }

  function TrimEnd(s: string): (r: string)
    ensures |r| <= |s|
  {
    if s != [] && IsWhiteSpace(s[|s| - 1]) then TrimEnd(s[..|s| - 1]) else s
  }

  /** TrimStart drops only white space, and stops at a character that is not. */
  lemma {:induction false} TrimStartSpec(s: string)
    ensures forall i :: 0 <= i < |s| - |TrimStart(s)| ==> IsWhiteSpace(s[i])
    ensures TrimStart(s) == [] || !IsWhiteSpace(TrimStart(s)[0])
    decreases |s|
  {
    if s != [] && IsWhiteSpace(s[0]) {
      TrimStartSpec(s[1..]);
      forall i | 1 <= i < |s| - |TrimStart(s)| ensures IsWhiteSpace(s[i]) {
        assert s[i] == s[1..][i - 1];
      }
    }
  }

  /** TrimEnd drops only white space, and stops at a character that is not. */
  lemma {:induction false} TrimEndSpec(s: string)
    ensures forall i :: |TrimEnd(s)| <= i < |s| ==> IsWhiteSpace(s[i])
    ensures TrimEnd(s) == [] || !IsWhiteSpace(TrimEnd(s)[|TrimEnd(s)| - 1])
    decreases |s|
  {
    if s != [] && IsWhiteSpace(s[|s| - 1]) {
      TrimEndSpec(s[..|s| - 1]);
      forall i | |TrimEnd(s)| <= i < |s| - 1 ensures IsWhiteSpace(s[i]) {
        assert s[i] == s[..|s| - 1][i];
      }
    }
  }

  /** TrimStart drops a prefix: what it keeps is a suffix of its input. */
  lemma {:induction false} TrimStartSuffix(s: string)
    ensures TrimStart(s) == s[|s| - |TrimStart(s)|..]
    decreases |s|
  {
    if s != [] && IsWhiteSpace(s[0]) {
      TrimStartSuffix(s[1..]);
      assert s[1..][|s| - 1 - |TrimStart(s)|..] == s[|s| - |TrimStart(s)|..];
    }
  }

  /** TrimEnd drops a suffix: what it keeps is a prefix of its input. */
  lemma {:induction false} TrimEndPrefix(s: string)
    ensures TrimEnd(s) == s[..|TrimEnd(s)|]
    decreases |s|
  {
    if s != [] && IsWhiteSpace(s[|s| - 1]) {
      TrimEndPrefix(s[..|s| - 1]);
      assert s[..|s| - 1][..|TrimEnd(s)|] == s[..|TrimEnd(s)|];
    }
  }

  /** string.Trim: the input without its leading and trailing white space. */
  function Trim(s: string): (r: string)
    ensures Trimmed(r)
    ensures |r| <= |s|
  {
    TrimStartSpec(s);
    TrimEndSpec(TrimStart(s));
    TrimEndPrefix(TrimStart(s));
    TrimEnd(TrimStart(s))
  }

  /** Trim removes white space only: it keeps a middle slice of its input. */
  lemma TrimIsSlice(s: string)
    ensures exists a, b :: 0 <= a <= b <= |s| && Trim(s) == s[a..b]
  {
    var t := TrimStart(s);
    var a := |s| - |t|;
    var r := TrimEnd(t);
    TrimStartSuffix(s);
    TrimEndPrefix(t);
    assert r == s[a..a + |r|];
  }

  /** A string with no white space at either end is not blank and trims to
      itself. */
  lemma TrimmedWord(s: string)
    requires s != [] && !IsWhiteSpace(s[0]) && !IsWhiteSpace(s[|s| - 1])
    ensures !IsBlank(s) && Trim(s) == s
  {
    TrimOfTrimmed(s);
  }

  lemma TrimOfTrimmed(s: string)
    requires Trimmed(s)
    ensures Trim(s) == s
  {
    assert TrimStart(s) == s;
  }

  lemma TrimIdempotent(s: string)
    ensures Trim(Trim(s)) == Trim(s)
  {
    TrimOfTrimmed(Trim(s));
  }

  /** IsNullOrWhiteSpace holds exactly when Trim leaves nothing. */
  lemma BlankIffTrimEmpty(s: string)
    ensures IsBlank(s) <==> Trim(s) == []
  {
    var t := TrimStart(s);
    TrimStartSuffix(s);
    TrimStartSpec(s);
    TrimEndSpec(t);
    if Trim(s) == [] && t != [] {
      assert false;
    }
  }

  /** Once trimmed, a non-blank string is non-empty and the other way round. */
  lemma TrimNotBlank(s: string)
    ensures !IsBlank(s) <==> !IsBlank(Trim(s))
    ensures !IsBlank(s) <==> Trim(s) != []
  {
    BlankIffTrimEmpty(s);
    BlankIffTrimEmpty(Trim(s));
    TrimIdempotent(s);
  }

  function UpperChar(c: char): char {
    if 'a' <= c <= 'z' then (c as int - 'a' as int + 'A' as int) as char else c
  }

  function LowerChar(c: char): char {
    if 'A' <= c <= 'Z' then (c as int - 'A' as int + 'a' as int) as char else c
  }

  /** ToUpperInvariant, for the ASCII letters. */
  function ToUpper(s: string): (r: string)
    ensures |r| == |s| && forall i :: 0 <= i < |s| ==> r[i] == UpperChar(s[i])
  {
    seq(|s|, i requires 0 <= i < |s| => UpperChar(s[i]))
  }

  /** ToLowerInvariant, for the ASCII letters. */
  function ToLower(s: string): (r: string)
    ensures |r| == |s| && forall i :: 0 <= i < |s| ==> r[i] == LowerChar(s[i])
  {
    seq(|s|, i requires 0 <= i < |s| => LowerChar(s[i]))
  }

  lemma ToUpperIdempotent(s: string)
    ensures ToUpper(ToUpper(s)) == ToUpper(s)
  {
  }

  lemma {:induction false} TrimStartUpper(s: string)
    ensures TrimStart(ToUpper(s)) == ToUpper(TrimStart(s))
    decreases |s|
  {
    if s != [] {
      assert ToUpper(s)[1..] == ToUpper(s[1..]);
      TrimStartUpper(s[1..]);
    }
  }

  lemma {:induction false} TrimEndUpper(s: string)
    ensures TrimEnd(ToUpper(s)) == ToUpper(TrimEnd(s))
    decreases |s|
  {
    if s != [] {
      assert ToUpper(s)[..|s| - 1] == ToUpper(s[..|s| - 1]);
      TrimEndUpper(s[..|s| - 1]);
    }
  }

  /** Upper-casing and trimming commute (white space has no case). */
  lemma TrimUpperCommute(s: string)
    ensures Trim(ToUpper(s)) == ToUpper(Trim(s))
  {
    TrimStartUpper(s);
    TrimEndUpper(TrimStart(s));
  }

  lemma UpperCharWhiteSpace(c: char)
    ensures IsWhiteSpace(UpperChar(c)) <==> IsWhiteSpace(c)
    ensures LowerChar(UpperChar(c)) == LowerChar(c)
  {
  }

  /** Upper-casing a trimmed string leaves it trimmed. */
  lemma UpperTrimmed(t: string)
    requires Trimmed(t)
    ensures Trimmed(ToUpper(t))
  {
    if t != [] {
      UpperCharWhiteSpace(t[0]);
      UpperCharWhiteSpace(t[|t| - 1]);
    }
  }

  lemma UpperKeepsBlank(s: string)
    ensures IsBlank(ToUpper(s)) <==> IsBlank(s)
  {
  }

  /** string.EndsWith with ordinal comparison. */
  predicate EndsWith(s: string, suffix: string) {
    |suffix| <= |s| && s[|s| - |suffix|..] == suffix
  }

  /** string.EndsWith with StringComparison.OrdinalIgnoreCase. */
  predicate EndsWithIgnoreCase(s: string, suffix: string) {
    EndsWith(ToLower(s), ToLower(suffix))
  }

  /** string.Contains with ordinal comparison. */
  predicate Contains(s: string, sub: string) {
    exists k :: 0 <= k <= |s| - |sub| && OccursAt(s, sub, k)
  }

  predicate OccursAt(s: string, sub: string, k: nat) {
    k + |sub| <= |s| && s[k..k + |sub|] == sub
  }

  predicate IsDigit(c: char) {
    '0' <= c <= '9'
  }

  function DigitChar(d: nat): (c: char)
    requires d < 10
    ensures IsDigit(c)
  {
    (d + '0' as int) as char
  }

  /** Int32.ToString for a non-negative value, as string interpolation
      writes it. */
  function NatToString(n: nat): (r: string)
    ensures r != [] && forall i :: 0 <= i < |r| ==> IsDigit(r[i])
    ensures n < 10 <==> |r| == 1
  {
    if n < 10 then [DigitChar(n)] else NatToString(n / 10) + [DigitChar(n % 10)]
  }

  /** Distinct numbers print as distinct strings. */
  lemma {:induction false} NatToStringInjective(a: nat, b: nat)
    requires NatToString(a) == NatToString(b)
    ensures a == b
    decreases a
  {
    if a >= 10 && b >= 10 {
      var sa, sb := NatToString(a), NatToString(b);
      assert sa[..|sa| - 1] == NatToString(a / 10);
      assert sb[..|sb| - 1] == NatToString(b / 10);
      NatToStringInjective(a / 10, b / 10);
      assert DigitChar(a % 10) == sa[|sa| - 1] == DigitChar(b % 10);
    }
  }

  /** A digit string followed by a separator that is not a digit can be split
      back into the same two parts. */
  lemma SplitAtSeparator(x: string, y: string, u: string, v: string, sep: char)
    requires !IsDigit(sep)
    requires forall i :: 0 <= i < |x| ==> IsDigit(x[i])
    requires forall i :: 0 <= i < |y| ==> IsDigit(y[i])
    requires x + [sep] + u == y + [sep] + v
    ensures x == y && u == v
  {
    var w := x + [sep] + u;
    assert w == y + [sep] + v;
    assert w[|x|] == sep && w[|y|] == sep;
    assert forall j :: 0 <= j < |y| ==> w[j] == y[j];
    assert forall j :: 0 <= j < |x| ==> w[j] == x[j];
    assert |x| == |y|;
    assert x == (x + [sep] + u)[..|x|];
    assert y == (y + [sep] + v)[..|y|];
    assert u == (x + [sep] + u)[|x| + 1..];
    assert v == (y + [sep] + v)[|y| + 1..];
  }

  /** Path.GetExtension on a path whose directory separator is '/': from the
      last '.' that comes after the last '/', unless that '.' ends the path. */
  function Extension(path: string): (r: string)
    ensures r == [] || (r[0] == '.' && |r| >= 2 && EndsWith(path, r))
  {
    var k := LastDotOrSlash(path, |path|);
    if 0 <= k < |path| - 1 && path[k] == '.' then path[k..] else ""
  }

  /** The greatest index below n holding '.' or '/', or -1 when there is none. */
  function LastDotOrSlash(path: string, n: nat): (k: int)
    requires n <= |path|
    ensures -1 <= k < n
    ensures k >= 0 ==> path[k] == '.' || path[k] == '/'
    ensures forall i :: k < i < n ==> path[i] != '.' && path[i] != '/'
  {
    if n == 0 then -1
    else if path[n - 1] == '.' || path[n - 1] == '/' then n - 1
    else LastDotOrSlash(path, n - 1)
  }

  /** Appending "." + t, where t is a non-empty run free of '.' and '/', gives
      the path the extension "." + t whatever came before. */
  lemma ExtensionOfSuffix(p: string, t: string)
    requires t != []
    requires forall i :: 0 <= i < |t| ==> t[i] != '.' && t[i] != '/'
    ensures Extension(p + "." + t) == "." + t
  {
    var s := p + "." + t;
    forall i | |p| < i < |s|
      ensures s[i] != '.' && s[i] != '/'
    {
      assert s[i] == t[i - |p| - 1];
    }
    LastDotOrSlashIs(s, |s|, |p|);
    assert s[|p|..] == "." + t;
  }

  /** The last '.' or '/' below n is at k when nothing between them is one. */
  lemma {:induction false} LastDotOrSlashIs(path: string, n: nat, k: nat)
    requires k < n <= |path|
    requires path[k] == '.' || path[k] == '/'
    requires forall i :: k < i < n ==> path[i] != '.' && path[i] != '/'
    ensures LastDotOrSlash(path, n) == k
  {
    if n - 1 != k {
      LastDotOrSlashIs(path, n - 1, k);
    }
  }

  /** Path.GetExtension does not depend on the case of the letters. */
  lemma ExtensionLower(path: string)
    ensures Extension(ToLower(path)) == ToLower(Extension(path))
  {
    var lp := ToLower(path);
    assert forall i :: 0 <= i < |path| ==> (lp[i] == '.' <==> path[i] == '.') && (lp[i] == '/' <==> path[i] == '/');
    LastDotOrSlashLower(path, |path|);
    var k := LastDotOrSlash(path, |path|);
    if 0 <= k < |path| - 1 && path[k] == '.' {
      assert ToLower(path[k..]) == lp[k..];
    }
  }

  lemma {:induction false} LastDotOrSlashLower(path: string, n: nat)
    requires n <= |path|
    ensures LastDotOrSlash(ToLower(path), n) == LastDotOrSlash(path, n)
  {
    if n > 0 {
      LastDotOrSlashLower(path, n - 1);
    }
  }
}
