/** The string operations the JavaScript code uses, on `seq<char>`. */
module Strings {

  /** `s.replace(/x/g, y)` for single characters `x` and `y`. */
  function ReplaceChar(s: string, x: char, y: char): (r: string)
    ensures |r| == |s|
    ensures forall i :: 0 <= i < |s| ==> r[i] == (if s[i] == x then y else s[i])
  {
    if s == [] then [] else [if s[0] == x then y else s[0]] + ReplaceChar(s[1..], x, y)
  }

  /** `s.replace(/\\/g, '/')`: every backslash becomes a forward slash. */
  function Slashes(s: string): (r: string)
    ensures |r| == |s| && '\\' !in r
  {
    var r := ReplaceChar(s, '\\', '/');
    assert forall i :: 0 <= i < |r| ==> r[i] != '\\';
    r
  }

  lemma SlashesIdempotent(s: string)
    ensures Slashes(Slashes(s)) == Slashes(s)
  {
    var t := Slashes(s);
    assert forall i :: 0 <= i < |t| ==> Slashes(t)[i] == t[i];
  }

  /** A string without backslashes is left alone by `Slashes`. */
  lemma SlashesNoOp(s: string)
    requires '\\' !in s
    ensures Slashes(s) == s
  {
    assert forall i :: 0 <= i < |s| ==> Slashes(s)[i] == s[i];
  }

  predicate StartsWith(s: string, p: string)
  {
    |p| <= |s| && s[..|p|] == p
  }

  /** `s.replace(/^p/, '')`: removes one leading `p`, if there is one. */
  function StripPrefix(s: string, p: string): (r: string)
    ensures StartsWith(s, p) ==> s == p + r
    ensures !StartsWith(s, p) ==> r == s
  {
    if StartsWith(s, p) then s[|p|..] else s
  }

  /** `s.includes(t)`. */
  predicate Contains(s: string, t: string)
    decreases |s|
  {
    StartsWith(s, t) || (s != [] && Contains(s[1..], t))
  }

  lemma {:induction false} ContainsMiddle(a: string, t: string, b: string)
    ensures Contains(a + t + b, t)
  {
    if a == [] {
      assert a + t + b == t + b;
      assert (t + b)[..|t|] == t;
    } else {
      ContainsMiddle(a[1..], t, b);
      assert (a + t + b)[1..] == a[1..] + t + b;
    }
  }

  lemma {:induction false} ContainsNoChar(s: string, t: string, c: char)
    requires Contains(s, t) && c in t
    ensures c in s
    decreases |s|
  {
    if StartsWith(s, t) {
      assert s[..|t|] == t;
      var i :| 0 <= i < |t| && t[i] == c;
      assert s[i] == c;
    } else {
      ContainsNoChar(s[1..], t, c);
      assert s[1..] <= s[1..];
      var i :| 0 <= i < |s| - 1 && s[1..][i] == c;
      assert s[i + 1] == c;
    }
  }

  /** `t` occurs in `s` starting at index `i`. */
  predicate OccursAt(s: string, t: string, i: int)
  {
    0 <= i && i + |t| <= |s| && s[i..i + |t|] == t
  }

  /** A pattern that occurs at no index is not contained. */
  lemma {:induction false} NoOccurrence(s: string, t: string)
    requires forall i :: !OccursAt(s, t, i)
    ensures !Contains(s, t)
    decreases |s|
  {
    assert !OccursAt(s, t, 0);
    if s != [] {
      forall i
        ensures !OccursAt(s[1..], t, i)
      {
        if 0 <= i && i + |t| <= |s| - 1 {
          assert s[1..][i..i + |t|] == s[i + 1..i + 1 + |t|];
          assert !OccursAt(s, t, i + 1);
        }
      }
      NoOccurrence(s[1..], t);
    }
  }

  /**
   * `s.split('/').pop()`: the part after the last `/`, or all of `s` when it has none.
   */
  function LastSegment(s: string): (r: string)
    ensures '/' !in r
  {
    if s == [] then []
    else if s[|s| - 1] == '/' then []
    else LastSegment(s[..|s| - 1]) + [s[|s| - 1]]
  }

  /** The last segment is a suffix of `s` that is all of `s` or starts right after a `/`. */
  lemma {:induction false} LastSegmentIsLastPart(s: string)
    ensures |LastSegment(s)| <= |s| && LastSegment(s) == s[|s| - |LastSegment(s)|..]
    ensures |LastSegment(s)| < |s| ==> s[|s| - |LastSegment(s)| - 1] == '/'
    decreases |s|
  {
    if s != [] && s[|s| - 1] != '/' {
      var f := s[..|s| - 1];
      LastSegmentIsLastPart(f);
      assert LastSegment(s) == LastSegment(f) + [s[|s| - 1]];
      assert f[|f| - |LastSegment(f)|..] + [s[|s| - 1]] == s[|s| - |LastSegment(s)|..];
    }
  }

  /** Removing a prefix that ends in `/` never changes the last segment. */
  lemma {:induction false} LastSegmentAfterPrefix(p: string, r: string)
    requires p != [] && p[|p| - 1] == '/'
    ensures LastSegment(p + r) == LastSegment(r)
    decreases |r|
  {
    if r == [] {
      assert p + r == p;
    } else if r[|r| - 1] == '/' {
    } else {
      assert (p + r)[..|p + r| - 1] == p + r[..|r| - 1];
      LastSegmentAfterPrefix(p, r[..|r| - 1]);
    }
  }

  /** A string without `/` is its own last segment. */
  lemma {:induction false} LastSegmentOfPlain(s: string)
    requires '/' !in s
    ensures LastSegment(s) == s
    decreases |s|
  {
    if s != [] {
      assert s[|s| - 1] in s;
      var f := s[..|s| - 1];
      assert forall i :: 0 <= i < |f| ==> f[i] == s[i];
      LastSegmentOfPlain(f);
      assert f + [s[|s| - 1]] == s;
    }
  }

  /** Drops every trailing `/`. */
  function StripTrailingSlashes(s: string): (r: string)
    ensures |r| <= |s| && r == s[..|r|]
    ensures r == [] || r[|r| - 1] != '/'
    ensures forall i :: |r| <= i < |s| ==> s[i] == '/'
  {
    if s != [] && s[|s| - 1] == '/' then StripTrailingSlashes(s[..|s| - 1]) else s
  }

  /** Node's POSIX `path.basename(p)`: the last segment once trailing separators are gone. */
  function Basename(p: string): (r: string)
    ensures '/' !in r
  {
    LastSegment(StripTrailingSlashes(p))
  }

  /**
   * `s.replace(/pat/g, '')` for a literal pattern: every occurrence is removed,
   * scanning left to right without overlap.
   */
  function RemoveAll(s: string, pat: string): (r: string)
    requires pat != []
    ensures |r| <= |s|
    ensures !Contains(s, pat) ==> r == s
    decreases |s|
  {
    if |s| < |pat| then s
    else if s[..|pat|] == pat then RemoveAll(s[|pat|..], pat)
    else [s[0]] + RemoveAll(s[1..], pat)
  }

  predicate IsDigit(c: char)
  {
    '0' <= c <= '9'
  }

  /** The decimal rendering of a natural number, as `String(n)` gives it. */
  function Decimal(n: nat): (r: string)
    ensures r != []
    ensures forall i :: 0 <= i < |r| ==> IsDigit(r[i])
  {
    var d := ['0' + (n % 10) as char];
    if n < 10 then d else Decimal(n / 10) + d
  }

  /** Different numbers have different renderings. */
  lemma {:induction false} DecimalInjective(a: nat, b: nat)
    requires Decimal(a) == Decimal(b)
    ensures a == b
    decreases a
  {
    var da := Decimal(a);
    assert da[|da| - 1] == '0' + (a % 10) as char;
    assert da[|da| - 1] == '0' + (b % 10) as char;
    if a >= 10 && b >= 10 {
      assert Decimal(a / 10) == da[..|da| - 1] == Decimal(b / 10);
      DecimalInjective(a / 10, b / 10);
    }
  }

  /** Splitting at the first `-` after a digit string recovers the digit string and the rest. */
  lemma DigitsThenDash(a: string, x: string, b: string, y: string)
    requires forall i :: 0 <= i < |a| ==> IsDigit(a[i])
    requires forall i :: 0 <= i < |b| ==> IsDigit(b[i])
    requires a + ("-" + x) == b + ("-" + y)
    ensures a == b && x == y
  {
    DashNotEarlier(a, x, b, y);
    DashNotEarlier(b, y, a, x);
    var s := a + ("-" + x);
    assert a == s[..|a|] == b;
    assert x == s[|a| + 1..] == y;
  }

  /** The `-` that ends one digit string cannot fall inside another. */
  lemma DashNotEarlier(a: string, x: string, b: string, y: string)
    requires forall i :: 0 <= i < |b| ==> IsDigit(b[i])
    requires a + ("-" + x) == b + ("-" + y)
    ensures |b| <= |a|
  {
    var s := a + ("-" + x);
    assert s[|a|] == '-';
    if |a| < |b| {
      assert false;
    }
  }
}
