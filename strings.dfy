/** Text operations the coder applies to file names and survey cells. */
module Strings {

  /** Python's str.isspace() for one character: the characters str.strip()
      removes when it is called without an argument. */
  predicate IsSpace(c: char) {
    || ('\t' <= c <= '\r')
    || ('\U{1C}' <= c <= ' ')
    || c == '\U{85}' || c == '\U{A0}' || c == '\U{1680}'
    || ('\U{2000}' <= c <= '\U{200A}')
    || c == '\U{2028}' || c == '\U{2029}' || c == '\U{202F}' || c == '\U{205F}'
    || c == '\U{3000}'
  }

  predicate AllSpace(s: string) {
    forall k :: 0 <= k < |s| ==> IsSpace(s[k])
  }

  /** Neither end of s is whitespace. */
  predicate Stripped(s: string) {
    s == [] || (!IsSpace(s[0]) && !IsSpace(s[|s| - 1]))
  }

  /** Drops the leading whitespace of s. */
  function TrimStart(s: string): (t: string)
    ensures |t| <= |s| && t == s[|s| - |t|..]
    ensures AllSpace(s[..|s| - |t|])
    ensures t == [] || !IsSpace(t[0])
  {
    if s != [] && IsSpace(s[0]) then TrimStart(s[1..]) else s
  }

  /** Drops the trailing whitespace of s. */
  function TrimEnd(s: string): (t: string)
    ensures |t| <= |s| && t == s[..|t|]
    ensures AllSpace(s[|t|..])
    ensures t == [] || !IsSpace(t[|t| - 1])
  {
    if s != [] && IsSpace(s[|s| - 1]) then TrimEnd(s[..|s| - 1]) else s
  }

  /** str.strip() without an argument: s without the whitespace at either end.
      TrimIsInfix states where the result sits in s. */
  function Trim(s: string): (t: string)
    ensures |t| <= |s|
    ensures Stripped(t)
  {
    TrimStart(TrimEnd(s))
  }

  /** A suffix t of a prefix u of s, with whitespace before t in u and after u
      in s, sits in s between two runs of whitespace. */
  lemma SpaceAround(s: string, u: string, t: string)
    requires |u| <= |s| && u == s[..|u|] && AllSpace(s[|u|..])
    requires |t| <= |u| && t == u[|u| - |t|..] && AllSpace(u[..|u| - |t|])
    ensures exists i :: 0 <= i <= |s| - |t| && AllSpace(s[..i]) && t == s[i..i + |t|] && AllSpace(s[i + |t|..])
  {
    var i := |u| - |t|;
    assert s[..i] == u[..i];
    assert s[i..i + |t|] == t;
    assert s[i + |t|..] == s[|u|..];
  }

  /** What Trim removes is whitespace at the two ends of s, and nothing else. */
  lemma TrimIsInfix(s: string)
    ensures var t := Trim(s);
      exists i :: 0 <= i <= |s| - |t| && AllSpace(s[..i]) && t == s[i..i + |t|] && AllSpace(s[i + |t|..])
  {
    SpaceAround(s, TrimEnd(s), Trim(s));
  }

  /** Whatever whitespace surrounds a stripped text, Trim gives back exactly that text. */
  lemma TrimUnique(a: string, m: string, b: string)
    requires AllSpace(a) && Stripped(m) && AllSpace(b)
    ensures Trim(a + m + b) == m
  {
    var x := a + m + b;
    var u := TrimEnd(x);
    if m == [] {
      forall k | 0 <= k < |x| ensures IsSpace(x[k]) {
        if k < |a| { assert x[k] == a[k]; } else { assert x[k] == b[k - |a|]; }
      }
    } else {
      var e := |a| + |m|;
      forall k | 0 <= k < e ensures !AllSpace(x[k..]) {
        assert x[k..][e - 1 - k] == x[e - 1] == m[|m| - 1];
      }
      forall k | e <= k < |x| ensures IsSpace(x[k]) {
        assert x[k] == b[k - e];
      }
      assert u == a + m;
      var t := TrimStart(u);
      forall k | |a| < k <= |u| ensures !AllSpace(u[..k]) {
        assert u[..k][|a|] == m[0];
      }
      forall k | 0 <= k < |a| ensures IsSpace(u[k]) {
        assert u[k] == a[k];
      }
      assert t == m;
    }
  }

  /** Trimming twice is trimming once. */
  lemma TrimIdempotent(s: string)
    ensures Trim(Trim(s)) == Trim(s)
  {
    var t := Trim(s);
    assert [] + t + [] == t;
    TrimUnique([], t, []);
  }

  predicate StartsWith(s: string, prefix: string) {
    |prefix| <= |s| && s[..|prefix|] == prefix
  }

  /** sub occurs in s at some position: the meaning of Python's `sub in s`. */
  ghost predicate Occurs(sub: string, s: string) {
    exists i :: 0 <= i <= |s| && StartsWith(s[i..], sub)
  }

  /** Python's `sub in s` on strings, as a left-to-right search. */
  function Contains(s: string, sub: string): (b: bool)
    ensures b <==> Occurs(sub, s)
    decreases |s|
  {
    if StartsWith(s, sub) then
      assert s[0..] == s;
      true
    else if s == [] then
      false
    else
      var b := Contains(s[1..], sub);
      assert Occurs(sub, s) <==> Occurs(sub, s[1..]) by {
        if Occurs(sub, s[1..]) {
          var i :| 0 <= i <= |s[1..]| && StartsWith(s[1..][i..], sub);
          assert s[1..][i..] == s[i + 1..];
        }
        if Occurs(sub, s) {
          var i :| 0 <= i <= |s| && StartsWith(s[i..], sub);
          assert i != 0;
          assert s[1..][i - 1..] == s[i..];
        }
      }
      b
  }
}
