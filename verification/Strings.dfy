/** The string operations the source relies on: whitespace stripping, substrings and prefixes. */
module Strings {

  /** Python's `str.isspace` on one character. */
  predicate IsSpace(c: char) {
    var k := c as int;
    || 0x09 <= k <= 0x0D || 0x1C <= k <= 0x20 || k == 0x85 || k == 0xA0 || k == 0x1680
    || 0x2000 <= k <= 0x200A || k == 0x2028 || k == 0x2029 || k == 0x202F || k == 0x205F || k == 0x3000
  }

  /** What `str.strip` takes away. */
  lemma SpacesAre(c: char)
    ensures IsSpace(c) <==>
            c in [' ', '\t', '\n', '\r', '\U{0B}', '\U{0C}', '\U{1C}', '\U{1D}', '\U{1E}', '\U{1F}', '\U{85}', '\U{A0}',
                  '\U{1680}', '\U{2000}', '\U{2001}', '\U{2002}', '\U{2003}', '\U{2004}', '\U{2005}', '\U{2006}',
                  '\U{2007}', '\U{2008}', '\U{2009}', '\U{200A}', '\U{2028}', '\U{2029}', '\U{202F}', '\U{205F}',
                  '\U{3000}']
  {
  }

  function StripLeft(s: string): (r: string)
    ensures r == "" || !IsSpace(r[0])
  {
    if s != "" && IsSpace(s[0]) then StripLeft(s[1..]) else s
  }

  function StripRight(s: string): (r: string)
    ensures r == "" || !IsSpace(r[|r| - 1])
    ensures r <= s
  {
    if s != "" && IsSpace(s[|s| - 1]) then StripRight(s[..|s| - 1]) else s
  }

  /** `s.strip()` */
  function Strip(s: string): (r: string)
    ensures r == "" || (!IsSpace(r[0]) && !IsSpace(r[|r| - 1]))
  {
    StripRight(StripLeft(s))
  }

  lemma StripKeeps(s: string)
    requires s == "" || (!IsSpace(s[0]) && !IsSpace(s[|s| - 1]))
    ensures Strip(s) == s
  {
    hide IsSpace;
  }

  lemma StripIsIdempotent(s: string)
    ensures Strip(Strip(s)) == Strip(s)
  {
    var r := Strip(s);
    assert StripLeft(r) == r && StripRight(r) == r;
  }

  ghost predicate AllSpace(s: string) {
    forall i | 0 <= i < |s| :: IsSpace(s[i])
  }

  /** `s` is `r` between two runs of white space. */
  ghost predicate Surrounds(s: string, r: string) {
    exists a, b :: s == a + r + b && AllSpace(a) && AllSpace(b)
  }

  lemma MoreSpace(c: char, s: string)
    requires IsSpace(c) && AllSpace(s)
    ensures AllSpace([c] + s) && AllSpace(s + [c])
  {
    hide IsSpace;
  }

  lemma NoSpace()
    ensures AllSpace("")
  {
  }

  lemma {:induction false} StripLeftTakes(s: string) returns (a: string)
    ensures s == a + StripLeft(s) && AllSpace(a)
  {
    hide IsSpace, AllSpace;
    if s != "" && IsSpace(s[0]) {
      var rest := StripLeftTakes(s[1..]);
      a := [s[0]] + rest;
      MoreSpace(s[0], rest);
    } else {
      a := "";
      NoSpace();
    }
  }

  lemma {:induction false} StripRightTakes(s: string) returns (b: string)
    ensures s == StripRight(s) + b && AllSpace(b)
  {
    hide IsSpace, AllSpace;
    if s != "" && IsSpace(s[|s| - 1]) {
      var rest := StripRightTakes(s[..|s| - 1]);
      b := rest + [s[|s| - 1]];
      MoreSpace(s[|s| - 1], rest);
    } else {
      b := "";
      NoSpace();
    }
  }

  lemma SpaceAtEnds(s: string)
    requires AllSpace(s) && s != ""
    ensures IsSpace(s[0]) && AllSpace(s[1..]) && IsSpace(s[|s| - 1]) && AllSpace(s[..|s| - 1])
  {
    hide IsSpace;
  }

  lemma {:induction false} StripLeftSkips(a: string, t: string)
    requires AllSpace(a) && (t == "" || !IsSpace(t[0]))
    ensures StripLeft(a + t) == t
  {
    hide IsSpace, AllSpace;
    if a == "" {
      assert a + t == t;
    } else {
      SpaceAtEnds(a);
      StripLeftSkips(a[1..], t);
      assert (a + t)[1..] == a[1..] + t;
    }
  }

  lemma {:induction false} StripRightSkips(t: string, b: string)
    requires AllSpace(b) && (t == "" || !IsSpace(t[|t| - 1]))
    ensures StripRight(t + b) == t
  {
    hide IsSpace, AllSpace;
    if b == "" {
      assert t + b == t;
    } else {
      var n := |b| - 1;
      SpaceAtEnds(b);
      StripRightSkips(t, b[..n]);
      assert (t + b)[..|t + b| - 1] == t + b[..n];
    }
  }

  lemma StripIsSurrounded(s: string)
    ensures Surrounds(s, Strip(s))
  {
    hide IsSpace, StripLeft, StripRight, AllSpace;
    var a := StripLeftTakes(s);
    var b := StripRightTakes(StripLeft(s));
    assert s == a + Strip(s) + b;
  }

  lemma SurroundedIsStrip(s: string, r: string, a: string, b: string)
    requires s == a + r + b && AllSpace(a) && AllSpace(b)
    requires r != "" ==> !IsSpace(r[0]) && !IsSpace(r[|r| - 1])
    ensures Strip(s) == r
  {
    hide StripLeft, StripRight, IsSpace;
    if r == "" {
      assert s == a + b && s + "" == s;
      StripLeftSkips(s, "");
      assert "" + "" == "";
      StripRightSkips("", "");
    } else {
      assert s == a + (r + b);
      StripLeftSkips(a, r + b);
      StripRightSkips(r, b);
    }
  }

  /** Stripping takes away exactly the white space at both ends. */
  lemma {:induction false} StripExactly(s: string, r: string)
    ensures Strip(s) == r <==> Surrounds(s, r) && (r == "" || (!IsSpace(r[0]) && !IsSpace(r[|r| - 1])))
  {
    hide AllSpace, IsSpace, StripLeft, StripRight;
    StripIsSurrounded(s);
    if Surrounds(s, r) && (r == "" || (!IsSpace(r[0]) && !IsSpace(r[|r| - 1]))) {
      var a, b :| s == a + r + b && AllSpace(a) && AllSpace(b);
      SurroundedIsStrip(s, r, a, b);
    }
  }

  predicate StartsWith(s: string, prefix: string) {
    prefix <= s
  }

  predicate OccursAt(s: string, sub: string, i: nat) {
    i + |sub| <= |s| && s[i..i + |sub|] == sub
  }

  /** `sub in s` */
  predicate Contains(s: string, sub: string) {
    exists i | 0 <= i <= |s| :: OccursAt(s, sub, i)
  }

  /** The text before the first `mark`, or all of it. */
  function Before(s: string, mark: char): (r: string)
    ensures r <= s && mark !in r
    ensures mark in s <==> |r| < |s|
    ensures mark in s ==> s[|r|] == mark
  {
    if s == "" || s[0] == mark then "" else [s[0]] + Before(s[1..], mark)
  }

  lemma {:induction false} StartsExactly(s: string, prefix: string)
    ensures StartsWith(s, prefix) <==> exists rest :: s == prefix + rest
  {
    if StartsWith(s, prefix) { assert s == prefix + s[|prefix|..]; }
  }

  ghost predicate Embeds(s: string, sub: string) {
    exists a, b :: s == a + sub + b
  }

  lemma {:induction false} ContainsExactly(s: string, sub: string)
    ensures Contains(s, sub) <==> Embeds(s, sub)
  {
    if Contains(s, sub) {
      var i :| 0 <= i <= |s| && OccursAt(s, sub, i);
      assert s == s[..i] + sub + s[i + |sub|..];
    }
    if Embeds(s, sub) {
      var a, b :| s == a + sub + b;
      assert OccursAt(s, sub, |a|);
    }
  }
}
