/**
 * Strings as the build script sees them: prefixes, Python's text-mode
 * reading (universal newlines), iteration over the lines of a file and
 * the first element of `str.splitlines()`.
 */
module Text {

  predicate StartsWith(s: string, prefix: string) {
    |prefix| <= |s| && s[..|prefix|] == prefix
  }

  predicate EndsWith(s: string, suffix: string) {
    |suffix| <= |s| && s[|s| - |suffix|..] == suffix
  }

  // ---------------------------------------------------------------------
  // Universal newlines: reading a file in text mode turns "\r\n" and a
  // lone "\r" into "\n".

  function Translate(s: string): (t: string)
    ensures '\r' !in t
    ensures |t| <= |s|
    ensures s == [] <==> t == []
    decreases |s|
  {
    if s == [] then []
    else if s[0] == '\r' then
      "\n" + Translate(if |s| > 1 && s[1] == '\n' then s[2..] else s[1..])
    else
      [s[0]] + Translate(s[1..])
  }

  /** Text that holds no carriage return reads back unchanged. */
  lemma {:induction false} TranslateKeeps(s: string)
    requires '\r' !in s
    ensures Translate(s) == s
  {
    if s != [] {
      assert '\r' !in s[1..] by {
        forall i | 0 <= i < |s[1..]| ensures s[1..][i] != '\r' {
          assert s[1..][i] == s[i + 1];
        }
      }
      TranslateKeeps(s[1..]);
    }
  }

  // ---------------------------------------------------------------------
  // `for line in f`: the text is cut after every "\n"; each line keeps its
  // terminator and only the last one may lack it.

  predicate NoNewline(s: string) {
    forall i :: 0 <= i < |s| ==> s[i] != '\n'
  }

  /** Length of the first line of s, its "\n" included. */
  function LineLength(s: string): (k: nat)
    requires s != []
    ensures 1 <= k <= |s|
    ensures NoNewline(s[..k - 1])
    ensures s[k - 1] == '\n' || k == |s|
  {
    if s[0] == '\n' || |s| == 1 then 1
    else
      var k := 1 + LineLength(s[1..]);
      assert s[..k - 1] == [s[0]] + s[1..][..k - 2];
      k
  }

  function Lines(s: string): (ls: seq<string>)
    decreases |s|
  {
    if s == [] then []
    else
      var k := LineLength(s);
      [s[..k]] + Lines(s[k..])
  }

  function Join(ls: seq<string>): (s: string)
  {
    if ls == [] then "" else ls[0] + Join(ls[1..])
  }

  /** A single line: not empty, and "\n" at most as its last character. */
  predicate IsLine(l: string) {
    l != [] && NoNewline(l[..|l| - 1])
  }

  predicate Terminated(l: string) {
    l != [] && l[|l| - 1] == '\n'
  }

  /** What `for line in f` can yield: lines, all but the last terminated. */
  predicate WellFormed(ls: seq<string>) {
    forall i :: 0 <= i < |ls| ==> IsLine(ls[i]) && (i < |ls| - 1 ==> Terminated(ls[i]))
  }

  lemma {:induction false} LinesJoin(s: string)
    ensures WellFormed(Lines(s))
    ensures Join(Lines(s)) == s
    decreases |s|
  {
    if s != [] {
      var k := LineLength(s);
      var l, rest := s[..k], s[k..];
      LinesJoin(rest);
      assert l + rest == s;
      assert Lines(s) == [l] + Lines(rest);
      assert l[..k - 1] == s[..k - 1];
      if Lines(rest) != [] {
        assert k < |s|;
      }
      WellFormedCons(l, Lines(rest));
    }
  }

  /** A line in front of well-formed lines keeps them well-formed, provided
      it is terminated whenever something follows it. */
  lemma WellFormedCons(l: string, ls: seq<string>)
    requires IsLine(l) && WellFormed(ls)
    requires ls != [] ==> Terminated(l)
    ensures WellFormed([l] + ls)
  {
    var all := [l] + ls;
    forall i | 0 <= i < |all|
      ensures IsLine(all[i]) && (i < |all| - 1 ==> Terminated(all[i]))
    {
      if i > 0 {
        assert all[i] == ls[i - 1];
      }
    }
  }

  /** A line followed by anything that may follow it is read back as that line. */
  lemma {:induction false} LineLengthOfJoin(l: string, rest: string)
    requires IsLine(l)
    requires Terminated(l) || rest == []
    ensures LineLength(l + rest) == |l|
    decreases |l|
  {
    var s := l + rest;
    if s[0] != '\n' && |s| != 1 {
      assert s[1..] == l[1..] + rest;
      if |l| > 1 {
        assert l[1..][..|l[1..]| - 1] == l[..|l| - 1][1..];
        LineLengthOfJoin(l[1..], rest);
      }
    }
  }

  /** Reading back what was written line by line gives the same lines. */
  lemma {:induction false} JoinLines(ls: seq<string>)
    requires WellFormed(ls)
    ensures Lines(Join(ls)) == ls
  {
    if ls != [] {
      var rest := Join(ls[1..]);
      assert WellFormed(ls[1..]) by {
        forall i | 0 <= i < |ls[1..]|
          ensures IsLine(ls[1..][i]) && (i < |ls[1..]| - 1 ==> Terminated(ls[1..][i]))
        {
          assert ls[1..][i] == ls[i + 1];
        }
      }
      if |ls| > 1 {
        assert Terminated(ls[0]);
      } else {
        assert ls[1..] == [];
      }
      LineLengthOfJoin(ls[0], rest);
      var s := ls[0] + rest;
      assert s[..|ls[0]|] == ls[0];
      assert s[|ls[0]|..] == rest;
      JoinLines(ls[1..]);
    }
  }

  lemma {:induction false} JoinAppend(a: seq<string>, b: seq<string>)
    ensures Join(a + b) == Join(a) + Join(b)
  {
    if a == [] {
      assert a + b == b;
    } else {
      assert (a + b)[1..] == a[1..] + b;
      JoinAppend(a[1..], b);
    }
  }

  // ---------------------------------------------------------------------
  // `f.read().splitlines()[0]`: the text up to the first line boundary.

  /** The characters `str.splitlines` breaks at. */
  predicate IsLineBoundary(c: char) {
    c in {'\n', '\r', '\U{0b}', '\U{0c}', '\U{1c}', '\U{1d}', '\U{1e}', '\U{85}', '\U{2028}', '\U{2029}'}
  }

  function FirstLine(s: string): (line: string)
    ensures StartsWith(s, line)
    ensures forall i :: 0 <= i < |line| ==> !IsLineBoundary(line[i])
    ensures |line| == |s| || IsLineBoundary(s[|line|])
  {
    if s == [] || IsLineBoundary(s[0]) then ""
    else
      var rest := FirstLine(s[1..]);
      assert forall i :: 0 < i <= |rest| ==> ([s[0]] + rest)[i] == rest[i - 1];
      [s[0]] + rest
  }
}
