/**
 * The few pieces of Python's built-in string, list and os.path behaviour that the
 * core relies on: str.strip / lstrip(chars) / rstrip(chars), str.split('\n'),
 * the list slice xs[:k], and posixpath.join / posixpath.basename.
 */
module PyText {

  /** The characters for which Python's str.isspace() holds. */
  const SpaceChars: string :=
    [' ', '\t', '\n', '\U{B}', '\U{C}', '\r', '\U{1C}', '\U{1D}', '\U{1E}', '\U{1F}',
     '\U{85}', '\U{A0}', '\U{1680}', '\U{2000}', '\U{2001}', '\U{2002}', '\U{2003}',
     '\U{2004}', '\U{2005}', '\U{2006}', '\U{2007}', '\U{2008}', '\U{2009}', '\U{200A}',
     '\U{2028}', '\U{2029}', '\U{202F}', '\U{205F}', '\U{3000}']

  /** c occurs in chars; written by recursion so that a proof unfolds only as much of chars as it needs. */
  predicate InChars(c: char, chars: string)
  {
    chars != [] && (chars[0] == c || InChars(c, chars[1..]))
  }

  /** str.isspace() on one character. */
  predicate IsSpace(c: char)
  {
    InChars(c, SpaceChars)
  }

  /** s.lstrip(chars): drops the longest prefix made only of characters of chars. */
  function LStrip(s: string, chars: string): string
  {
    if |s| > 0 && InChars(s[0], chars) then LStrip(s[1..], chars) else s
  }

  /** s.rstrip(chars): drops the longest suffix made only of characters of chars. */
  function RStrip(s: string, chars: string): string
  {
    if |s| > 0 && InChars(s[|s| - 1], chars) then RStrip(s[..|s| - 1], chars) else s
  }

  /** lstrip leaves a suffix, removes only characters of chars, and stops at the first character not in chars. */
  lemma {:induction false} LStripSpec(s: string, chars: string)
    ensures var r := LStrip(s, chars);
      && |r| <= |s| && r == s[|s| - |r|..]
      && (r == [] || !InChars(r[0], chars))
      && forall i :: 0 <= i < |s| - |r| ==> InChars(s[i], chars)
  {
    if |s| > 0 && InChars(s[0], chars) {
      LStripSpec(s[1..], chars);
      var r := LStrip(s, chars);
      assert s[1..][|s| - 1 - |r|..] == s[|s| - |r|..];
      forall i | 0 <= i < |s| - |r|
        ensures InChars(s[i], chars)
      {
        if i > 0 {
          assert s[i] == s[1..][i - 1];
        }
      }
    }
  }

  /** rstrip leaves a prefix, removes only characters of chars, and stops at the last character not in chars. */
  lemma {:induction false} RStripSpec(s: string, chars: string)
    ensures var r := RStrip(s, chars);
      && |r| <= |s| && r == s[..|r|]
      && (r == [] || !InChars(r[|r| - 1], chars))
      && forall i :: |r| <= i < |s| ==> InChars(s[i], chars)
  {
    if |s| > 0 && InChars(s[|s| - 1], chars) {
      RStripSpec(s[..|s| - 1], chars);
      var r := RStrip(s, chars);
      assert s[..|s| - 1][..|r|] == s[..|r|];
      forall i | |r| <= i < |s|
        ensures InChars(s[i], chars)
      {
        if i < |s| - 1 {
          assert s[i] == s[..|s| - 1][i];
        }
      }
    }
  }

  /** s.strip(chars) */
  function StripChars(s: string, chars: string): string
  {
    RStrip(LStrip(s, chars), chars)
  }

  /**
   * strip(chars) leaves nothing exactly when every character is in chars, and otherwise leaves
   * a string that neither starts nor ends with a character of chars.
   */
  lemma StripCharsSpec(s: string, chars: string)
    ensures var r := StripChars(s, chars);
      && (r == [] <==> forall i :: 0 <= i < |s| ==> InChars(s[i], chars))
      && (r != [] ==> !InChars(r[0], chars) && !InChars(r[|r| - 1], chars))
      && |r| <= |s|
  {
    StripCharsEmpty(s, chars);
    StripCharsAllIn(s, chars);
    StripCharsEnds(s, chars);
  }

  /** Nothing left means every character was in chars. */
  lemma StripCharsEmpty(s: string, chars: string)
    ensures StripChars(s, chars) == [] ==> forall i :: 0 <= i < |s| ==> InChars(s[i], chars)
  {
    var l := LStrip(s, chars);
    LStripSpec(s, chars);
    RStripSpec(l, chars);
    var d := |s| - |l|;
    forall i | d <= i < |s|
      ensures s[i] == l[i - d]
    {
    }
  }

  /** Every character in chars means nothing is left. */
  lemma StripCharsAllIn(s: string, chars: string)
    ensures (forall i :: 0 <= i < |s| ==> InChars(s[i], chars)) ==> StripChars(s, chars) == []
  {
    var l := LStrip(s, chars);
    LStripSpec(s, chars);
    if l != [] {
      assert l[0] == s[|s| - |l|];
    }
  }

  /** What is left starts and ends outside chars, and is no longer than s. */
  lemma StripCharsEnds(s: string, chars: string)
    ensures var r := StripChars(s, chars);
      && (r != [] ==> !InChars(r[0], chars) && !InChars(r[|r| - 1], chars))
      && |r| <= |s|
  {
    var l := LStrip(s, chars);
    var r := RStrip(l, chars);
    LStripSpec(s, chars);
    RStripSpec(l, chars);
    if r != [] {
      assert r[0] == l[0];
    }
  }

  /** A string that neither starts nor ends with a character of chars is left as it is. */
  lemma StripCharsKeeps(s: string, chars: string)
    requires |s| > 0 && !InChars(s[0], chars) && !InChars(s[|s| - 1], chars)
    ensures StripChars(s, chars) == s
  {
  }

  /** One more leading character of chars makes no difference. */
  lemma StripCharsLeading(s: string, chars: string, c: char)
    requires InChars(c, chars)
    ensures StripChars([c] + s, chars) == StripChars(s, chars)
  {
    assert ([c] + s)[1..] == s;
  }

  /** s.strip(): both ends, whitespace only. */
  function Strip(s: string): string
  {
    StripChars(s, SpaceChars)
  }

  predicate IsBlank(s: string)
  {
    forall i :: 0 <= i < |s| ==> IsSpace(s[i])
  }

  /** Neither end is whitespace and the string is not empty: what strip() leaves of a non-blank string. */
  predicate Clean(s: string)
  {
    |s| > 0 && !IsSpace(s[0]) && !IsSpace(s[|s| - 1])
  }

  lemma StripSpec(s: string)
    ensures Strip(s) == [] <==> IsBlank(s)
    ensures Strip(s) != [] ==> Clean(Strip(s))
    ensures |Strip(s)| <= |s|
  {
    StripCharsSpec(s, SpaceChars);
  }

  lemma StripClean(s: string)
    requires Clean(s)
    ensures Strip(s) == s
  {
    StripCharsKeeps(s, SpaceChars);
  }

  /** One leading blank is absorbed by strip(). */
  lemma StripLeadingSpace(s: string)
    ensures Strip(" " + s) == Strip(s)
  {
    assert IsSpace(' ');
    StripCharsLeading(s, SpaceChars, ' ');
  }

  /** A clean string, with or without one leading blank, strips to itself. */
  lemma StripSpaceClean(s: string)
    requires Clean(s)
    ensures Strip(s) == s && Strip(" " + s) == s
  {
    StripClean(s);
    StripLeadingSpace(s);
  }

  /** s.split('\n'): always at least one part, and no part holds a newline. */
  function SplitLines(s: string): (r: seq<string>)
    ensures |r| >= 1
  {
    if s == [] then [""]
    else
      var rest := SplitLines(s[1..]);
      if s[0] == '\n' then [""] + rest
      else [[s[0]] + rest[0]] + rest[1..]
  }

  /** No part of a split holds a newline. */
  lemma {:induction false} SplitLinesNoNewline(s: string)
    ensures forall i :: 0 <= i < |SplitLines(s)| ==> '\n' !in SplitLines(s)[i]
  {
    if s != [] {
      SplitLinesNoNewline(s[1..]);
      var rest := SplitLines(s[1..]);
      if s[0] != '\n' {
        var r := SplitLines(s);
        assert r == [[s[0]] + rest[0]] + rest[1..];
        forall i | 0 <= i < |r|
          ensures '\n' !in r[i]
        {
          if i > 0 {
            assert r[i] == rest[i];
          } else {
            assert forall x :: x in r[0] ==> x == s[0] || x in rest[0];
          }
        }
      }
    }
  }

  /** "\n".join(parts): the first part, then each further part after a newline. */
  function JoinLines(parts: seq<string>): string
    requires |parts| >= 1
  {
    parts[0] + Separated(parts[1..])
  }

  /** Each part preceded by a newline. */
  function Separated(parts: seq<string>): string
  {
    if parts == [] then "" else "\n" + parts[0] + Separated(parts[1..])
  }

  lemma {:induction false} SplitJoinLines(s: string)
    ensures JoinLines(SplitLines(s)) == s
  {
    if s != [] {
      var rest := SplitLines(s[1..]);
      SplitJoinLines(s[1..]);
      if s[0] == '\n' {
        assert SplitLines(s) == [""] + rest;
        JoinLinesNewline(rest);
      } else {
        assert SplitLines(s) == [[s[0]] + rest[0]] + rest[1..];
        JoinLinesCons(s[0], rest);
      }
      assert [s[0]] + s[1..] == s;
    }
  }

  /** A leading empty part contributes just its separator. */
  lemma JoinLinesNewline(rest: seq<string>)
    requires |rest| >= 1
    ensures JoinLines([""] + rest) == "\n" + JoinLines(rest)
  {
    var t := [""] + rest;
    assert t[0] == "" && t[1..] == rest;
    assert Separated(rest) == "\n" + rest[0] + Separated(rest[1..]);
  }

  /** A character put in front of the first part comes first in the joined text. */
  lemma JoinLinesCons(c: char, rest: seq<string>)
    requires |rest| >= 1
    ensures JoinLines([[c] + rest[0]] + rest[1..]) == [c] + JoinLines(rest)
  {
    var t := [[c] + rest[0]] + rest[1..];
    assert t[0] == [c] + rest[0] && t[1..] == rest[1..];
  }

  /** xs[:k] for a list xs and an int k, with Python's negative-index rule. */
  function Take<T>(xs: seq<T>, k: int): (r: seq<T>)
    ensures k >= 0 ==> |r| == if k < |xs| then k else |xs|
    ensures k < 0 ==> |r| == if -k < |xs| then |xs| + k else 0
    ensures r == xs[..|r|]
  {
    if k >= 0 then (if k < |xs| then xs[..k] else xs)
    else if -k < |xs| then xs[..|xs| + k]
    else []
  }

  /** posixpath.basename: what follows the last '/'. */
  function Basename(p: string): string
  {
    if p == [] || p[|p| - 1] == '/' then ""
    else Basename(p[..|p| - 1]) + [p[|p| - 1]]
  }

  /** The last component is slash-free, is a suffix of the path, and is preceded by a '/' unless it is the whole path. */
  lemma {:induction false} BasenameSpec(p: string)
    ensures '/' !in Basename(p)
    ensures |Basename(p)| <= |p| && Basename(p) == p[|p| - |Basename(p)|..]
    ensures |Basename(p)| < |p| ==> p[|p| - |Basename(p)| - 1] == '/'
  {
    if p != [] && p[|p| - 1] != '/' {
      var q := p[..|p| - 1];
      BasenameSpec(q);
      var b := Basename(q);
      assert Basename(p) == b + [p[|p| - 1]];
      assert q[|q| - |b|..] + [p[|p| - 1]] == p[|p| - |b| - 1..];
    }
  }

  /** posixpath.join(a, b): an absolute b replaces a; otherwise one '/' separates them. */
  function Join(a: string, b: string): string
  {
    if |b| > 0 && b[0] == '/' then b
    else if a == [] || a[|a| - 1] == '/' then a + b
    else a + "/" + b
  }

  /** Joining a name with an extension appended equals appending the extension after joining. */
  lemma JoinAppend(a: string, b: string, ext: string)
    requires |ext| > 0 && ext[0] != '/'
    ensures Join(a, b + ext) == Join(a, b) + ext
  {
    if |b| > 0 {
      assert (b + ext)[0] == b[0];
      if b[0] != '/' && !(a == [] || a[|a| - 1] == '/') {
        assert a + "/" + (b + ext) == (a + "/" + b) + ext;
      }
    } else {
      assert b + ext == ext;
    }
  }

  /** The last component of a path that ends in a slash-free name is that name. */
  lemma {:induction false} BasenameAfterSlash(dir: string, name: string)
    requires dir == [] || dir[|dir| - 1] == '/'
    requires '/' !in name
    ensures Basename(dir + name) == name
  {
    if name == [] {
      assert dir + name == dir;
    } else {
      var n := |name| - 1;
      var p := dir + name;
      assert name[n] in name;
      assert '/' !in name[..n] by {
        forall x | x in name[..n] ensures x in name { }
      }
      BasenameAfterSlash(dir, name[..n]);
      assert p[..|p| - 1] == dir + name[..n];
      assert p[|p| - 1] == name[n];
      assert name[..n] + [name[n]] == name;
    }
  }

  /** posixpath.basename(posixpath.join(a, b)) == b for a slash-free b. */
  lemma BasenameJoin(a: string, b: string)
    requires '/' !in b
    ensures Basename(Join(a, b)) == b
  {
    if a == [] || a[|a| - 1] == '/' {
      BasenameAfterSlash(a, b);
    } else {
      assert a + "/" + b == (a + "/") + b;
      BasenameAfterSlash(a + "/", b);
    }
  }
}
