/**
 * String helpers that stand for the handful of Python `str` methods the
 * importers use: `strip()`, `strip(chars)`, `replace(old, new)` on single
 * characters, `startswith` (Dafny's prefix operator `<=`), the substring
 * test behind a literal `re.search`, and a `split` used to read fixed
 * field layouts.
 */
module Text {

  /** Python's `str.isspace()` characters: exactly what `str.strip()` with no argument removes. */
  const Whitespace: set<char> := {
    '\t', '\n', '\U{000B}', '\U{000C}', '\r',
    '\U{001C}', '\U{001D}', '\U{001E}', '\U{001F}', ' ',
    '\U{0085}', '\U{00A0}', '\U{1680}',
    '\U{2000}', '\U{2001}', '\U{2002}', '\U{2003}', '\U{2004}', '\U{2005}',
    '\U{2006}', '\U{2007}', '\U{2008}', '\U{2009}', '\U{200A}',
    '\U{2028}', '\U{2029}', '\U{202F}', '\U{205F}', '\U{3000}'
  }

  /** `s` without its leading characters from `cs`. */
  function TrimStart(s: string, cs: set<char>): string
  {
    if s == [] || s[0] !in cs then s else TrimStart(s[1..], cs)
  }

  /** `TrimStart` leaves a suffix of `s`. */
  lemma {:induction false} TrimStartIsSuffix(s: string, cs: set<char>)
    ensures |TrimStart(s, cs)| <= |s|
    ensures TrimStart(s, cs) == s[|s| - |TrimStart(s, cs)|..]
  {
    if s != [] && s[0] in cs {
      TrimStartIsSuffix(s[1..], cs);
    }
  }

  /** Everything `TrimStart` cuts off is in `cs`. */
  lemma {:induction false} TrimStartCutsOnly(s: string, cs: set<char>)
    ensures forall k :: 0 <= k < |s| - |TrimStart(s, cs)| ==> s[k] in cs
  {
    if s != [] && s[0] in cs {
      TrimStartCutsOnly(s[1..], cs);
    }
  }

  /** `TrimStart` stops at the first character outside `cs`. */
  lemma {:induction false} TrimStartStops(s: string, cs: set<char>)
    ensures TrimStart(s, cs) == [] || TrimStart(s, cs)[0] !in cs
  {
    if s != [] && s[0] in cs {
      TrimStartStops(s[1..], cs);
    }
  }

  /** `s` without its trailing characters from `cs`. */
  function TrimEnd(s: string, cs: set<char>): string
  {
    if s == [] || s[|s| - 1] !in cs then s else TrimEnd(s[..|s| - 1], cs)
  }

  /** `TrimEnd` leaves a prefix of `s`. */
  lemma {:induction false} TrimEndIsPrefix(s: string, cs: set<char>)
    ensures |TrimEnd(s, cs)| <= |s|
    ensures TrimEnd(s, cs) == s[..|TrimEnd(s, cs)|]
  {
    if s != [] && s[|s| - 1] in cs {
      TrimEndIsPrefix(s[..|s| - 1], cs);
    }
  }

  /** Everything `TrimEnd` cuts off is in `cs`. */
  lemma {:induction false} TrimEndCutsOnly(s: string, cs: set<char>)
    ensures forall k :: |TrimEnd(s, cs)| <= k < |s| ==> s[k] in cs
  {
    if s != [] && s[|s| - 1] in cs {
      TrimEndCutsOnly(s[..|s| - 1], cs);
    }
  }

  /** `TrimEnd` stops at the last character outside `cs`. */
  lemma {:induction false} TrimEndStops(s: string, cs: set<char>)
    ensures TrimEnd(s, cs) == [] || TrimEnd(s, cs)[|TrimEnd(s, cs)| - 1] !in cs
  {
    if s != [] && s[|s| - 1] in cs {
      TrimEndStops(s[..|s| - 1], cs);
    }
  }

  /**
   * `r` is what Python's `s.strip(chars)` gives for the character set `cs`:
   * a contiguous piece `s[i..j]` such that everything cut off on either side
   * is in `cs` and the piece neither starts nor ends with a character of `cs`.
   */
  ghost predicate IsStripOf(r: string, s: string, cs: set<char>)
  {
    exists i, j :: StripsAt(r, s, cs, i, j)
  }

  /** `r` is `s[i..j]`, everything outside `i..j` is in `cs`, and `r` neither starts nor ends with a character of `cs`. */
  predicate StripsAt(r: string, s: string, cs: set<char>, i: int, j: int)
  {
    && 0 <= i <= j <= |s| && r == s[i..j]
    && (forall k :: 0 <= k < i ==> s[k] in cs)
    && (forall k :: j <= k < |s| ==> s[k] in cs)
    && (r == [] || (r[0] !in cs && r[|r| - 1] !in cs))
  }

  /** Python's `s.strip(chars)`, with `chars` read as a set of characters. */
  function StripChars(s: string, cs: set<char>): string
  {
    TrimEnd(TrimStart(s, cs), cs)
  }

  /** `StripChars` is a strip: both ends cut, nothing of `cs` left at either end. */
  lemma StripCharsIsStrip(s: string, cs: set<char>)
    ensures IsStripOf(StripChars(s, cs), s, cs)
  {
    var t := TrimStart(s, cs);
    var r := TrimEnd(t, cs);
    TrimStartIsSuffix(s, cs);
    TrimStartCutsOnly(s, cs);
    TrimStartStops(s, cs);
    TrimEndIsPrefix(t, cs);
    TrimEndCutsOnly(t, cs);
    TrimEndStops(t, cs);
    hide TrimStart;
    hide TrimEnd;
    var i := |s| - |t|;
    var j := i + |r|;
    assert r == s[i..j];
    forall k | j <= k < |s|
      ensures s[k] in cs
    {
      assert s[k] == t[k - i];
    }
    assert r != [] ==> r[0] == t[0];
    assert StripsAt(r, s, cs, i, j);
  }

  /** Python's `s.strip()`. */
  function Strip(s: string): string
  {
    StripChars(s, Whitespace)
  }

  /** The strip of a string is unique: `IsStripOf` pins down one result. */
  lemma StripIsUnique(r1: string, r2: string, s: string, cs: set<char>)
    requires IsStripOf(r1, s, cs) && IsStripOf(r2, s, cs)
    ensures r1 == r2
  {
    if r1 != [] {
      NonEmptyStripIsUnique(r1, r2, s, cs);
    } else if r2 != [] {
      NonEmptyStripIsUnique(r2, r1, s, cs);
    }
  }

  /** A non-empty strip starts and ends at the first and last characters outside `cs`, so any other strip equals it. */
  lemma NonEmptyStripIsUnique(r1: string, r2: string, s: string, cs: set<char>)
    requires IsStripOf(r1, s, cs) && IsStripOf(r2, s, cs) && r1 != []
    ensures r1 == r2
  {
    var i1, j1 :| StripsAt(r1, s, cs, i1, j1);
    var i2, j2 :| StripsAt(r2, s, cs, i2, j2);
    assert s[i1] !in cs by { assert s[i1] == r1[0]; }
    assert s[j1 - 1] !in cs by { assert s[j1 - 1] == r1[|r1| - 1]; }
    assert i2 <= i1 < j2;
    assert i2 < j1 <= j2;
    assert s[i2] !in cs by { assert s[i2] == r2[0]; }
    assert s[j2 - 1] !in cs by { assert s[j2 - 1] == r2[|r2| - 1]; }
    assert i1 <= i2;
    assert j2 <= j1;
  }

  /** Python's `s.replace(a, b)` for one-character `a` and `b`. */
  function ReplaceChar(s: string, a: char, b: char): (r: string)
    ensures |r| == |s|
    ensures forall k :: 0 <= k < |s| ==> r[k] == (if s[k] == a then b else s[k])
    ensures a != b ==> a !in r
  {
    if s == [] then []
    else [if s[0] == a then b else s[0]] + ReplaceChar(s[1..], a, b)
  }

  /** `a` occurs in `s` starting at position `i`. */
  predicate OccursAt(a: string, s: string, i: nat)
  {
    i + |a| <= |s| && s[i..i + |a|] == a
  }

  /** `a` occurs in `s` as a contiguous piece. */
  predicate IsSubstring(a: string, s: string)
  {
    exists i: nat :: i <= |s| && OccursAt(a, s, i)
  }

  /** The empty string occurs in every string. */
  lemma EmptyIsSubstring(s: string)
    ensures IsSubstring([], s)
  {
    assert OccursAt([], s, 0);
  }

  /** A string that occurs in `s` is found in any string that has `s` as a piece. */
  lemma SubstringOfConcat(a: string, s: string, pre: string, post: string)
    requires IsSubstring(a, s)
    ensures IsSubstring(a, pre + s + post)
  {
    var i: nat :| i <= |s| && OccursAt(a, s, i);
    var t := pre + s + post;
    assert t[|pre| + i..|pre| + i + |a|] == a;
    assert OccursAt(a, t, |pre| + i);
  }

  /** A non-empty string whose first character is absent from `s` does not occur in it. */
  lemma AbsentFirstChar(a: string, s: string)
    requires a != [] && a[0] !in s
    ensures !IsSubstring(a, s)
  {
  }

  /** Index of the first occurrence of `c` in `s`. */
  function IndexOf(s: string, c: char): (i: nat)
    requires c in s
    ensures i < |s| && s[i] == c && c !in s[..i]
  {
    if s[0] == c then 0
    else
      var i := 1 + IndexOf(s[1..], c);
      assert s[..i] == [s[0]] + s[1..][..i - 1];
      i
  }

  /** The parts joined with `sep` between consecutive parts. */
  function Join(parts: seq<string>, sep: char): string
    requires |parts| >= 1
  {
    if |parts| == 1 then parts[0] else parts[0] + [sep] + Join(parts[1..], sep)
  }

  /** The joined string starts with the first part. */
  lemma {:induction false} JoinStartsWithFirst(parts: seq<string>, sep: char)
    requires |parts| >= 1
    ensures parts[0] <= Join(parts, sep)
  {
    if |parts| > 1 {
      assert Join(parts, sep) == parts[0] + ([sep] + Join(parts[1..], sep));
    }
  }

  /** Joining two runs of parts is joining each and putting the separator between. */
  lemma {:induction false} JoinAppend(front: seq<string>, back: seq<string>, sep: char)
    requires |front| >= 1 && |back| >= 1
    ensures Join(front + back, sep) == Join(front, sep) + [sep] + Join(back, sep)
    decreases |front|
  {
    if |front| == 1 {
      assert (front + back)[1..] == back;
    } else {
      assert (front + back)[1..] == front[1..] + back;
      JoinAppend(front[1..], back, sep);
    }
  }

  lemma Join2(parts: seq<string>, sep: char)
    requires |parts| == 2
    ensures Join(parts, sep) == parts[0] + [sep] + parts[1]
  {
    assert parts[1..] == [parts[1]];
  }

  lemma Join3(parts: seq<string>, sep: char)
    requires |parts| == 3
    ensures Join(parts, sep) == parts[0] + [sep] + parts[1] + [sep] + parts[2]
  {
    Join2(parts[1..], sep);
  }

  /** Python's `s.split(sep)` for a one-character separator. */
  function Split(s: string, sep: char): (parts: seq<string>)
    ensures |parts| >= 1
    decreases |s|
  {
    if sep !in s then [s]
    else
      var i := IndexOf(s, sep);
      [s[..i]] + Split(s[i + 1..], sep)
  }

  /** The pieces of a split hold no separator, and `Join` puts them back together. */
  lemma {:induction false} SplitIsJoinInverse(s: string, sep: char)
    ensures forall k :: 0 <= k < |Split(s, sep)| ==> sep !in Split(s, sep)[k]
    ensures Join(Split(s, sep), sep) == s
    decreases |s|
  {
    if sep in s {
      var i := IndexOf(s, sep);
      var rest := Split(s[i + 1..], sep);
      SplitIsJoinInverse(s[i + 1..], sep);
      var parts := [s[..i]] + rest;
      assert parts[1..] == rest;
      assert s == s[..i] + [sep] + s[i + 1..];
    }
  }

  /** `Split` undoes `Join` when no part contains the separator. */
  lemma {:induction false} SplitJoin(parts: seq<string>, sep: char)
    requires |parts| >= 1
    requires forall k :: 0 <= k < |parts| ==> sep !in parts[k]
    ensures Split(Join(parts, sep), sep) == parts
    decreases |parts|
  {
    var s := Join(parts, sep);
    if |parts| == 1 {
      assert sep !in s;
    } else {
      var tail := Join(parts[1..], sep);
      assert s == parts[0] + [sep] + tail;
      assert sep in s by { assert s[|parts[0]|] == sep; }
      var i := IndexOf(s, sep);
      assert i == |parts[0]| by {
        assert s[..|parts[0]|] == parts[0];
      }
      assert s[..i] == parts[0];
      assert s[i + 1..] == tail;
      SplitJoin(parts[1..], sep);
      assert Split(s, sep) == [parts[0]] + parts[1..];
    }
  }
}
