/**
 * The handful of Python `str` operations the generators and the validator use,
 * written out with Python's semantics: `w in s`, `s.find(w)`, `s.split(sep)`,
 * `s.strip()`, `s.strip(chars)` and `s.lower()`.
 */
module PyStr {
  import opened Wrappers

  /** `w` occurs in `s` starting at index `j`. */
  predicate OccursAt(s: string, w: string, j: nat) {
    j + |w| <= |s| && s[j..j + |w|] == w
  }

  /** Leftmost index at which `w` occurs in `s` (Python's `s.find(w)`, with None for -1). */
  function Find(s: string, w: string): (r: Option<nat>)
    ensures r.Some? ==> OccursAt(s, w, r.value)
    ensures r.Some? ==> forall j: nat :: j < r.value ==> !OccursAt(s, w, j)
    ensures r.None? ==> forall j: nat :: !OccursAt(s, w, j)
    decreases |s|
  {
    if |w| > |s| then None
    else if s[..|w|] == w then Some(0)
    else
      assert !OccursAt(s, w, 0);
      assert forall j: nat :: 0 < j ==> (OccursAt(s, w, j) <==> OccursAt(s[1..], w, j - 1)) by {
        forall j: nat | 0 < j ensures OccursAt(s, w, j) <==> OccursAt(s[1..], w, j - 1) {
          if j + |w| <= |s| {
            assert s[1..][j - 1..j - 1 + |w|] == s[j..j + |w|];
          }
        }
      }
      match Find(s[1..], w)
      case None => None
      case Some(k) => Some(k + 1)
  }

  /** Python's substring test `w in s`. */
  predicate Contains(s: string, w: string) {
    exists j: nat :: j <= |s| && OccursAt(s, w, j)
  }

  /** `w in s` exactly when `s.find(w)` finds it. */
  lemma FindIffContains(s: string, w: string)
    ensures Find(s, w).Some? <==> Contains(s, w)
  {
    if Find(s, w).Some? {
      assert OccursAt(s, w, Find(s, w).value);
    }
  }

  /** `w in s` holds exactly when `w` sits at some position of `s`. */
  lemma ContainsAt(s: string, w: string, i: nat)
    requires OccursAt(s, w, i)
    ensures Contains(s, w)
  {
  }

  lemma ContainsConcat(a: string, w: string, b: string)
    ensures Contains(a + w + b, w)
  {
    var s := a + w + b;
    assert s[|a|..|a| + |w|] == w;
    ContainsAt(s, w, |a|);
  }

  /** Growing a string on either side keeps every substring it had. */
  lemma ContainsExtend(s: string, w: string, left: string, right: string)
    requires Contains(s, w)
    ensures Contains(left + s + right, w)
  {
    var i: nat :| i <= |s| && OccursAt(s, w, i);
    var t := left + s + right;
    assert t[|left| + i..|left| + i + |w|] == s[i..i + |w|];
    ContainsAt(t, w, |left| + i);
  }

  lemma NotContainsEmpty(w: string)
    requires w != ""
    ensures !Contains("", w)
  {
  }

  /**
   * Python's `s.split(sep)` for a non-empty separator: the pieces between the
   * leftmost non-overlapping occurrences of `sep`, scanning left to right.
   */
  function Split(s: string, sep: string): (r: seq<string>)
    requires sep != ""
    ensures |r| >= 1
    decreases |s|
  {
    match Find(s, sep)
    case None => [s]
    case Some(i) => [s[..i]] + Split(s[i + |sep|..], sep)
  }

  /** Python's `sep.join(parts)`. */
  function Join(parts: seq<string>, sep: string): string
  {
    if parts == [] then ""
    else if |parts| == 1 then parts[0]
    else parts[0] + sep + Join(parts[1..], sep)
  }

  /** Joining the pieces with the separator gives back the original text. */
  lemma {:induction false} SplitJoin(s: string, sep: string)
    requires sep != ""
    ensures Join(Split(s, sep), sep) == s
    decreases |s|
  {
    match Find(s, sep)
    case None =>
    case Some(i) =>
      var rest := s[i + |sep|..];
      var parts := Split(rest, sep);
      SplitJoin(rest, sep);
      assert Split(s, sep) == [s[..i]] + parts;
      assert ([s[..i]] + parts)[1..] == parts;
      assert Join([s[..i]] + parts, sep) == s[..i] + sep + Join(parts, sep);
      assert s == s[..i] + sep + rest by {
        assert s[i..i + |sep|] == sep;
      }
  }

  /** No piece of a split contains the separator. */
  lemma {:induction false} SplitPiecesFree(s: string, sep: string)
    requires sep != ""
    ensures forall k :: 0 <= k < |Split(s, sep)| ==> !Contains(Split(s, sep)[k], sep)
    decreases |s|
  {
    FindIffContains(s, sep);
    if Find(s, sep).Some? {
      var i := Find(s, sep).value;
      var rest := s[i + |sep|..];
      SplitStep(s, sep, i);
      SplitPiecesFree(rest, sep);
      var p := s[..i];
      if Contains(p, sep) {
        var j: nat :| j <= |p| && OccursAt(p, sep, j);
        OccursAtTrans(s, p, 0, sep, j);
        assert false;
      }
    }
  }

  /** A string lacking some character of `w` does not contain `w`. */
  lemma MissingCharNotContains(s: string, w: string, m: nat)
    requires m < |w| && forall k :: 0 <= k < |s| ==> s[k] != w[m]
    ensures !Contains(s, w)
  {
    forall j: nat | j <= |s|
      ensures !OccursAt(s, w, j)
    {
      if j + |w| <= |s| {
        assert s[j..j + |w|][m] == s[j + m];
      }
    }
  }

  /** Text without the separator splits into itself alone. */
  lemma SplitNone(s: string, sep: string)
    requires sep != "" && !Contains(s, sep)
    ensures Split(s, sep) == [s]
  {
    FindIffContains(s, sep);
  }

  /**
   * When no character of `a` can start the separator, `a + sep + b` splits
   * into `a` followed by the pieces of `b`.
   */
  lemma SplitAfter(a: string, sep: string, b: string)
    requires sep != "" && forall k :: 0 <= k < |a| ==> a[k] != sep[0]
    ensures Split(a + sep + b, sep) == [a] + Split(b, sep)
  {
    var s := a + sep + b;
    assert s[|a|..|a| + |sep|] == sep;
    assert OccursAt(s, sep, |a|);
    forall j: nat | j < |a|
      ensures !OccursAt(s, sep, j)
    {
      if j + |sep| <= |s| {
        assert s[j..j + |sep|][0] == s[j] == a[j];
      }
    }
    var i := Find(s, sep).value;
    assert i == |a|;
    SplitStep(s, sep, i);
    assert s[..i] == a;
    assert s[i + |sep|..] == b;
  }

  /** Text that starts with the separator and holds no other splits into an empty piece and the rest. */
  lemma SplitAtStart(sep: string, rest: string)
    requires sep != "" && !Contains(rest, sep)
    ensures Split(sep + rest, sep) == ["", rest]
  {
    assert "" + sep + rest == sep + rest;
    SplitAfter("", sep, rest);
    SplitNone(rest, sep);
  }

  /** The split yields a second piece exactly when the separator occurs. */
  lemma SplitHasSecond(s: string, sep: string)
    requires sep != ""
    ensures |Split(s, sep)| >= 2 <==> Contains(s, sep)
  {
    FindIffContains(s, sep);
  }

  /** The first piece is the text before the first occurrence (all of `s` if none). */
  lemma SplitFirst(s: string, sep: string)
    requires sep != ""
    ensures Split(s, sep)[0] == if Contains(s, sep) then s[..Find(s, sep).value] else s
  {
    FindIffContains(s, sep);
  }

  /** One step of the split: the piece before the first separator, then the split of the rest. */
  lemma SplitStep(s: string, sep: string, i: nat)
    requires sep != "" && Find(s, sep) == Some(i)
    ensures Split(s, sep) == [s[..i]] + Split(s[i + |sep|..], sep)
    ensures OccursAt(s, s[..i], 0) && OccursAt(s, s[i + |sep|..], i + |sep|)
  {
    assert s[0..i] == s[..i];
    assert s[i + |sep|..i + |sep| + |s[i + |sep|..]|] == s[i + |sep|..];
  }

  /** Every piece of a split sits at some offset of the original text. */
  lemma {:induction false} SplitPieceOffset(s: string, sep: string, k: nat) returns (off: nat)
    requires sep != "" && k < |Split(s, sep)|
    ensures OccursAt(s, Split(s, sep)[k], off)
    decreases |s|
  {
    if Find(s, sep).None? {
      off := 0;
      assert s[0..|s|] == s;
    } else {
      var i := Find(s, sep).value;
      var rest := s[i + |sep|..];
      SplitStep(s, sep, i);
      if k == 0 {
        off := 0;
      } else {
        var o := SplitPieceOffset(rest, sep, k - 1);
        OccursAtTrans(s, rest, i + |sep|, Split(rest, sep)[k - 1], o);
        off := i + |sep| + o;
      }
    }
  }

  /** What a part of a string contains, the string contains. */
  lemma ContainsSlice(s: string, i: nat, j: nat, w: string)
    requires i <= j <= |s| && Contains(s[i..j], w)
    ensures Contains(s, w)
  {
    ContainsExtend(s[i..j], w, s[..i], s[j..]);
    assert s[..i] + s[i..j] + s[j..] == s;
  }

  /** What a string found at an offset of `s` contains, `s` contains. */
  lemma ContainsWithin(s: string, i: nat, r: string, w: string)
    requires OccursAt(s, r, i) && Contains(r, w)
    ensures Contains(s, w)
  {
    ContainsSlice(s, i, i + |r|, w);
  }

  /** A part of a part of `s` is a part of `s`. */
  lemma OccursAtTrans(s: string, r: string, i: nat, q: string, j: nat)
    requires OccursAt(s, r, i) && OccursAt(r, q, j)
    ensures OccursAt(s, q, i + j)
  {
    var t := s[i + j..i + j + |q|];
    forall k | 0 <= k < |q| ensures t[k] == q[k] {
      assert t[k] == s[i + j + k];
      assert q[k] == r[j + k];
      assert r[j + k] == s[i..i + |r|][j + k];
    }
    assert t == q;
  }

  // ---- strip ----

  /** The characters Python's `str.isspace` accepts (what `strip()` removes). */
  const Whitespace: set<char> :=
    {' ', '\t', '\n', '\r', '\U{000B}', '\U{000C}', '\U{001C}', '\U{001D}', '\U{001E}', '\U{001F}',
     '\U{0085}', '\U{00A0}', '\U{1680}', '\U{2000}', '\U{2001}', '\U{2002}', '\U{2003}', '\U{2004}',
     '\U{2005}', '\U{2006}', '\U{2007}', '\U{2008}', '\U{2009}', '\U{200A}', '\U{2028}', '\U{2029}',
     '\U{202F}', '\U{205F}', '\U{3000}'}

  /** The quote characters of `strip('"\'')`. */
  const Quotes: set<char> := {'"', '\''}

  /** Drops every leading character in `cs`: the result is the longest suffix starting outside `cs`. */
  function TrimLeft(s: string, cs: set<char>): (r: string)
    ensures |r| <= |s| && r == s[|s| - |r|..]
    ensures forall k :: 0 <= k < |s| - |r| ==> s[k] in cs
    ensures r != "" ==> r[0] !in cs
    decreases |s|
  {
    if s != [] && s[0] in cs then
      var r := TrimLeft(s[1..], cs);
      assert r == s[|s| - |r|..];
      assert forall k :: 1 <= k < |s| - |r| ==> s[k] == s[1..][k - 1];
      r
    else s
  }

  /** Drops every trailing character in `cs`: the result is the longest prefix ending outside `cs`. */
  function TrimRight(s: string, cs: set<char>): (r: string)
    ensures |r| <= |s| && r == s[..|r|]
    ensures forall k :: |r| <= k < |s| ==> s[k] in cs
    ensures r != "" ==> r[|r| - 1] !in cs
    decreases |s|
  {
    if s != [] && s[|s| - 1] in cs then
      var r := TrimRight(s[..|s| - 1], cs);
      assert r == s[..|r|];
      assert forall k :: |r| <= k < |s| - 1 ==> s[k] == s[..|s| - 1][k];
      r
    else s
  }

  lemma TrimLeftSkip(c: char, s: string, cs: set<char>)
    requires c in cs
    ensures TrimLeft([c] + s, cs) == TrimLeft(s, cs)
  {
    assert ([c] + s)[1..] == s;
  }

  lemma TrimLeftKeep(s: string, cs: set<char>)
    requires s != [] && s[0] !in cs
    ensures TrimLeft(s, cs) == s
  {
  }

  lemma TrimRightSkip(s: string, c: char, cs: set<char>)
    requires c in cs
    ensures TrimRight(s + [c], cs) == TrimRight(s, cs)
  {
    assert (s + [c])[..|s|] == s;
  }

  lemma TrimRightKeep(s: string, cs: set<char>)
    requires s != [] && s[|s| - 1] !in cs
    ensures TrimRight(s, cs) == s
  {
  }

  /** One leading character of `cs` goes when both ends of the rest are outside `cs`. */
  lemma StripCharsPadded(c: char, s: string, cs: set<char>)
    requires c in cs && s != [] && s[0] !in cs && s[|s| - 1] !in cs
    ensures StripChars([c] + s, cs) == s
  {
    TrimLeftSkip(c, s, cs);
    TrimLeftKeep(s, cs);
    TrimRightKeep(s, cs);
  }

  /** Python's `s.strip(chars)` for the character set `cs`. */
  function StripChars(s: string, cs: set<char>): (r: string)
  {
    TrimRight(TrimLeft(s, cs), cs)
  }

  /** Python's `s.strip()`. */
  function Strip(s: string): string
  {
    StripChars(s, Whitespace)
  }

  /** `r` is `s` with a prefix of length `i` and some suffix, all of whose characters are in `cs`, cut off. */
  predicate CutAt(s: string, r: string, i: nat, cs: set<char>) {
    i + |r| <= |s| && r == s[i..i + |r|]
    && (forall k :: 0 <= k < i ==> s[k] in cs)
    && (forall k :: i + |r| <= k < |s| ==> s[k] in cs)
  }

  /**
   * What `strip(chars)` keeps is a contiguous part of its input, everything cut
   * on either side is in `cs`, and neither end of the result is in `cs`.
   */
  lemma StripCharsShape(s: string, cs: set<char>) returns (i: nat)
    ensures CutAt(s, StripChars(s, cs), i, cs)
    ensures var r := StripChars(s, cs); r != "" ==> r[0] !in cs && r[|r| - 1] !in cs
  {
    var l := TrimLeft(s, cs);
    var r := TrimRight(l, cs);
    i := |s| - |l|;
    assert l == s[i..];
    assert r == l[..|r|];
    assert r == s[i..i + |r|];
    forall k | 0 <= k < i ensures s[k] in cs {
    }
    forall k | i + |r| <= k < |s| ensures s[k] in cs {
      assert s[k] == l[k - i];
    }
    assert CutAt(s, r, i, cs);
    assert StripChars(s, cs) == r;
  }

  /** Stripping cannot introduce a substring that was absent. */
  lemma StripCharsKeepsAbsence(s: string, cs: set<char>, w: string) returns (i: nat)
    requires !Contains(s, w)
    ensures OccursAt(s, StripChars(s, cs), i) && !Contains(StripChars(s, cs), w)
  {
    i := StripCharsShape(s, cs);
    if Contains(StripChars(s, cs), w) {
      ContainsWithin(s, i, StripChars(s, cs), w);
    }
  }

  /**
   * Two strips in a row leave no substring the input lacks, and both ends of
   * the result are outside the second character set.
   */
  lemma StripTwiceShape(s: string, cs1: set<char>, cs2: set<char>, w: string)
    requires !Contains(s, w)
    ensures var r := StripChars(StripChars(s, cs1), cs2);
      !Contains(r, w) && (r != "" ==> r[0] !in cs2 && r[|r| - 1] !in cs2)
  {
    var once := StripChars(s, cs1);
    var _ := StripCharsKeepsAbsence(s, cs1, w);
    var _ := StripCharsKeepsAbsence(once, cs2, w);
    var _ := StripCharsShape(once, cs2);
  }

  // ---- lower ----

  /** Lower-cases the ASCII capitals and leaves every other character alone. */
  function LowerChar(c: char): char
  {
    if 'A' <= c <= 'Z' then (c as int - 'A' as int + 'a' as int) as char else c
  }

  /** Upper-cases the ASCII small letters and leaves every other character alone. */
  function UpperChar(c: char): char
  {
    if 'a' <= c <= 'z' then (c as int - 'a' as int + 'A' as int) as char else c
  }

  /** Python's `s.lower()`, on the ASCII letters. */
  function Lower(s: string): (r: string)
    ensures |r| == |s| && forall k :: 0 <= k < |s| ==> r[k] == LowerChar(s[k])
  {
    seq(|s|, k requires 0 <= k < |s| => LowerChar(s[k]))
  }

  /**
   * Python's `s.upper()` on ASCII text. Beyond ASCII Python also maps, for
   * instance, a dotless i to `I` and a sharp s to `SS`; this one does not.
   */
  function Upper(s: string): (r: string)
    ensures |r| == |s| && forall k :: 0 <= k < |s| ==> r[k] == UpperChar(s[k])
  {
    seq(|s|, k requires 0 <= k < |s| => UpperChar(s[k]))
  }

  lemma LowerSlice(s: string, i: nat, j: nat)
    requires i <= j <= |s|
    ensures Lower(s[i..j]) == Lower(s)[i..j]
  {
  }

  /** A lower-case prefix survives `lower()` of the whole text. */
  lemma ContainsLowerPrefix(w: string, rest: string)
    requires Lower(w) == w
    ensures Contains(Lower(w + rest), w)
  {
    LowerConcat(w, rest);
    assert Lower(w + rest) == "" + w + Lower(rest);
    ContainsConcat("", w, Lower(rest));
  }

  lemma LowerConcat(a: string, b: string)
    ensures Lower(a + b) == Lower(a) + Lower(b)
  {
  }

  /** Every character is below 128, where `upper()` and `lower()` only swap the 26 letters. */
  predicate IsAscii(s: string)
  {
    forall k :: 0 <= k < |s| ==> s[k] < 128 as char
  }

  /** Lower-casing twice is lower-casing once. */
  lemma LowerIdempotent(s: string)
    ensures Lower(Lower(s)) == Lower(s)
  {
  }

  /** On ASCII text, lower-casing forgets an earlier upper-casing. */
  lemma LowerForgetsUpper(s: string)
    requires IsAscii(s)
    ensures Lower(Upper(s)) == Lower(s)
  {
  }

  /** A lower-case word found in a string is found in its lower-cased copy too. */
  lemma ContainsLower(s: string, w: string)
    requires Lower(w) == w
    requires Contains(s, w)
    ensures Contains(Lower(s), w)
  {
    var i: nat :| i <= |s| && OccursAt(s, w, i);
    var t := Lower(s);
    assert t[i..i + |w|] == Lower(s[i..i + |w|]);
    ContainsAt(t, w, i);
  }
}
