/** String operations the tools get from the JavaScript runtime: substring
    and regular-expression tests on property names, the default ordering of
    `Array.prototype.sort`, and joining/splitting `/`-separated paths. */
module Text {

  /** `pat` occurs in `s` starting at index `i`. */
  predicate OccursAt(s: string, pat: string, i: nat)
  {
    i + |pat| <= |s| && s[i..i + |pat|] == pat
  }

  /** Seen from `s[1..]`, an occurrence in `s` moves one place to the left. */
  lemma OccursShift(s: string, pat: string, i: nat)
    requires 1 <= i && |s| > 0
    ensures OccursAt(s, pat, i) <==> OccursAt(s[1..], pat, i - 1)
  {
    if i + |pat| <= |s| {
      SliceOfTail(s, i - 1, i - 1 + |pat|);
    }
  }

  /** A slice of `s[1..]` is the slice of `s` one place to the right. */
  lemma SliceOfTail<T>(s: seq<T>, a: nat, b: nat)
    requires a <= b < |s|
    ensures s[1..][a..b] == s[a + 1..b + 1]
  {
  }

  /** `/pat/.test(s)` for a pattern without metacharacters. */
  function Contains(s: string, pat: string): (r: bool)
    ensures r <==> exists i :: 0 <= i <= |s| && OccursAt(s, pat, i)
    decreases |s|
  {
    if OccursAt(s, pat, 0) then true
    else if |s| == 0 then false
    else
      var r := Contains(s[1..], pat);
      assert forall i :: 1 <= i <= |s| ==> (OccursAt(s, pat, i) <==> OccursAt(s[1..], pat, i - 1)) by {
        forall i | 1 <= i <= |s| { OccursShift(s, pat, i); }
      }
      if r then
        ghost var i :| 0 <= i <= |s[1..]| && OccursAt(s[1..], pat, i);
        assert OccursAt(s, pat, i + 1);
        true
      else
        false
  }

  /** The characters that `.` in a JavaScript regular expression does not match. */
  predicate LineTerminator(c: char)
  {
    c == '\n' || c == '\r' || c == '\U{2028}' || c == '\U{2029}'
  }

  /** A match of `/universal.*Id/` spanning `s[i..j + 2]`: "universal" at `i`,
      "Id" at `j`, and no line terminator between them. */
  predicate UniversalIdMatch(s: string, i: nat, j: nat)
  {
    i + 9 <= j && OccursAt(s, "universal", i) && OccursAt(s, "Id", j)
    && forall m :: i + 9 <= m < j ==> !LineTerminator(s[m])
  }

  /** "Id" occurs in `s` before the first line terminator. */
  function IdBeforeBreak(s: string): (r: bool)
    ensures r <==> exists j :: 0 <= j <= |s| && OccursAt(s, "Id", j)
                               && forall m :: 0 <= m < j ==> !LineTerminator(s[m])
    decreases |s|
  {
    if OccursAt(s, "Id", 0) then true
    else if |s| == 0 || LineTerminator(s[0]) then false
    else
      var r := IdBeforeBreak(s[1..]);
      assert forall j :: 1 <= j <= |s| ==> (OccursAt(s, "Id", j) <==> OccursAt(s[1..], "Id", j - 1)) by {
        forall j | 1 <= j <= |s| { OccursShift(s, "Id", j); }
      }
      assert forall m :: 1 <= m < |s| ==> s[m] == s[1..][m - 1];
      if r then
        ghost var j :| 0 <= j <= |s[1..]| && OccursAt(s[1..], "Id", j)
                       && forall m :: 0 <= m < j ==> !LineTerminator(s[1..][m]);
        assert OccursAt(s, "Id", j + 1);
        true
      else
        false
  }

  /** `/universal.*Id/.test(s)`, scanning for the leftmost "universal". */
  function MatchesUniversalId(s: string): (r: bool)
    ensures r <==> exists i, j :: 0 <= i <= j <= |s| && UniversalIdMatch(s, i, j)
    decreases |s|
  {
    if OccursAt(s, "universal", 0) && IdBeforeBreak(s[9..]) then
      ghost var j :| 0 <= j <= |s[9..]| && OccursAt(s[9..], "Id", j)
                     && forall m :: 0 <= m < j ==> !LineTerminator(s[9..][m]);
      MatchAfterUniversal(s, j);
      true
    else if |s| == 0 then
      false
    else
      var r := MatchesUniversalId(s[1..]);
      forall i, j | 1 <= i <= j <= |s|
        ensures UniversalIdMatch(s, i, j) <==> UniversalIdMatch(s[1..], i - 1, j - 1)
      {
        MatchShift(s, i, j);
      }
      NoMatchAtStart(s);
      if r then
        ghost var i, j :| 0 <= i <= j <= |s[1..]| && UniversalIdMatch(s[1..], i, j);
        assert UniversalIdMatch(s, i + 1, j + 1);
        true
      else
        false
  }

  /** An "Id" found in the text after a leading "universal" completes a
      match that starts at 0. */
  lemma MatchAfterUniversal(s: string, j: nat)
    requires OccursAt(s, "universal", 0) && j <= |s[9..]| && OccursAt(s[9..], "Id", j)
    requires forall m :: 0 <= m < j ==> !LineTerminator(s[9..][m])
    ensures UniversalIdMatch(s, 0, j + 9)
  {
    assert s[9..][j..j + 2] == s[j + 9..j + 11];
    forall m | 9 <= m < j + 9 ensures !LineTerminator(s[m]) {
      assert s[m] == s[9..][m - 9];
    }
  }

  lemma MatchShift(s: string, i: nat, j: nat)
    requires 1 <= i <= j <= |s|
    ensures UniversalIdMatch(s, i, j) <==> UniversalIdMatch(s[1..], i - 1, j - 1)
  {
    OccursShift(s, "universal", i);
    OccursShift(s, "Id", j);
    assert forall m :: 1 <= m < |s| ==> s[m] == s[1..][m - 1];
  }

  lemma NoMatchAtStart(s: string)
    ensures (exists j :: 0 <= j <= |s| && UniversalIdMatch(s, 0, j))
            ==> OccursAt(s, "universal", 0) && IdBeforeBreak(s[9..])
  {
    if j :| 0 <= j <= |s| && UniversalIdMatch(s, 0, j) {
      assert OccursAt(s[9..], "Id", j - 9);
      assert forall m :: 0 <= m < j - 9 ==> s[9..][m] == s[m + 9];
    }
  }

  /** The default order of `Array.prototype.sort` on strings: lexicographic
      by character code, a proper prefix first. */
  predicate LexLe(a: string, b: string)
  {
    if |a| == 0 then true
    else if |b| == 0 then false
    else if a[0] != b[0] then a[0] < b[0]
    else LexLe(a[1..], b[1..])
  }

  lemma LexLeTotal(a: string, b: string)
    ensures LexLe(a, b) || LexLe(b, a)
  {
    if |a| > 0 && |b| > 0 && a[0] == b[0] { LexLeTotal(a[1..], b[1..]); }
  }

  lemma LexLeTransitive(a: string, b: string, c: string)
    requires LexLe(a, b) && LexLe(b, c)
    ensures LexLe(a, c)
  {
    if |a| > 0 && |b| > 0 && |c| > 0 && a[0] == b[0] && b[0] == c[0] {
      LexLeTransitive(a[1..], b[1..], c[1..]);
    }
  }

  predicate Sorted(s: seq<string>)
  {
    forall i, j :: 0 <= i < j < |s| ==> LexLe(s[i], s[j])
  }

  function Insert(x: string, s: seq<string>): (r: seq<string>)
    requires Sorted(s)
    ensures Sorted(r)
    ensures multiset(r) == multiset(s) + multiset{x}
  {
    if |s| == 0 then [x]
    else if LexLe(x, s[0]) then
      forall z | z in s ensures LexLe(x, z) {
        var j :| 0 <= j < |s| && s[j] == z;
        if j > 0 { LexLeTransitive(x, s[0], s[j]); }
      }
      ConsSorted(x, s);
      [x] + s
    else
      LexLeTotal(x, s[0]);
      var t := Insert(x, s[1..]);
      forall z | z in t ensures LexLe(s[0], z) {
        assert z in multiset(t);
        if z != x {
          assert z in multiset(s[1..]);
          var k :| 0 <= k < |s[1..]| && s[1..][k] == z;
          assert s[k + 1] == z;
        }
      }
      ConsSorted(s[0], t);
      assert s == [s[0]] + s[1..];
      [s[0]] + t
  }

  /** Putting a lower bound of a sorted list in front keeps it sorted. */
  lemma ConsSorted(y: string, t: seq<string>)
    requires Sorted(t) && forall z :: z in t ==> LexLe(y, z)
    ensures Sorted([y] + t)
  {
    var r := [y] + t;
    forall i, j | 0 <= i < j < |r| ensures LexLe(r[i], r[j]) {
      assert r[j] == t[j - 1];
      if i > 0 { assert r[i] == t[i - 1]; }
    }
  }

  /** `keys.sort()`: the keys in ascending `LexLe` order, as a permutation. */
  function SortStrings(s: seq<string>): (r: seq<string>)
    ensures Sorted(r)
    ensures multiset(r) == multiset(s)
  {
    if |s| == 0 then []
    else
      assert s == [s[0]] + s[1..];
      Insert(s[0], SortStrings(s[1..]))
  }

  /** `a/b/c`: the segments joined with "/". */
  function JoinPath(segs: seq<string>): string
  {
    if |segs| == 0 then ""
    else if |segs| == 1 then segs[0]
    else segs[0] + "/" + JoinPath(segs[1..])
  }

  /** Joining a non-empty prefix and a non-empty rest puts one "/" between them. */
  lemma {:induction false} JoinPathAppend(a: seq<string>, b: seq<string>)
    requires |a| > 0 && |b| > 0
    ensures JoinPath(a + b) == JoinPath(a) + "/" + JoinPath(b)
  {
    if |a| == 1 {
      assert (a + b)[1..] == b;
    } else {
      assert (a + b)[1..] == a[1..] + b;
      JoinPathAppend(a[1..], b);
    }
  }

  /** Index of the first "/" in `s`, or `|s|` if there is none. */
  function FirstSlash(s: string): (n: nat)
    ensures n <= |s|
    ensures forall m :: 0 <= m < n ==> s[m] != '/'
    ensures n < |s| ==> s[n] == '/'
  {
    if |s| == 0 || s[0] == '/' then 0
    else
      var n := FirstSlash(s[1..]);
      assert forall m :: 1 <= m < |s| ==> s[m] == s[1..][m - 1];
      n + 1
  }

  /** `s.split("/")`. */
  function SplitPath(s: string): seq<string>
    decreases |s|
  {
    var n := FirstSlash(s);
    if n == |s| then [s] else [s[..n]] + SplitPath(s[n + 1..])
  }

  /** Splitting a joined path gives the segments back, provided no segment
      contains a "/". */
  lemma {:induction false} SplitJoinPath(segs: seq<string>)
    requires |segs| > 0
    requires forall i :: 0 <= i < |segs| ==> '/' !in segs[i]
    ensures SplitPath(JoinPath(segs)) == segs
  {
    var a := segs[0];
    if |segs| == 1 {
      assert FirstSlash(a) == |a|;
    } else {
      var s := JoinPath(segs);
      var rest := JoinPath(segs[1..]);
      assert s == a + "/" + rest;
      assert FirstSlash(s) == |a| by {
        assert forall m :: 0 <= m < |a| ==> s[m] == a[m];
        assert s[|a|] == '/';
      }
      assert s[..|a|] == a;
      assert s[|a| + 1..] == rest;
      SplitJoinPath(segs[1..]);
      assert segs == [a] + segs[1..];
    }
  }

  /** Distinct slash-free segment lists give distinct paths. */
  lemma JoinPathInjective(a: seq<string>, b: seq<string>)
    requires |a| > 0 && |b| > 0
    requires forall i :: 0 <= i < |a| ==> '/' !in a[i]
    requires forall i :: 0 <= i < |b| ==> '/' !in b[i]
    requires JoinPath(a) == JoinPath(b)
    ensures a == b
  {
    SplitJoinPath(a);
    SplitJoinPath(b);
  }
}
