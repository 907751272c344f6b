/** The Python string and path built-ins the installer relies on: `os.path.join`,
    `str.replace`, `str.split`, `str.join`, stated over sequences. */
module Strings {

  predicate StartsWith<T(==)>(s: seq<T>, prefix: seq<T>)
  {
    |prefix| <= |s| && s[..|prefix|] == prefix
  }

  predicate EndsWith<T(==)>(s: seq<T>, suffix: seq<T>)
  {
    |suffix| <= |s| && s[|s| - |suffix|..] == suffix
  }

  /** `pat` occurs in `s` starting at index `i`. */
  predicate OccursAt<T(==)>(s: seq<T>, pat: seq<T>, i: nat)
  {
    i + |pat| <= |s| && s[i..i + |pat|] == pat
  }

  /** `pat` occurs nowhere in `s`. */
  ghost predicate Absent<T>(pat: seq<T>, s: seq<T>)
  {
    forall i: nat :: !OccursAt(s, pat, i)
  }

  // ---------------------------------------------------------------------------
  // os.path.join

  /** `os.path.join(a, b)` on POSIX: an absolute `b` discards `a`; otherwise `b` is
      appended to `a`, with a `/` between them unless `a` is empty or already ends
      in one. The result always ends with `b`, and keeps `a` as its prefix unless
      `b` is absolute. */
  function PathJoin(a: string, b: string): (r: string)
    ensures EndsWith(r, b)
    ensures StartsWith(b, "/") ==> r == b
    ensures !StartsWith(b, "/") ==> StartsWith(r, a) && |r| <= |a| + 1 + |b|
    ensures !StartsWith(b, "/") && (a == [] || a[|a| - 1] == '/') ==> r == a + b
    ensures !StartsWith(b, "/") && a != [] && a[|a| - 1] != '/' ==> r == a + "/" + b
  {
    if StartsWith(b, "/") then b
    else if a == [] || a[|a| - 1] == '/' then a + b
    else a + "/" + b
  }

  /** A name whose first character is not `/` is relative. */
  lemma Relative(b: string)
    requires b != [] && b[0] != '/'
    ensures !StartsWith(b, "/")
  {
    assert b[..1][0] == b[0];
  }

  // ---------------------------------------------------------------------------
  // str.join, str.split, str.replace

  /** `sep.join(parts)`. */
  function JoinWith<T>(parts: seq<seq<T>>, sep: seq<T>): seq<T>
    decreases |parts|
  {
    if |parts| == 0 then []
    else if |parts| == 1 then parts[0]
    else parts[0] + sep + JoinWith(parts[1..], sep)
  }

  /** `s.split(sep)` for a non-empty separator: the pieces between the
      non-overlapping occurrences of `sep`, found from the left. There is always
      at least one piece. */
  function Split<T(==)>(s: seq<T>, sep: seq<T>): (parts: seq<seq<T>>)
    requires sep != []
    ensures |parts| >= 1
    decreases |s|
  {
    if |s| < |sep| then [s]
    else if s[..|sep|] == sep then [[]] + Split(s[|sep|..], sep)
    else
      var rest := Split(s[1..], sep);
      [[s[0]] + rest[0]] + rest[1..]
  }

  /** `s.replace(pat, rep)` for a non-empty pattern: every non-overlapping
      occurrence of `pat`, found from the left, becomes `rep`. */
  function Replace<T(==)>(s: seq<T>, pat: seq<T>, rep: seq<T>): seq<T>
    requires pat != []
    decreases |s|
  {
    if |s| < |pat| then s
    else if s[..|pat|] == pat then rep + Replace(s[|pat|..], pat, rep)
    else [s[0]] + Replace(s[1..], pat, rep)
  }

  lemma JoinWithCons<T>(x: seq<T>, y: seq<T>, rest: seq<seq<T>>, sep: seq<T>)
    ensures JoinWith([x + y] + rest, sep) == x + JoinWith([y] + rest, sep)
  {
    assert ([x + y] + rest)[1..] == rest;
    assert ([y] + rest)[1..] == rest;
  }

  lemma {:induction false} JoinWithSnoc<T>(xs: seq<seq<T>>, y: seq<T>, sep: seq<T>)
    requires xs != []
    ensures JoinWith(xs + [y], sep) == JoinWith(xs, sep) + sep + y
    decreases |xs|
  {
    if |xs| == 1 {
      assert (xs + [y])[1..] == [y];
    } else {
      assert (xs + [y])[1..] == xs[1..] + [y];
      JoinWithSnoc(xs[1..], y, sep);
    }
  }

  /** Replacing a pattern by itself changes nothing. */
  lemma {:induction false} ReplaceSelf<T>(s: seq<T>, pat: seq<T>)
    requires pat != []
    ensures Replace(s, pat, pat) == s
    decreases |s|
  {
    if |s| < |pat| {
    } else if s[..|pat|] == pat {
      ReplaceSelf(s[|pat|..], pat);
      assert s == s[..|pat|] + s[|pat|..];
    } else {
      ReplaceSelf(s[1..], pat);
      assert s == [s[0]] + s[1..];
    }
  }

  /** `s.replace(pat, rep) == rep.join(s.split(pat))`: replacement is splitting
      at the pattern and joining with the replacement. */
  lemma {:induction false} ReplaceIsSplitJoin<T>(s: seq<T>, pat: seq<T>, rep: seq<T>)
    requires pat != []
    ensures Replace(s, pat, rep) == JoinWith(Split(s, pat), rep)
    decreases |s|
  {
    if |s| < |pat| {
    } else if s[..|pat|] == pat {
      var rest := Split(s[|pat|..], pat);
      ReplaceIsSplitJoin(s[|pat|..], pat, rep);
      assert ([[]] + rest)[1..] == rest;
    } else {
      var rest := Split(s[1..], pat);
      ReplaceIsSplitJoin(s[1..], pat, rep);
      JoinWithCons([s[0]], rest[0], rest[1..], rep);
      assert [rest[0]] + rest[1..] == rest;
    }
  }

  /** Splitting and joining back with the same separator restores the text. */
  lemma SplitJoin<T>(s: seq<T>, sep: seq<T>)
    requires sep != []
    ensures JoinWith(Split(s, sep), sep) == s
  {
    ReplaceIsSplitJoin(s, sep, sep);
    ReplaceSelf(s, sep);
  }

  /** Text in which the pattern does not occur is left unchanged by `replace`. */
  lemma {:induction false} ReplaceAbsent<T>(s: seq<T>, pat: seq<T>, rep: seq<T>)
    requires pat != [] && Absent(pat, s)
    ensures Replace(s, pat, rep) == s
    decreases |s|
  {
    if |s| >= |pat| {
      assert !OccursAt(s, pat, 0);
      forall i: nat ensures !OccursAt(s[1..], pat, i) {
        assert !OccursAt(s, pat, i + 1);
        if i + |pat| <= |s| - 1 {
          assert s[1..][i..i + |pat|] == s[i + 1..i + 1 + |pat|];
        }
      }
      ReplaceAbsent(s[1..], pat, rep);
      assert s == [s[0]] + s[1..];
    }
  }

  /** The first piece of a split begins the text. */
  lemma {:induction false} SplitFirstPiece<T>(s: seq<T>, sep: seq<T>)
    requires sep != []
    ensures StartsWith(s, Split(s, sep)[0])
    decreases |s|
  {
    if |s| >= |sep| && s[..|sep|] != sep {
      SplitFirstPiece(s[1..], sep);
      var r0 := Split(s[1..], sep)[0];
      assert ([s[0]] + r0)[..|r0| + 1] == [s[0]] + s[1..][..|r0|];
      assert s == [s[0]] + s[1..];
    }
  }

  /** No piece of a split contains the separator. */
  lemma {:induction false} SplitPiecesFree<T>(s: seq<T>, sep: seq<T>)
    requires sep != []
    ensures forall k :: 0 <= k < |Split(s, sep)| ==> Absent(sep, Split(s, sep)[k])
    decreases |s|
  {
    if |s| < |sep| {
      forall i: nat ensures !OccursAt(s, sep, i) {
      }
    } else if s[..|sep|] == sep {
      SplitPiecesFree(s[|sep|..], sep);
      var rest := Split(s[|sep|..], sep);
      forall i: nat ensures !OccursAt([], sep, i) {
      }
      assert forall k :: 1 <= k < |[[]] + rest| ==> ([[]] + rest)[k] == rest[k - 1];
    } else {
      SplitPiecesFree(s[1..], sep);
      SplitFirstPiece(s[1..], sep);
      var rest := Split(s[1..], sep);
      var p := [s[0]] + rest[0];
      forall i: nat ensures !OccursAt(p, sep, i) {
        if i > 0 {
          assert !OccursAt(rest[0], sep, i - 1);
          if i + |sep| <= |p| {
            assert p[i..i + |sep|] == rest[0][i - 1..i - 1 + |sep|];
          }
        }
      }
      assert forall k :: 1 <= k < |[p] + rest[1..]| ==> ([p] + rest[1..])[k] == rest[k];
    }
  }

  /** `r` is `s` with `pat` substituted by `rep`: `s` is pieces free of `pat`
      joined by `pat`, and `r` is the same pieces joined by `rep`. */
  ghost predicate Substitutes<T>(s: seq<T>, pat: seq<T>, rep: seq<T>, r: seq<T>)
    requires pat != []
  {
    var parts := Split(s, pat);
    JoinWith(parts, pat) == s && r == JoinWith(parts, rep) &&
    forall k :: 0 <= k < |parts| ==> Absent(pat, parts[k])
  }

  /** `replace` substitutes every occurrence: the text falls into pieces free of
      the pattern, and the result is those pieces joined by the replacement. */
  lemma ReplaceSubstitutes<T>(s: seq<T>, pat: seq<T>, rep: seq<T>)
    requires pat != []
    ensures Substitutes(s, pat, rep, Replace(s, pat, rep))
  {
    SplitJoin(s, pat);
    ReplaceIsSplitJoin(s, pat, rep);
    SplitPiecesFree(s, pat);
  }

  /** The last piece of a split at a single-element separator `c` holds no `c`,
      ends the text, and is either the whole text or preceded by a `c`. */
  lemma SplitLastPiece<T>(s: seq<T>, c: T)
    ensures var parts := Split(s, [c]);
            var last := parts[|parts| - 1];
            c !in last && EndsWith(s, last) && (|last| < |s| ==> s[|s| - |last| - 1] == c)
  {
    var parts := Split(s, [c]);
    var n := |parts|;
    SplitJoin(s, [c]);
    SplitPiecesFree(s, [c]);
    var last := parts[n - 1];
    forall j | 0 <= j < |last| ensures last[j] != c {
      assert !OccursAt(last, [c], j);
      assert last[j..j + 1] == [last[j]];
    }
    if n > 1 {
      assert parts == parts[..n - 1] + [parts[n - 1]];
      JoinWithSnoc(parts[..n - 1], parts[n - 1], [c]);
    }
  }

  /** `s.split("/")[-1]`: the part of a path after its last `/` (all of it when
      there is none). It holds no `/`, ends the path, and is preceded by a `/`
      whenever it is not the whole path. */
  function LastSegment(s: string): (r: string)
    ensures '/' !in r
    ensures EndsWith(s, r)
    ensures |r| < |s| ==> s[|s| - |r| - 1] == '/'
  {
    SplitLastPiece(s, '/');
    var parts := Split(s, "/");
    parts[|parts| - 1]
  }

  /** The last segment of `a/f` is `f` whenever `f` holds no `/`. */
  lemma LastSegmentOfChild(a: string, f: string)
    requires '/' !in f
    ensures LastSegment(a + "/" + f) == f
  {
    var s := a + "/" + f;
    var last := LastSegment(s);
    assert s[|s| - |f| - 1] == '/';
    assert forall j :: |s| - |f| <= j < |s| ==> s[j] == f[j - (|s| - |f|)];
    assert forall j :: |s| - |last| <= j < |s| ==> s[j] == last[j - (|s| - |last|)];
    assert |last| == |f|;
  }
}
