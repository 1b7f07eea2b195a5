/** Lyric lines and the stable ordering by time that every loaded lyric set has.

    The component sorts a freshly parsed array with `Array.prototype.sort` and
    the comparator `(a, b) => a.time - b.time`. That sort is stable, so the
    result is fully determined: it is sorted by `time`, and the lines sharing
    one `time` keep their input order. `SortByTime` is one stable sort (an
    insertion sort); `StableSortIsUnique` shows that every sequence with those
    two properties equals it, so the model does not depend on which stable
    algorithm the engine uses. */
module Lyrics {

  /** One timestamped caption entry: seconds from the start of the video, and the text shown. */
  datatype LyricLine = LyricLine(time: real, text: string)

  /** Ascending by `time`, the order the comparator `a.time - b.time` asks for. */
  predicate Sorted(s: seq<LyricLine>) {
    forall i, j :: 0 <= i < j < |s| ==> s[i].time <= s[j].time
  }

  /** The lines of `s` whose time is exactly `t`, in their order in `s`. */
  function TimeGroup(s: seq<LyricLine>, t: real): (g: seq<LyricLine>)
    ensures |g| <= |s|
  {
    if s == [] then []
    else TimeGroup(s[..|s| - 1], t) + (if s[|s| - 1].time == t then [s[|s| - 1]] else [])
  }

  /** `r` is what a stable sort by time makes of `s`: sorted, a permutation,
      and every group of equal-time lines in its input order. */
  ghost predicate StableSortOf(r: seq<LyricLine>, s: seq<LyricLine>) {
    && Sorted(r)
    && multiset(r) == multiset(s)
    && forall t :: TimeGroup(r, t) == TimeGroup(s, t)
  }

  /** Puts `x` into the sorted `r` after every line whose time is not later than `x`'s. */
  function Insert(r: seq<LyricLine>, x: LyricLine): (q: seq<LyricLine>)
    ensures |q| == |r| + 1
    ensures multiset(q) == multiset(r) + multiset{x}
  {
    if r == [] || r[|r| - 1].time <= x.time then r + [x]
    else
      assert r == r[..|r| - 1] + [r[|r| - 1]];
      Insert(r[..|r| - 1], x) + [r[|r| - 1]]
  }

  /** Stable sort by time: each line in turn is inserted behind the earlier ones of equal time. */
  function SortByTime(s: seq<LyricLine>): (r: seq<LyricLine>)
    ensures |r| == |s|
    ensures multiset(r) == multiset(s)
  {
    if s == [] then []
    else
      assert s == s[..|s| - 1] + [s[|s| - 1]];
      Insert(SortByTime(s[..|s| - 1]), s[|s| - 1])
  }

  lemma {:induction false} InsertKeepsSorted(r: seq<LyricLine>, x: LyricLine)
    requires Sorted(r)
    ensures Sorted(Insert(r, x))
  {
    if r == [] || r[|r| - 1].time <= x.time {
    } else {
      var y := r[|r| - 1];
      var q := Insert(r[..|r| - 1], x);
      InsertKeepsSorted(r[..|r| - 1], x);
      forall z | z in q
        ensures z.time <= y.time
      {
        assert z in multiset(r[..|r| - 1]) + multiset{x};
        if z != x {
          var i :| 0 <= i < |r| - 1 && r[..|r| - 1][i] == z;
          assert r[i] == z;
        }
      }
      forall i, j | 0 <= i < j < |q| + 1
        ensures (q + [y])[i].time <= (q + [y])[j].time
      {
        if j == |q| {
          assert q[i] in q;
        }
      }
    }
  }

  lemma {:induction false} InsertTimeGroup(r: seq<LyricLine>, x: LyricLine, t: real)
    ensures TimeGroup(Insert(r, x), t) == TimeGroup(r, t) + (if x.time == t then [x] else [])
  {
    if r == [] || r[|r| - 1].time <= x.time {
      assert (r + [x])[..|r|] == r;
    } else {
      var r', y := r[..|r| - 1], r[|r| - 1];
      InsertTimeGroup(r', x, t);
      GroupOfAppended(Insert(r', x), y, t);
      SwapGroups(TimeGroup(r', t), x, y, t);
    }
  }

  lemma GroupOfAppended(q: seq<LyricLine>, y: LyricLine, t: real)
    ensures TimeGroup(q + [y], t) == TimeGroup(q, t) + (if y.time == t then [y] else [])
  {
    assert (q + [y])[..|q|] == q;
  }

  lemma SwapGroups(g: seq<LyricLine>, x: LyricLine, y: LyricLine, t: real)
    requires x.time < y.time
    ensures g + (if x.time == t then [x] else []) + (if y.time == t then [y] else [])
         == g + (if y.time == t then [y] else []) + (if x.time == t then [x] else [])
  {
  }

  /** `SortByTime` meets the stable-sort specification. */
  lemma {:induction false} SortByTimeIsStable(s: seq<LyricLine>)
    ensures StableSortOf(SortByTime(s), s)
  {
    if s != [] {
      var p := s[..|s| - 1];
      var x := s[|s| - 1];
      SortByTimeIsStable(p);
      InsertKeepsSorted(SortByTime(p), x);
      forall t ensures TimeGroup(SortByTime(s), t) == TimeGroup(s, t) {
        InsertTimeGroup(SortByTime(p), x, t);
      }
    }
  }

  /** Every member of a time group is a line of the sequence with that time. */
  lemma {:induction false} TimeGroupMembers(s: seq<LyricLine>, t: real, x: LyricLine)
    requires x in TimeGroup(s, t)
    ensures x in s && x.time == t
  {
    var p := s[..|s| - 1];
    if x in TimeGroup(p, t) {
      TimeGroupMembers(p, t, x);
      assert s == p + [s[|s| - 1]];
    }
  }

  /** No line of a sorted sequence is later than its last one, so no later time has a group. */
  lemma {:induction false} LastLineBoundsTimes(s: seq<LyricLine>, t: real)
    requires Sorted(s) && s != [] && s[|s| - 1].time < t
    ensures TimeGroup(s, t) == []
  {
    var g := TimeGroup(s, t);
    if g != [] {
      TimeGroupMembers(s, t, g[0]);
    }
  }

  lemma NonEmptyHasGroup(s: seq<LyricLine>)
    requires s != []
    ensures TimeGroup(s, s[|s| - 1].time) != []
  {
  }

  /** Two sorted, non-empty sequences with the same time groups end in the same line,
      and what precedes it has the same time groups too. */
  lemma LastLinesAgree(a: seq<LyricLine>, x: LyricLine, b: seq<LyricLine>, y: LyricLine)
    requires Sorted(a + [x]) && Sorted(b + [y])
    requires forall t :: TimeGroup(a + [x], t) == TimeGroup(b + [y], t)
    ensures x == y
    ensures forall t :: TimeGroup(a, t) == TimeGroup(b, t)
  {
    if x.time < y.time {
      LastLineBoundsTimes(a + [x], y.time);
      GroupOfAppended(b, y, y.time);
      assert false;
    } else if y.time < x.time {
      LastLineBoundsTimes(b + [y], x.time);
      GroupOfAppended(a, x, x.time);
      assert false;
    }
    var ga, gb := TimeGroup(a, x.time), TimeGroup(b, x.time);
    assert ga + [x] == gb + [y] by {
      GroupOfAppended(a, x, x.time);
      GroupOfAppended(b, y, x.time);
      assert TimeGroup(a + [x], x.time) == TimeGroup(b + [y], x.time);
    }
    assert x == y by {
      assert (ga + [x])[|ga|] == x && (gb + [y])[|gb|] == y;
    }
    forall t ensures TimeGroup(a, t) == TimeGroup(b, t) {
      GroupOfAppended(a, x, t);
      GroupOfAppended(b, y, t);
      assert TimeGroup(a + [x], t) == TimeGroup(b + [y], t);
      if x.time == t {
        assert (ga + [x])[..|ga|] == ga && (gb + [y])[..|gb|] == gb;
      } else {
        assert TimeGroup(a, t) + [] == TimeGroup(a, t);
        assert TimeGroup(b, t) + [] == TimeGroup(b, t);
      }
    }
  }

  /** The stable-sort specification determines its result: two sorted sequences with
      the same time groups are equal. */
  lemma {:induction false} StableSortIsUnique(a: seq<LyricLine>, b: seq<LyricLine>)
    requires Sorted(a) && Sorted(b)
    requires forall t :: TimeGroup(a, t) == TimeGroup(b, t)
    ensures a == b
  {
    if a != [] && b != [] {
      var a', b' := a[..|a| - 1], b[..|b| - 1];
      assert a == a' + [a[|a| - 1]];
      assert b == b' + [b[|b| - 1]];
      LastLinesAgree(a', a[|a| - 1], b', b[|b| - 1]);
      StableSortIsUnique(a', b');
    } else if a != [] {
      NonEmptyHasGroup(a);
    } else if b != [] {
      NonEmptyHasGroup(b);
    }
  }

  /** Whatever stable sort produced `r` from `s`, `r` is `SortByTime(s)`. */
  lemma AnyStableSortIsSortByTime(r: seq<LyricLine>, s: seq<LyricLine>)
    requires StableSortOf(r, s)
    ensures r == SortByTime(s)
  {
    SortByTimeIsStable(s);
    StableSortIsUnique(r, SortByTime(s));
  }

  /** Sorting an already sorted sequence changes nothing; in particular sorting is idempotent. */
  lemma SortingSortedIsIdentity(s: seq<LyricLine>)
    requires Sorted(s)
    ensures SortByTime(s) == s
  {
    AnyStableSortIsSortByTime(s, s);
  }
}
