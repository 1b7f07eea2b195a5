/** Which lyric line is active at a playback time.

    The component scans the lyric list from its last index down and shows the
    text of the first line whose time is not after the current time, or the
    placeholder "♪" when there is none. `ActiveIndex` is the index that scan
    stops at, defined without a loop; the loop itself is `App.CurrentLine`. */
module Sync {
  import opened Lyrics

  /** Shown when no line has started yet. */
  const Sentinel: string := "♪"

  /** The greatest index whose line starts at or before `t`, or -1 when there is none. */
  function ActiveIndex(lines: seq<LyricLine>, t: real): (k: int)
    ensures -1 <= k < |lines|
    ensures k >= 0 ==> lines[k].time <= t
    ensures forall j :: k < j < |lines| ==> lines[j].time > t
  {
    if lines == [] then -1
    else if lines[|lines| - 1].time <= t then |lines| - 1
    else ActiveIndex(lines[..|lines| - 1], t)
  }

  /** What the lyric card shows at time `t`. */
  function ActiveText(lines: seq<LyricLine>, t: real): (r: string)
    ensures (forall i :: 0 <= i < |lines| ==> lines[i].time > t) ==> r == Sentinel
    ensures forall i :: 0 <= i < |lines| && lines[i].time <= t && (forall j :: i < j < |lines| ==> lines[j].time > t)
                        ==> r == lines[i].text
  {
    var k := ActiveIndex(lines, t);
    if k < 0 then Sentinel else lines[k].text
  }

  /** The active index is the greatest index of a started line: every line that has
      started sits at or before it. */
  lemma ActiveIndexIsGreatest(lines: seq<LyricLine>, t: real, i: int)
    requires 0 <= i < |lines| && lines[i].time <= t
    ensures i <= ActiveIndex(lines, t)
  {
  }

  /** There is no active line exactly when every line starts after `t`
      (in particular for an empty list). */
  lemma NoActiveLineIff(lines: seq<LyricLine>, t: real)
    ensures ActiveIndex(lines, t) == -1 <==> forall i :: 0 <= i < |lines| ==> lines[i].time > t
  {
  }

  /** With no started line the card shows the placeholder; conversely the placeholder
      means no line has started, unless some lyric's own text is "♪". */
  lemma SentinelIff(lines: seq<LyricLine>, t: real)
    ensures (forall i :: 0 <= i < |lines| ==> lines[i].time > t) ==> ActiveText(lines, t) == Sentinel
    ensures (forall i :: 0 <= i < |lines| ==> lines[i].text != Sentinel)
            ==> (ActiveText(lines, t) == Sentinel <==> forall i :: 0 <= i < |lines| ==> lines[i].time > t)
  {
  }

  /** Among lines with equal times that have started, the later one in the list wins. */
  lemma TieGoesToLastLine(lines: seq<LyricLine>, t: real, i: int, j: int)
    requires 0 <= i < j < |lines|
    requires lines[i].time == lines[j].time <= t
    ensures ActiveIndex(lines, t) != i
  {
  }

  /** As the playback time grows, the active index never moves backwards; this needs
      no sortedness. */
  lemma ActiveIndexMonotone(lines: seq<LyricLine>, t1: real, t2: real)
    requires t1 <= t2
    ensures ActiveIndex(lines, t1) <= ActiveIndex(lines, t2)
  {
  }

  /** On a sorted list the active line is one with the latest start time not after `t`,
      which is how the lyric set's lookup is meant to read. */
  lemma SortedActiveLineIsLatest(lines: seq<LyricLine>, t: real)
    requires Sorted(lines)
    ensures var k := ActiveIndex(lines, t);
            k >= 0 ==> forall j :: 0 <= j < |lines| && lines[j].time <= t ==> lines[j].time <= lines[k].time
  {
  }

  /** On a sorted list, a time before the first line shows the placeholder. */
  lemma BeforeFirstLine(lines: seq<LyricLine>, t: real)
    requires Sorted(lines) && lines != [] && t < lines[0].time
    ensures ActiveIndex(lines, t) == -1
    ensures ActiveText(lines, t) == Sentinel
  {
  }

  /** The lines `(2, "A")` and `(5, "B")` followed through playback. */
  lemma TwoLinePlayback()
    ensures var lines := [LyricLine(2.0, "A"), LyricLine(5.0, "B")];
            && ActiveText(lines, 0.0) == Sentinel
            && ActiveText(lines, 2.0) == "A"
            && ActiveText(lines, 4.9) == "A"
            && ActiveText(lines, 5.0) == "B"
            && ActiveText(lines, 100.0) == "B"
  {
  }
}
