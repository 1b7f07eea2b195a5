/** Turning the text of a chosen lyric file into the component's lyric list.

    The file's text goes through `JSON.parse`, the parsed value's `sort` method is
    called with the comparator `a.time - b.time`, and the sorted array becomes the
    new list. Either call may throw; the handler catches everything and keeps the
    old list. The JSON parser is not modelled: its outcome is the input here. */
module Ingestion {
  import opened Lyrics

  /** What `JSON.parse` made of the file's text, as far as the handler can tell apart. */
  datatype JsonOutcome =
    | Unparseable                              // `JSON.parse` threw a SyntaxError
    | NonArray                                 // an object, string, number, boolean or null: it has no callable `sort`
    | LineArray(lines: seq<LyricLine>)         // an array of `{time, text}` records

  /** The exception the handler catches. */
  datatype Thrown = SyntaxError | TypeError

  datatype Result<T> = Ok(value: T) | Err(error: Thrown)

  /** The lyric list a file yields, or the exception that aborts the load. */
  function Ingest(doc: JsonOutcome): (r: Result<seq<LyricLine>>)
    ensures r.Ok? <==> doc.LineArray?
    ensures doc.Unparseable? ==> r == Err(SyntaxError)
    ensures doc.NonArray? ==> r == Err(TypeError)
    ensures r.Ok? ==> StableSortOf(r.value, doc.lines)
  {
    match doc
    case Unparseable => Err(SyntaxError)
    case NonArray => Err(TypeError)
    case LineArray(lines) =>
      SortByTimeIsStable(lines);
      Ok(SortByTime(lines))
  }

  /** Loading a list that is already sorted (for instance one written back out after an
      earlier load) gives the very same list. */
  lemma ReloadIsIdentity(lines: seq<LyricLine>)
    requires Sorted(lines)
    ensures Ingest(LineArray(lines)) == Ok(lines)
  {
    SortingSortedIsIdentity(lines);
  }

  /** A file listing its lines out of order is loaded in time order. */
  lemma OutOfOrderFileIsSorted(a: LyricLine, b: LyricLine)
    requires a.time < b.time
    ensures Ingest(LineArray([b, a])) == Ok([a, b])
  {
    forall t ensures TimeGroup([a, b], t) == TimeGroup([b, a], t) {
      assert [a, b][..1] == [a] && [b, a][..1] == [b];
    }
    AnyStableSortIsSortByTime([a, b], [b, a]);
  }
}
