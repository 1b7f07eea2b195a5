/** The root component's state and the handlers that update it.

    The component keeps the chosen video, the lyric list, the lyric file's name,
    the playback position and a playing flag, and derives from them whether the
    player is ready, which line is shown and how wide the card is. Browser
    events arrive as method calls whose arguments are what the event carried:
    the media element's time, the chosen file's object URL or name, the outcome
    of parsing the lyric file. */
module Component {
  import opened Lyrics
  import opened Sync
  import opened Ingestion
  import opened CardSizer

  datatype Option<T> = None | Some(value: T)

  /** An object URL for the chosen video file; the component never looks inside it. */
  type MediaUrl = string

  class App {
    /** The canvas context used to measure text, fixed when the component is created. */
    const ctx: Canvas

    var videoUrl: Option<MediaUrl>
    var lyrics: seq<LyricLine>
    var jsonFileName: Option<string>
    var currentTime: real
    var isPlaying: bool

    /** The lyric list only ever comes out of a sort, and media time is never negative. */
    ghost predicate Valid()
      reads this
    {
      Sorted(lyrics) && currentTime >= 0.0
    }

    constructor (canvas: Canvas)
      ensures Valid()
      ensures ctx == canvas
      ensures videoUrl == None && lyrics == [] && jsonFileName == None
      ensures currentTime == 0.0 && !isPlaying
    {
      ctx := canvas;
      videoUrl := None;
      lyrics := [];
      jsonFileName := None;
      currentTime := 0.0;
      isPlaying := false;
    }

    /** Playback controls are shown once there is a video and at least one lyric line. */
    predicate IsReady()
      reads this
      ensures IsReady() ==> videoUrl != None && lyrics != []
      ensures videoUrl.Some? && |lyrics| >= 1 ==> IsReady()
    {
      videoUrl.Some? && |lyrics| > 0
    }

    /** The text on the lyric card: a scan from the last line down to the first one
        that has started. */
    method CurrentLine() returns (line: string)
      ensures line == ActiveText(lyrics, currentTime)
      ensures Valid() && ActiveIndex(lyrics, currentTime) >= 0 ==>
                var k := ActiveIndex(lyrics, currentTime);
                && line == lyrics[k].text
                && forall j :: 0 <= j < |lyrics| && lyrics[j].time <= currentTime ==> lyrics[j].time <= lyrics[k].time
    {
      if Sorted(lyrics) {
        SortedActiveLineIsLatest(lyrics, currentTime);
      }
      var time := currentTime;
      var lines := lyrics;
      var i := |lines| - 1;
      while i >= 0
        invariant -1 <= i < |lines|
        invariant forall j :: i < j < |lines| ==> lines[j].time > time
      {
        if lines[i].time <= time {
          assert i == ActiveIndex(lines, time);
          return lines[i].text;
        }
        i := i - 1;
      }
      assert ActiveIndex(lines, time) == -1;
      return Sentinel;
    }

    /** The width of the lyric card for the line now shown. */
    function CardWidth(): (w: int)
      reads this
      ensures ctx.NoContext? ==> w == FallbackWidth
      ensures ctx.Context? ==>
                var m := ctx.measure(Font, ActiveText(lyrics, currentTime));
                m + (PaddingPx + BufferPx) as real <= w as real < m + (PaddingPx + BufferPx + 1) as real
    {
      MeasureTextWidth(ctx, ActiveText(lyrics, currentTime))
    }

    /** The media element reports a new playback position. */
    method OnTimeUpdate(mediaTime: real)
      requires Valid() && mediaTime >= 0.0
      modifies this
      ensures Valid()
      ensures currentTime == mediaTime
      ensures lyrics == old(lyrics) && videoUrl == old(videoUrl)
      ensures jsonFileName == old(jsonFileName) && isPlaying == old(isPlaying)
    {
      currentTime := mediaTime;
    }

    /** The seek bar moved to `value`; without a video element nothing happens. */
    method Seek(hasVideoElement: bool, value: real)
      requires Valid() && value >= 0.0
      modifies this
      ensures Valid()
      ensures currentTime == if hasVideoElement then value else old(currentTime)
      ensures lyrics == old(lyrics) && videoUrl == old(videoUrl)
      ensures jsonFileName == old(jsonFileName) && isPlaying == old(isPlaying)
    {
      if hasVideoElement {
        currentTime := value;
      }
    }

    /** A video file was chosen (`file` is its object URL), or the picker closed empty. */
    method OnVideoSelected(file: Option<MediaUrl>)
      requires Valid()
      modifies this
      ensures Valid()
      ensures file.Some? ==> videoUrl == file && !isPlaying
      ensures file.None? ==> videoUrl == old(videoUrl) && isPlaying == old(isPlaying)
      ensures lyrics == old(lyrics) && jsonFileName == old(jsonFileName) && currentTime == old(currentTime)
      ensures IsReady() <==> (file.Some? || old(videoUrl).Some?) && |lyrics| > 0
    {
      if file.Some? {
        videoUrl := file;
        isPlaying := false;
      }
    }

    /** A lyric file was chosen: its name is recorded at once, before it is read. */
    method OnLyricsSelected(fileName: Option<string>)
      requires Valid()
      modifies this
      ensures Valid()
      ensures jsonFileName == if fileName.Some? then fileName else old(jsonFileName)
      ensures lyrics == old(lyrics) && videoUrl == old(videoUrl)
      ensures currentTime == old(currentTime) && isPlaying == old(isPlaying)
    {
      if fileName.Some? {
        jsonFileName := fileName;
      }
    }

    /** The chosen lyric file has been read and parsed. A usable array replaces the whole
        lyric list, sorted; anything else raises the "Invalid JSON" alert (`alerted`)
        and changes nothing. */
    method OnLyricsRead(doc: JsonOutcome) returns (alerted: bool)
      requires Valid()
      modifies this
      ensures Valid()
      ensures alerted <==> !doc.LineArray?
      ensures !alerted ==> lyrics == SortByTime(doc.lines) && StableSortOf(lyrics, doc.lines)
      ensures alerted ==> lyrics == old(lyrics)
      ensures videoUrl == old(videoUrl) && jsonFileName == old(jsonFileName)
      ensures currentTime == old(currentTime) && isPlaying == old(isPlaying)
      ensures IsReady() <==> if alerted then old(IsReady()) else videoUrl.Some? && |doc.lines| > 0
    {
      match Ingest(doc)
      case Ok(sorted) =>
        lyrics := sorted;
        alerted := false;
      case Err(_) =>
        alerted := true;
    }
  }

  /** A client of the component: the lyric file `[{time: 5, text: "B"}, {time: 2, text: "A"}]`
      is loaded in time order, and a broken file afterwards changes nothing. */
  method OutOfOrderFileScenario()
  {
    var app := new App(NoContext);
    var b, a := LyricLine(5.0, "B"), LyricLine(2.0, "A");
    var alerted := app.OnLyricsRead(LineArray([b, a]));
    OutOfOrderFileIsSorted(a, b);
    assert app.lyrics == [a, b];
    alerted := app.OnLyricsRead(Unparseable);
    assert alerted && app.lyrics == [a, b];
  }

  /** A client of the component: two lines share time 3; at time 3 the later one is shown. */
  method TiedLinesScenario()
  {
    var app := new App(NoContext);
    var first, second := LyricLine(3.0, "first"), LyricLine(3.0, "second");
    var alerted := app.OnLyricsRead(LineArray([first, second]));
    assert app.lyrics == [first, second] by {
      ReloadIsIdentity([first, second]);
    }
    app.OnTimeUpdate(3.0);
    var line := app.CurrentLine();
    assert line == "second";
  }
}
