# Lyric synchronisation core of FrostLine

FrostLine plays a locally chosen video and shows, on a card beneath it, the
lyric line that belongs to the current playback position. Its root component
(`src/app/app.ts`) holds the whole logic: it loads a JSON file of
`{time, text}` lines and sorts it by time, finds the active line for the
playback time, sizes the card to the rendered width of that line, formats
times as `m:ss`, and tells whether the player is ready.

The project models that component in Dafny:

- `Lyrics` (lyrics.dfy): a lyric line, what "sorted by time" means, and the
  stable sort the component gets from `Array.prototype.sort` with the
  comparator `a.time - b.time`. The sort is specified by `StableSortOf`
  (sorted, a permutation, and each group of equal-time lines in its input
  order). `SortByTime` is an insertion sort meeting it, and
  `StableSortIsUnique` proves that the specification has only one solution,
  so any stable sort the JavaScript engine uses gives the same list.
- `Sync` (sync.dfy): `ActiveIndex`, the greatest index whose line has
  started, and `ActiveText`, the text shown or the placeholder "♪"; the
  lookup's properties as lemmas.
- `Ingestion` (ingest.dfy): the outcome of `JSON.parse` as a datatype, and the
  load step from it to a sorted lyric list or the exception the handler
  catches.
- `CardSizer` (card.dfy): the card width, from a canvas context that may be
  missing and whose text measurement is a parameter.
- `TimeFormat` (timeformat.dfy): `formatTime`, with JavaScript's `%` and
  `${n}` written out, and the decimal numerals it prints.
- `Component` (component.dfy): the component as a class `App` with the
  fields `videoUrl`, `lyrics`, `jsonFileName`, `currentTime` and
  `isPlaying`; the handlers are methods that update them, `currentLine` is
  a method with the source's descending loop, and the derived values
  (`IsReady`, `CardWidth`) are functions of the fields. Two client methods
  follow lyric files through the component.

The component does no per-element shape check of the parsed array and does
not cap the card width; the model follows `src/app/app.ts` in both. For arrays
of well-formed lines, its only failures are `JSON.parse` throwing and a non-array value whose `sort` is not
callable, and both are caught alike.

A lyric whose own text is "♪" cannot be told apart from "no line yet" by
looking at the card; `Sync.SentinelIff` therefore states the converse
direction only for lyric lists without such a line, and
`Sync.NoActiveLineIff` states the exact condition on the index.

## Model

| member | source | states |
|---|---|---|
| `Lyrics.SortByTime` | src/app/app.ts:136 | the sorted list has the length and the multiset of lines of the parsed array |
| `Lyrics.SortByTimeIsStable` | src/app/app.ts:136 | the sort's output is sorted ascending by time, a permutation of its input, and keeps each equal-time group in input order |
| `Lyrics.StableSortIsUnique` | src/app/app.ts:136 | two sorted lists with the same equal-time groups are equal, so a stable sort by time has exactly one possible output |
| `Lyrics.AnyStableSortIsSortByTime` | src/app/app.ts:136 | whatever stable algorithm sorts the parsed array, its result is `SortByTime` of it |
| `Lyrics.SortingSortedIsIdentity` | src/app/app.ts:136 | sorting a list already sorted by time returns it unchanged, so sorting is idempotent |
| `Sync.ActiveIndex` | src/app/app.ts:53-60 | the index is -1 or a line that has started, and every later line starts after the playback time |
| `Sync.ActiveText` | src/app/app.ts:56-59 | the text of the last line that has started, with no later line started; "♪" when no line has started |
| `Sync.ActiveIndexIsGreatest` | src/app/app.ts:56-57 | every started line sits at or before the active index, which is the greatest such index |
| `Sync.NoActiveLineIff` | src/app/app.ts:56-59 | there is no active line exactly when every line starts after the playback time, including for an empty list |
| `Sync.SentinelIff` | src/app/app.ts:56-59 | with no started line "♪" is shown; when no lyric's text is "♪", "♪" is shown only then |
| `Sync.TieGoesToLastLine` | src/app/app.ts:56-57 | of two started lines with equal times the earlier one is never the active one |
| `Sync.ActiveIndexMonotone` | src/app/app.ts:56-57 | a later playback time never gives a smaller active index, sorted or not |
| `Sync.SortedActiveLineIsLatest` | src/app/app.ts:56-57 | on a sorted list the active line has the latest start time not after the playback time |
| `Sync.BeforeFirstLine` | src/app/app.ts:56-59 | on a sorted list a time before the first line shows "♪" |
| `Sync.TwoLinePlayback` | src/app/app.ts:53-60 | the lines (2, "A") and (5, "B") show "♪" at 0, "A" at 2 and 4.9, "B" at 5 and 100 |
| `Ingestion.Ingest` | src/app/app.ts:133-138 | a load succeeds exactly when the parsed value is an array; a syntax error and a non-array give the two caught exceptions; a success is a stable sort of the array |
| `Ingestion.ReloadIsIdentity` | src/app/app.ts:135-137 | loading a list that is already sorted gives that list back |
| `Ingestion.OutOfOrderFileIsSorted` | src/app/app.ts:135-137 | a two-line file listed latest first loads in time order |
| `CardSizer.Ceil` | src/app/app.ts:148 | `Math.ceil` gives an integer not below its argument and less than one above it |
| `CardSizer.MeasureTextWidth` | src/app/app.ts:144-149 | without a context the width is 600; with one it is at least the measured width plus 22 + 20 and less than that plus one |
| `CardSizer.WidthIsLeastFit` | src/app/app.ts:148 | no smaller whole width fits the measured text plus padding and buffer |
| `CardSizer.WidthCoversPadding` | src/app/app.ts:37-38 | a measured card is at least 42 pixels wide |
| `TimeFormat.Decimal` | src/app/app.ts:102 | a whole number prints as digits without a leading zero that denote it, one digit exactly below 10 |
| `TimeFormat.NumeralRoundTrip` | src/app/app.ts:102 | every numeral is the printed form of its value, so printing and reading numerals are inverse |
| `TimeFormat.ClockFields` | src/app/app.ts:100-101 | `Math.floor(x / 60)` and `Math.floor(x % 60)` are the whole seconds divided by 60 and their remainder |
| `TimeFormat.SecondsField` | src/app/app.ts:102 | the seconds field is two digits denoting the seconds, starting with '0' exactly below 10 |
| `TimeFormat.FormatTime` | src/app/app.ts:98-103 | 0 gives "0:00"; otherwise the text is the minutes numeral, ':', and two digits whose value is the seconds within the minute, '0'-padded exactly below 10 |
| `Component.App.constructor` | src/app/app.ts:41-48 | a new component has no video, no lyrics, no lyric file name, time 0 and is not playing |
| `Component.App.IsReady` | src/app/app.ts:51 | true exactly when a video is chosen and the lyric list is non-empty |
| `Component.App.CurrentLine` | src/app/app.ts:53-60 | the descending scan returns the active line's text, or "♪" when no line has started; on the component's sorted list that line has the latest start time not after the playback time |
| `Component.App.CardWidth` | src/app/app.ts:62 | the card width of the line now shown: 600 without a context, otherwise the least whole width fitting its measurement plus 42 |
| `Component.App.OnTimeUpdate` | src/app/app.ts:112-115 | the playback time becomes the media element's time and nothing else changes |
| `Component.App.Seek` | src/app/app.ts:89-96 | with a video element the playback time becomes the slider value, without one nothing changes |
| `Component.App.OnVideoSelected` | src/app/app.ts:117-125 | a chosen file becomes the video and stops playback; readiness then needs only lyrics; no file changes nothing |
| `Component.App.OnLyricsSelected` | src/app/app.ts:127-131 | a chosen file's name is recorded before it is read; nothing else changes |
| `Component.App.OnLyricsRead` | src/app/app.ts:133-138 | an array replaces the whole lyric list with its stable sort; anything else raises the alert and leaves every field as it was; the list stays sorted |

## Left out

- Angular decorators, signals, `computed` and the animation triggers: derived values are functions recomputed from the fields.
- `togglePlay`, `onMetadataLoaded` and the `duration` field, and `seek`'s write to the media element: media control, not lyric logic.
- `FileReader`, its asynchronous `onload`, `URL.createObjectURL`, `DomSanitizer`: browser I/O; the handlers take what they deliver (an object URL, a file name, the parse outcome) as arguments, and the read completes as a separate method call.
- `JSON.parse`: a library parser; its outcome is the input of `Ingestion.Ingest`.
- `alert('Invalid JSON')`: returned as the flag `alerted` of `Component.App.OnLyricsRead`.
- Array elements that are not `{time: number, text: string}` records (a comparator returning NaN, or a `null` element making the comparator throw): the parsed array is modelled as well-formed lines only.
- Canvas creation and `measureText`: the context is the datatype `CardSizer.Canvas`, and its measurement an arbitrary function of the font and the text; floating-point metrics are reals.
- `ngAfterViewInit` measures the current line and discards the result: it has no effect to model.
- Times are exact reals: IEEE-754 rounding, NaN and infinities are not modelled.
- TimeFormat.Decimal: prints every whole number as plain digits, where JavaScript's `${n}` switches to exponent notation from 10^21 on.
- TimeFormat.FormatTime: requires a non-negative time (the callers pass media positions), and prints all digits of the minutes where JavaScript would switch to exponent notation from 10^21 on.
