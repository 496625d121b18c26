# Insta-Gif-Downloader in Dafny

A model of the batch pipeline in `main.go`. The program reads a list of URLs
and some settings. For each URL it downloads a video with yt-dlp, converts it
to an animated GIF with ffmpeg, deletes the downloaded video, and reports the
size of the GIF. A failing item is skipped, and the batch moves on to the
next URL.

The model keeps the program's deterministic core and replaces the outside
world with parameters:

- `Pipeline.Config` is the already-loaded configuration record (`main.go:12-19`).
- `Env` is an oracle. It says whether the results directory can be created.
  For each item index it says whether yt-dlp succeeds, how ffmpeg turns out
  (failure, or success with or without writing the GIF) and whether deleting
  the intermediate video succeeds.
- The filesystem is the set of recorded paths. A path exists (`os.Stat`) if it
  is recorded or something recorded lies below it.
- A run produces the invocations started (tool and argument list), one outcome
  per item, and the final filesystem.

Modules:

- `Decimal` implements Go's `%d` on a non-negative index, with its exact inverse.
- `Paths` holds `filepath.Join` and the "inside a directory" relation.
- `Naming` builds `video_<i>.mp4` and `results/video_<i>.gif`.
- `Commands` builds the scale filter and the yt-dlp and ffmpeg argument lists.
  Each builder has a parser as its partner, which reads back a list of
  exactly that shape.
- `FileSystem` holds `RemoveAll`, `MkdirAll` and the results-directory reset.
- `Pipeline` holds the item step, the loop as a recursive fold over the URLs,
  the whole run, and the properties of the batch.

The program ignores the error from `os.RemoveAll` (`main.go:50`), so only a
failing `MkdirAll` aborts the batch; the model does the same.

## Model

| member | source | states |
|---|---|---|
| Decimal.Show | main.go:77-78 | `%d` of an index is non-empty, all digits, and has no leading zero unless the index is 0 |
| Decimal.ParseShow | main.go:77-78 | reading back a rendered index gives the index |
| Decimal.ShowParse | main.go:77-78 | every string the reader accepts is exactly the rendering of its value, so the reader is the exact inverse |
| Decimal.ShowInjective | main.go:77-78 | distinct indices render to distinct strings, and the converse |
| Paths.Join | main.go:78 | joining a non-empty name puts the path inside the directory, and the name is recoverable after the separator |
| Naming.VideoName | main.go:77 | the intermediate video name lies outside the results directory |
| Naming.GifName | main.go:78 | the GIF path lies inside the results directory |
| Naming.NamesParse | main.go:77-78 | both names give their index back |
| Naming.NamesDistinct | main.go:77-78 | two items share a video name or a GIF name iff they have the same index, and no video name is a GIF name |
| Commands.ScaleAxis | main.go:57-64 | an axis becomes `-1` exactly when it is `auto` or already `-1`, and any other value passes through unchanged |
| Commands.ScaleExpr | main.go:65 | the filter starts with `scale=` and has the length of the two mapped axes plus the separator |
| Commands.ScaleExprParses | main.go:57-65 | reading the filter back gives the two mapped axes, provided the width has no `:` |
| Commands.DownloadArgs | main.go:80 | the yt-dlp list has 9 entries and ends with the URL; the parser reads back exactly the browser, the output name and the URL |
| Commands.DownloadArgsComplete | main.go:80 | every list the yt-dlp parser accepts is the one the builder makes from what it read |
| Commands.Setting | main.go:91-96 | a setting is absent exactly when it is `auto` |
| Commands.TranscodeArgs | main.go:90-97 | the list starts with `-v warning -i V -vf S` and ends with the GIF path; its length is 7, 9 or 11; `-t D` comes right after the prefix iff the duration is not `auto`; `-r F` comes right before the GIF iff the rate is not `auto`; the parser reads back exactly these settings |
| Commands.TranscodeArgsComplete | main.go:90-97 | every ffmpeg list the parser accepts, with no literal `auto` setting, is the one the builder makes from what it read |
| FileSystem.RemoveAll | main.go:50 | afterwards the directory no longer exists, and every path outside it is unchanged |
| FileSystem.MkdirAll | main.go:45 | the directory is recorded, and nothing else changes |
| FileSystem.PrepareOutputDir | main.go:43-55 | the reset succeeds iff `MkdirAll` does; on success the directory exists and holds nothing, whatever it held before; on failure it does not exist; every path outside it is unchanged |
| FileSystem.PrepareIdempotent | main.go:43-55 | resetting an already reset directory changes nothing |
| Pipeline.ExpectedOutcome | main.go:83-124 | the reference outcome from an item's own oracle entry: saved iff fetch and transcode succeed and the GIF was written; the path is the item's GIF; a warning iff the deletion failed |
| Pipeline.RunItem | main.go:75-124 | one iteration downloads first, and transcodes only after a successful download, with the item's own names; it keeps the intermediate unless a successful transcode was followed by a successful deletion; no other path changes; when the item's GIF path does not exist beforehand, it reports the reference outcome (the size lookup is `os.Stat`, that is `Exists`) and the GIF is present afterwards iff saved |
| Pipeline.DeletionFailureOnlyWarns | main.go:107-109 | a failed deletion adds only a warning and leaves the intermediate behind; invocations, kind of outcome and path stay the same |
| Naming.NothingBelowGif | main.go:77-78 | no item's video or GIF path lies inside another item's GIF path, so creating one never makes another appear to exist |
| Pipeline.FreshAfterItem | main.go:77-78 | an item makes no GIF path of a later item exist |
| Pipeline.RunFrom | main.go:74-125 | the loop reports one outcome per URL; when no GIF path of these items exists beforehand (as after the reset), each is the reference outcome of that item's own oracle entry |
| Pipeline.RunFromFrame | main.go:74-125 | the loop changes no path other than the names of its items |
| Pipeline.RunFromGif | main.go:77-78 | when no GIF path of these items exists beforehand (as after the reset), after the loop an item's GIF is present iff that item was reported saved |
| Pipeline.RunFromVideo | main.go:102-109 | after the loop an item's intermediate is present iff it was fetched (or was already there) and was not deleted after a successful transcode |
| Pipeline.ItemRequests | main.go:80-99 | one item starts one download, and then one transcode only if the download succeeded |
| Pipeline.RunFromTraceInOrder | main.go:74-105 | the loop's processes are the items' oracle-defined traces concatenated in input order: item i's download, then its transcode if the download succeeded, all before item i+1's download |
| Pipeline.RunFromDownloads | main.go:74-86 | every URL is downloaded exactly once, in input order, with the configured browser and its own video name |
| Pipeline.RunFromTranscodes | main.go:83-99 | transcodes run exactly for the fetched items, in input order, with the shared filter and settings |
| Pipeline.RunBatch | main.go:38-125 | an empty URL list aborts and leaves the filesystem unchanged; a failing `MkdirAll` aborts with no results directory; otherwise one outcome per URL, each the reference outcome of that item |
| Pipeline.BatchResultsExactlySaved | main.go:43-125 | after a completed batch the results directory exists and holds exactly the GIFs reported as saved |
| Pipeline.BatchIntermediates | main.go:102-109 | after a completed batch an item's intermediate is kept exactly when it is not deleted after a successful transcode |
| Pipeline.BatchFrame | main.go:38-125 | a batch, completed or aborted, changes nothing outside the results directory except its own intermediates |
| Pipeline.BatchInvocations | main.go:74-105 | a completed batch downloads every URL in order, and transcodes exactly the fetched items in order with the filter derived once from the configuration |
| Pipeline.BatchTraceInOrder | main.go:74-105 | a completed batch's processes are exactly the item traces one after another, in input order, with the filter derived once from the configuration |
| Pipeline.ItemsIsolated | main.go:74-125 | an item's outcome depends only on its own oracle entry, not on other items or on the filesystem the batch started from |
| Pipeline.RerunPurgesEarlierResults | main.go:43-55 | after a second run the results directory holds only that run's saved GIFs |
| Pipeline.TwoUrlScenario | main.go:57-125 | the two-URL example (width 480, everything else `auto`, all tools succeeding) gives two downloads and two transcodes with `scale=480:-1` and no `-t`/`-r`, and leaves `video_0.gif` and `video_1.gif` in the results directory |

## Left out

- Reading and parsing `data.json` (`main.go:26-36`). The configuration arrives as a `Config` value.
- Choosing the tool executables by `runtime.GOOS` (`main.go:67-72`). An invocation names its tool abstractly.
- Spawning the processes and streaming their output (`main.go:80-83`, `main.go:99-102`). The oracle supplies their exit status.
- A failing tool is modelled as leaving no file behind. Partial downloads or partial GIFs are not modelled.
- `os.Getwd` (`main.go:111-115`) is assumed to succeed. The absolute path it builds names the same file as the relative GIF path.
- The size lookup reports a success iff the GIF exists. The float MB value and its `%.2f` formatting (`main.go:118-124`) are not modelled.
- Console wording, progress lines, the final message and the "Press Enter" prompt (`main.go:22-25`, `main.go:127`) are not modelled. Only the per-item outcome is kept.
- The error from `os.RemoveAll` (`main.go:50`) is ignored by the program; the model treats the removal as always succeeding.
- Paths.Join: uses `/` as the separator, as on Unix. Windows would write `results\video_0.gif`. The cleaning `filepath.Join` performs is not modelled (an empty or `.` directory would be dropped by Go); it changes nothing for `results` and these names.
- FileSystem.MkdirAll: models only a single-segment directory such as `results`. Parent creation is not needed for that path.
- Commands.ScaleExprParses: needs a width without `:`. ffmpeg would read a `:` in the width as the start of the next option.
- Commands.DownloadArgs: the URL is passed last without a `--` before it (`main.go:80`), so yt-dlp would read a URL that begins with `-` as an option; the model's parser takes the last entry as the URL whatever it begins with, and yt-dlp's option grammar is not modelled.
