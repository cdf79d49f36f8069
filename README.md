# youtube-playlist-dl, modelled in Dafny

youtube-playlist-dl reads a list of YouTube playlist (or single-video) URLs for a dataset. It asks the YouTube Data API for each video's title and duration, and then decides, video by video, whether a download into `./data/<dataset>/audio/<playlist>/` is needed. A video is skipped when its file already exists with a duration within 2 seconds of the API's. This project models the data logic of that program and proves what it computes.

- `common.dfy` (`Common`): `Option`, `Result` and `Error`. A JavaScript exception becomes an `Err` value: a non-ok HTTP response, a `TypeError` from reading a property of `null`/`undefined`, or a rejected duration probe.
- `duration.dfy` (`Duration`): `durationToSeconds`.
  - The regular expression `P(\d+Y)?(\d+M)?(\d+W)?(\d+D)?T(\d+H)?(\d+M)?(\d+S)?` is modelled in two ways:
    - a hand-written backtracking scanner (`Scan`, `MatchFrom`);
    - independently, as the set of ways the pattern can fit a text (`Fits`), ordered as a backtracking engine tries them (`PreferredOrEqual`).
  - The lemmas prove that the scanner returns the leftmost fit, and among the fits there the one JavaScript reports.
  - The method `DurationToSeconds` is the loop over the `parts` table. It is proved equal to the sum of value × factor.
- `video_id.dfy` (`VideoId`): `extractVideoId`. The first position where `v=` or `youtu.be/` is followed by a character other than `&` and `?`, and there the longest run of such characters.
- `fetch.dfy` (`Fetch`): the three fetch functions of `utils.js`.
  - The network is replaced by given responses. A page request is answered by the next element of a sequence of pages.
  - `FetchPages` is the `do…while` loop, and `PageItemDetails` its inner `for` loop. Both are proved against the specification functions `PagesFrom` and `ItemsFrom`.
  - `Kept`/`KeptPages` are filter-and-tag reference definitions.
- `batch.dfy` (`Batch`): the top level of `main.js`:
  - `split('\n')`;
  - the gathering loop with its `try/catch`;
  - `/[^\w]+/g` sanitising;
  - file and directory names;
  - the skip/redownload/create decision;
  - the dispatch loop, over a `FileSystem` object whose directory set the loop grows.

  The method `PlanDownloads` is proved against `PlanOf`, and `PlanOf` against the reference definition `ExpectedJobs` and the set `DirsOf`.

Quirks of the code are kept, not fixed:
- Single-video records have three fields and a raw ISO 8601 duration. Their missing playlist name makes `playlistName.replace` throw at main.js:38, so the `?? 'singles'` fallback never applies.
- `downloadChildProcess` is not defined in utils.js, so dispatching only means "appended to the list of jobs".
- A duration the pattern cannot match (no `T`) makes `durationToSeconds` throw.
- A file that cannot be probed rejects the top-level loop, which then stops.

The model follows the code, not what one might expect:
- a failed probe ends the whole loop (`ProbeError`) rather than counting as a verification failure of one file;
- an unparsable duration throws rather than giving 0.

## Model

| member | source | states |
|---|---|---|
| Duration.DurationRegexWellFormed | utils.js:98 | the pattern has seven groups and no digit literal or designator; the two `M` groups are separated by the literal `T` |
| Duration.LeadingDigits | utils.js:98 | the length of the maximal digit run at the start of the text: all digits before it, a non-digit or the end after it |
| Duration.Scan | utils.js:98 | a successful scan yields one capture per group of the pattern |
| Duration.ScanSound | utils.js:98 | whatever the scanner returns is a way the pattern fits the text |
| Duration.ScanFindsPreferred | utils.js:98 | whenever the pattern fits, the scanner succeeds, and its captures come no later in backtracking order (longer capture first, capture before none) than any fit |
| Duration.Match | utils.js:98 | `duration.match(regex)`: a match starts inside the text, has seven captures, and they are what scanning from that start gives |
| Duration.MatchFrom | utils.js:98 | a match starts at or after i, inside the text, with seven captures |
| Duration.MatchFromComplete | utils.js:98 | if the pattern fits at j, a match is found at j or further left |
| Duration.MatchFromSound | utils.js:98 | the match found is a fit at its start, and preferred to every fit there |
| Duration.MatchNoneIff | utils.js:98 | `match` is null exactly when the pattern fits at no position |
| Duration.MatchLeftmostPreferred | utils.js:98 | the match is at the leftmost position where the pattern fits, with the fit a backtracking engine reports |
| Duration.DurationSeconds | utils.js:97-118 | succeeds exactly when `match` is not null, and the only exception is the TypeError of reading `match[part.pos]` on null |
| Duration.DurationToSeconds | utils.js:97-118 | the loop over `parts` returns the sum of value × factor of the present groups (`DurationSeconds`), absent groups adding 0; a null match throws |
| Duration.DecimalValue | utils.js:113 | `parseInt` of a digit string: a string of zeros reads as 0 |
| Duration.DecimalLeadingZero | utils.js:113 | leading zeros are ignored: "05" reads as 5 |
| Duration.NatToDecimal | utils.js:113 | the decimal digits of n: non-empty and all digits |
| Duration.DecimalRoundTrip | utils.js:113 | `parseInt` of the decimal digits of n gives n |
| Duration.Captured | utils.js:98 | one capture per written component |
| Duration.ScanFormat | utils.js:98 | scanning a duration written from given components recovers exactly the digits written, for every choice of present components |
| Duration.DurationOfFormat | utils.js:98-117 | a duration written from its seven components parses to Y×31536000 + M×2592000 + W×604800 + D×86400 + H×3600 + M×60 + S, absent components counting 0 |
| Duration.MinuteAfterTime | utils.js:98-117 | "PT1M" gives 60: an `M` after the `T` is minutes |
| Duration.MonthBeforeTime | utils.js:98-117 | "P1MT" gives 2592000: an `M` before the `T` is a 30-day month |
| Duration.FitsHasLiterals | utils.js:98 | any fit of the pattern contains every literal of the pattern |
| Duration.NoTimeDesignatorIsError | utils.js:98-112 | a text without `T` has no match, so the function throws |
| Duration.DateWithoutTime | utils.js:98-112 | "PnD" (such as "P0D") throws |
| VideoId.MarkerLength | utils.js:4 | the alternation `v=` then `youtu.be/`: the length of the marker at i, in both directions, 0 when neither occurs |
| VideoId.RunLength | utils.js:4 | `[^&?]+` is greedy: the run holds no separator and ends at a separator or the end |
| VideoId.Search | utils.js:5 | the first qualifying position from i on, with none qualifying before it; None when none qualifies |
| VideoId.ExtractVideoId | utils.js:3-7 | null exactly when no marker is followed by a non-separator; otherwise a non-empty id without `&`/`?`, found at the leftmost qualifying marker as the whole run after it |
| VideoId.FoundAtUnique | utils.js:3-7 | at most one position and id satisfy that description, so it determines the result |
| VideoId.LeadsTo | utils.js:3-7 | a maximal run after the first qualifying marker is the result |
| VideoId.WatchUrlRoundTrip | utils.js:3-7 | `https://www.youtube.com/watch?v=<id>`, then nothing or text starting with `&` or `?`, gives back any non-empty id without separators |
| VideoId.ShortUrlRoundTrip | utils.js:3-7 | `https://youtu.be/<id>`, then nothing or text starting with `&` or `?`, gives back any non-empty id without separators |
| VideoId.EmptyRunSkipped | utils.js:4-5 | "?v=&v=abc" gives "abc": a marker followed by a separator does not qualify |
| VideoId.NoMarkerNoId | utils.js:6 | a url in which neither marker occurs gives null |
| Fetch.FetchPlaylistName | utils.js:20-31 | a non-ok response throws with its status; an empty item list throws a TypeError; otherwise the first item's title |
| Fetch.FetchVideoDetails | utils.js:33-53 | succeeds exactly when the response is ok; then one record `[videoId, title, raw duration]` without a playlist name, or none when no item came back |
| Fetch.ItemDetail | utils.js:73-90 | a kept item's record carries its video id, its title, the playlist name, and as duration exactly the seconds `durationToSeconds` gives for the first duration of its details, which exists and parses |
| Fetch.FirstStop | utils.js:92 | the first page from k on whose token is empty or whose request fails |
| Fetch.PageItemDetails | utils.js:72-91 | the inner loop computes `ItemsFrom`: items in order, the first exception ending the page |
| Fetch.FetchPages | utils.js:58-92 | the loop computes `PagesFrom`; the first request has the empty token, each later one the previous page's non-empty token, at least one page and never past the first stop; without an exception exactly the pages up to the first stop are requested |
| Fetch.FetchPlaylistItemDetails | utils.js:55-95 | `PlaylistDetails`: an invalid URL or a failed name lookup throws before any page is requested; otherwise the pages' result |
| Fetch.ItemsFromKept | utils.js:72-91 | a page throws exactly when one of its items fails; otherwise its records are the kept items in order, those with no details dropped |
| Fetch.ItemsFromFirstError | utils.js:79-85 | the first failing item decides the exception |
| Fetch.PagesFromKept | utils.js:62-92 | without an exception, the result is the kept records of the pages up to the first stop, in page order, then item order |
| Fetch.PagesFromFails | utils.js:65-67 | the loop throws exactly when one of the pages it requests fails; no partial result is returned |
| Fetch.KeptTagged | utils.js:86 | every kept record carries the playlist name, an id and a duration in seconds |
| Fetch.KeptPagesTagged | utils.js:86 | over several pages: every kept record carries the playlist name, an id and a duration in seconds |
| Fetch.PlaylistRecordsTagged | utils.js:60-86 | every record of a playlist carries the one name fetched before the loop, an id, and a duration in seconds rather than ISO text |
| Batch.SplitLines | main.js:19 | `split` gives at least one piece |
| Batch.SplitLinesPieces | main.js:19 | no piece holds a newline, and there is one piece more than newlines |
| Batch.JoinSplit | main.js:19 | joining the pieces with `'\n'` gives back the text |
| Batch.SplitLineFirst | main.js:19 | splitting a newline-free line, then a newline and more text, gives the line, then the split of the rest |
| Batch.SplitJoin | main.js:19 | splitting the join of newline-free pieces gives back the pieces |
| Batch.Outcomes | main.js:24-28 | one outcome per URL, in URL order, each the fetch for that URL in the chosen mode |
| Batch.GatherMetadata | main.js:23-33 | the loop computes the concatenation of the successful fetches, in URL order |
| Batch.GatheredAppend | main.js:23-33 | gathering two runs of URLs is gathering each, in order |
| Batch.FailureContributesNothing | main.js:30-32 | a URL that throws adds nothing, and the URLs after it are still gathered |
| Batch.SuccessContributesRecords | main.js:29 | a successful URL adds all its records, between those before and after it |
| Batch.GatheredGroupsAre | main.js:29 | concatenation keeps a property shared by every record |
| Batch.GatheredGroups | main.js:26-29 | all gathered records carry a playlist name in playlist mode, none in single-video mode |
| Batch.Sanitize | main.js:37-38 | `replace(/[^\w]+/g, '')`: the result holds only word characters and is no longer than the input |
| Batch.NonWordRun | main.js:37 | the maximal run of non-word characters at the start |
| Batch.SanitizeIsWordChars | main.js:37-38 | replacing each run of `[^\w]+` by nothing removes exactly the non-word characters |
| Batch.WordCharsOnly | main.js:37-38 | the filter keeps only word characters; it leaves s unchanged exactly when s is all word characters, and gives "" exactly when s has none |
| Batch.SanitizeWordOnly | main.js:37-38 | the sanitised text holds only `[A-Za-z0-9_]`, is no longer than the input, equals it exactly when it is all word characters, and is empty exactly when it has none |
| Batch.SanitizeAppend | main.js:37-38 | survivors keep their order: sanitising a concatenation concatenates the sanitised parts |
| Batch.SanitizeIdempotent | main.js:37-38 | sanitising twice is sanitising once |
| Batch.SanitizeJoinsWords | main.js:37-38 | words separated by runs of other characters are joined with nothing between them |
| Batch.FileNameLayout | main.js:40 | `fn` is the name, `_`, the id and `.mp3`, in that order and nothing else |
| Batch.OutputDirLayout | main.js:41 | `outputPath` is `./data/`, the dataset, `/audio/`, the group and a closing `/`, and nothing else |
| Batch.OutputDirInjective | main.js:41 | different groups get different directories |
| Batch.EmptyGroupDirectory | main.js:38-41 | a group of only non-word characters sanitises to "" and lands in `./data/<dataset>/audio//` |
| Batch.WithinTolerance | main.js:49 | `Math.abs(measured - duration) <= 2` holds exactly when the measured duration lies in [duration − 2, duration + 2]; a duration still in ISO text is never within tolerance (NaN) |
| Batch.ToleranceBoundary | main.js:49 | a difference of 2 seconds is within tolerance, 3 is not, in either direction |
| Batch.Decide | main.js:43-55 | create/dispatch exactly when the directory does not exist; skip exactly when directory and file exist and the probed duration is within 2 seconds; dispatch without a check exactly when the directory exists and the file does not; a probe rejection exactly when the file cannot be probed |
| Batch.FileSystem.MakeDirectory | main.js:44 | the path is added to the directories; the files do not change |
| Batch.StepBounds | main.js:36-56 | one turn: nothing changes after a throw; a throw keeps jobs and directories; otherwise the record has a group, at most its own job is appended and at most its own directory is created |
| Batch.PlanDownloads | main.js:35-57 | the loop's jobs, directory set and exception are `PlanOf` of the records; no file changes |
| Batch.CrashPersists | main.js:38-47 | once the loop has thrown, later records change nothing |
| Batch.StepMatches | main.js:36-57 | one turn of the loop keeps the plan equal to the reference, or throws exactly when the record crashes |
| Batch.PlanReference | main.js:35-57 | the loop runs to the end exactly when no record crashes it; then the jobs are exactly the non-skipped records, one each, in input order, and the directory set is exactly the initial one plus the groups' directories that do not exist as files (`existsSync` is true for a file, so such a path is never created) |
| Batch.SinglesNeverDispatch | main.js:36-38 | single-video records throw at main.js:38 and dispatch nothing, the `?? 'singles'` fallback never applying |
| Batch.PlaylistScenario | main.js:43-56 | in an existing directory where only the second record's file exists, with the right duration, the first and third records are dispatched and the second skipped |
| Batch.FreshDirectoryScenario | main.js:43-45 | a missing directory is created by the first record, and the later records of the group see it as existing: their decision is dispatch or redownload, never create |
| Batch.RunBatch | main.js:19-57 | the whole run: the split URL list, the gathered records and the plan of the records, with no file changed |

## Left out

- HTTP requests, JSON decoding and the API key are not modelled. Each request is answered by a given response holding the fields the code reads.
- `extractPlaylistId` (utils.js:9-18) delegates to WHATWG URL parsing. It is a boolean input: whether `new URL` accepts the URL. The playlist id itself only enters request URLs.
- FetchPages: requires that some page ends the loop. A server that returns next-page tokens forever would make the source loop forever, and that case is not modelled.
- Duration.Captures: a capture keeps only its digits, not the designator. `parseInt` of "12Y" reads the same number.
- Duration.DurationSeconds: JavaScript number precision is not modelled. `parseInt` of very long digit strings and very large totals are exact naturals here.
- Worked duration examples: "P1DT2H3M4S" giving 93784 is covered only by the general `DurationOfFormat`. The literal case is too costly for the verifier.
- `getVideoDurationInSeconds` is an input: each existing file comes with what probing it gives. The probe's asynchrony is not modelled.
- `fs.readFileSync` is not modelled. The file's text is the input of `RunBatch`.
- Batch.FileSystem.MakeDirectory: adds only the full path, not the parent directories that `mkdirSync(…, { recursive: true })` also creates. The program can query a parent: a group that sanitises to "" gives `./data/<dataset>/audio//`, which Node reads as the parent `audio/` of every group directory. After another group's directory was created, Node then answers "exists" (dispatch) where the model answers "missing" (create and dispatch) and adds that path. The job lists agree, because a directory created during the run holds no files.
- Batch.FileSystem.MakeDirectory: never fails. `mkdirSync` can throw, for example EACCES, or ENOTDIR when a prefix of the path is a regular file, and that exception is not modelled.
- Paths are plain strings. There is no normalisation of `//` or of `.`, so `existsSync` on `audio//` is not identified with `audio/`.
- `downloadChildProcess`, the retry orchestrator and `Promise.all` (main.js:56-65) are not modelled. The function is not defined in utils.js, and dispatching is recorded as a job appended to the list. The ESM import would fail at load time, and that is not modelled either.
- downloader.js is not part of this model. It holds the download library, ffmpeg, event callbacks and process exit codes.
- Logging is not modelled: `console.log`, `console.warn` and `console.error`.
- Argument and environment parsing (main.js:6-18) is not modelled. The dataset, the mode and `maxRetries` are parameters.
- Batch.WithinTolerance: `Math.abs` on floating point is modelled over `real`. An ISO text duration compares false, as NaN does.
