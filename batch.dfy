/** The top level of main.js (19-57): read the URL list, gather metadata
    URL by URL, then walk the records, deciding for each whether its file
    must be downloaded, against a file system that the walk changes by
    creating directories. */
module Batch {
  import opened Common
  import opened Fetch

  // ---------------------------------------------------------------------
  // The URL list: `text.split('\n')` (main.js:19)

  /** The pieces of text between newlines. */
  function SplitLines(text: string): (pieces: seq<string>)
    ensures |pieces| >= 1
    decreases |text|
  {
    if text == [] then [""]
    else
      var rest := SplitLines(text[1..]);
      if text[0] == '\n' then [""] + rest
      else [[text[0]] + rest[0]] + rest[1..]
  }

  /** `pieces.join('\n')`. */
  function JoinLines(pieces: seq<string>): string
    requires |pieces| >= 1
    decreases |pieces|
  {
    if |pieces| == 1 then pieces[0] else pieces[0] + "\n" + JoinLines(pieces[1..])
  }

  function NewlineCount(text: string): nat {
    multiset(text)['\n']
  }

  /** No piece holds a newline, and there is one piece more than there are
      newlines. */
  lemma {:induction false} SplitLinesPieces(text: string)
    ensures forall k | 0 <= k < |SplitLines(text)| :: '\n' !in SplitLines(text)[k]
    ensures |SplitLines(text)| == NewlineCount(text) + 1
    decreases |text|
  {
    if text != [] {
      SplitLinesPieces(text[1..]);
      assert text == [text[0]] + text[1..];
      assert multiset(text) == multiset([text[0]]) + multiset(text[1..]);
    }
  }

  /** Joining the pieces gives back the text. */
  lemma {:induction false} JoinSplit(text: string)
    ensures JoinLines(SplitLines(text)) == text
    decreases |text|
  {
    if text != [] {
      var rest := SplitLines(text[1..]);
      JoinSplit(text[1..]);
      if text[0] == '\n' {
        assert JoinLines([""] + rest) == "" + "\n" + JoinLines(rest);
      } else if |rest| == 1 {
        assert JoinLines([[text[0]] + rest[0]]) == [text[0]] + rest[0];
      } else {
        var pieces := [[text[0]] + rest[0]] + rest[1..];
        assert pieces[1..] == rest[1..];
        assert JoinLines(rest) == rest[0] + "\n" + JoinLines(rest[1..]);
      }
    }
  }

  /** Splitting text that starts with a newline-free line. */
  lemma {:induction false} SplitLineFirst(line: string, tail: string, more: bool)
    requires '\n' !in line
    ensures SplitLines(line + (if more then "\n" + tail else "")) ==
      if more then [line] + SplitLines(tail) else [line]
    decreases |line|
  {
    var text := line + (if more then "\n" + tail else "");
    if line != [] {
      assert text[1..] == line[1..] + (if more then "\n" + tail else "");
      SplitLineFirst(line[1..], tail, more);
      assert [line[0]] + line[1..] == line;
    } else if more {
      assert text[1..] == tail;
    }
  }

  /** Splitting the join of newline-free pieces gives back the pieces. */
  lemma {:induction false} SplitJoin(pieces: seq<string>)
    requires |pieces| >= 1 && forall k | 0 <= k < |pieces| :: '\n' !in pieces[k]
    ensures SplitLines(JoinLines(pieces)) == pieces
    decreases |pieces|
  {
    if |pieces| == 1 {
      SplitLineFirst(pieces[0], "", false);
      assert pieces[0] + "" == pieces[0];
    } else {
      SplitJoin(pieces[1..]);
      SplitLineFirst(pieces[0], JoinLines(pieces[1..]), true);
      assert JoinLines(pieces) == pieces[0] + ("\n" + JoinLines(pieces[1..]));
      assert [pieces[0]] + pieces[1..] == pieces;
    }
  }

  // ---------------------------------------------------------------------
  // Gathering metadata (main.js:23-33)

  /** What the network answers to the requests made for one URL, in either
      mode: whether `new URL` accepts it, the playlist name lookup, the pages
      of the playlist, and the single-video lookup. */
  datatype Source = Source(urlParses: bool, playlistName: Response<seq<string>>,
                           pages: seq<Response<Page>>, video: Response<seq<VideoItem>>)

  /** Every playlist's sequence of pages ends. */
  predicate Answerable(playlistMode: bool, sources: seq<Source>) {
    playlistMode ==> forall k | 0 <= k < |sources| :: StopsFrom(sources[k].pages, 0)
  }

  /** The records one URL yields, or what it throws. */
  function FetchUrl(playlistMode: bool, url: string, source: Source): Result<seq<Detail>>
    requires playlistMode ==> StopsFrom(source.pages, 0)
  {
    if playlistMode then PlaylistDetails(source.urlParses, source.playlistName, source.pages)
    else FetchVideoDetails(url, source.video)
  }

  /** What awaiting the fetch for each of the first n URLs gives. */
  function Outcomes(playlistMode: bool, urls: seq<string>, sources: seq<Source>, n: nat)
    : (outcomes: seq<Result<seq<Detail>>>)
    requires n <= |urls| == |sources| && Answerable(playlistMode, sources)
    ensures |outcomes| == n
    ensures forall k | 0 <= k < n :: outcomes[k] == FetchUrl(playlistMode, urls[k], sources[k])
  {
    if n == 0 then [] else Outcomes(playlistMode, urls, sources, n - 1) + [FetchUrl(playlistMode, urls[n - 1], sources[n - 1])]
  }

  function Succeeded(r: Result<seq<Detail>>): seq<Detail> {
    if r.Ok? then r.value else []
  }

  /** The values of the successful outcomes, concatenated in order. */
  function Gathered(outcomes: seq<Result<seq<Detail>>>): seq<Detail> {
    if outcomes == [] then []
    else Gathered(outcomes[..|outcomes| - 1]) + Succeeded(outcomes[|outcomes| - 1])
  }

  /** The loop with its try/catch: a URL that throws adds nothing, and the
      loop goes on. */
  method GatherMetadata(playlistMode: bool, urls: seq<string>, sources: seq<Source>)
    returns (videoDetails: seq<Detail>)
    requires |urls| == |sources| && Answerable(playlistMode, sources)
    ensures videoDetails == Gathered(Outcomes(playlistMode, urls, sources, |urls|))
  {
    videoDetails := [];
    for i := 0 to |urls|
      invariant videoDetails == Gathered(Outcomes(playlistMode, urls, sources, i))
    {
      var details: Result<seq<Detail>>;
      if playlistMode {
        var source := sources[i];
        assert StopsFrom(source.pages, 0);
        var tokens;
        details, tokens := FetchPlaylistItemDetails(source.urlParses, source.playlistName, source.pages);
      } else {
        details := FetchVideoDetails(urls[i], sources[i].video);
      }
      var before := Outcomes(playlistMode, urls, sources, i);
      assert Outcomes(playlistMode, urls, sources, i + 1)[..i] == before;
      if details.Ok? {
        videoDetails := videoDetails + details.value;
      } else {
        assert videoDetails + [] == videoDetails;
      }
    }
  }

  /** Gathering two runs of URLs is gathering each, in order. */
  lemma {:induction false} GatheredAppend(o1: seq<Result<seq<Detail>>>, o2: seq<Result<seq<Detail>>>)
    ensures Gathered(o1 + o2) == Gathered(o1) + Gathered(o2)
    decreases |o2|
  {
    if o2 == [] {
      assert o1 + o2 == o1;
    } else {
      var o := o1 + o2;
      assert o[..|o| - 1] == o1 + o2[..|o2| - 1];
      GatheredAppend(o1, o2[..|o2| - 1]);
    }
  }

  /** A URL whose fetch throws contributes nothing: dropping it changes
      nothing, and the URLs after it are still gathered. */
  lemma FailureContributesNothing(o1: seq<Result<seq<Detail>>>, e: Error, o2: seq<Result<seq<Detail>>>)
    ensures Gathered(o1 + [Err(e)] + o2) == Gathered(o1 + o2)
  {
    GatheredAppend(o1 + [Err(e)], o2);
    GatheredAppend(o1, o2);
    assert (o1 + [Err(e)])[..|o1|] == o1;
  }

  /** A successful URL contributes its records, between those of the URLs
      before and after it. */
  lemma SuccessContributesRecords(o1: seq<Result<seq<Detail>>>, records: seq<Detail>, o2: seq<Result<seq<Detail>>>)
    ensures Gathered(o1 + [Ok(records)] + o2) == Gathered(o1) + records + Gathered(o2)
  {
    GatheredAppend(o1 + [Ok(records)], o2);
    assert (o1 + [Ok(records)])[..|o1|] == o1;
  }

  predicate GroupsAre(records: seq<Detail>, grouped: bool) {
    forall k | 0 <= k < |records| :: records[k].group.Some? == grouped
  }

  lemma {:induction false} GatheredGroupsAre(outcomes: seq<Result<seq<Detail>>>, grouped: bool)
    requires forall k | 0 <= k < |outcomes| :: outcomes[k].Ok? ==> GroupsAre(outcomes[k].value, grouped)
    ensures GroupsAre(Gathered(outcomes), grouped)
    decreases |outcomes|
  {
    if outcomes != [] {
      var init := outcomes[..|outcomes| - 1];
      GatheredGroupsAre(init, grouped);
      var a, b := Gathered(init), Succeeded(outcomes[|outcomes| - 1]);
      assert forall k | |a| <= k < |a + b| :: (a + b)[k] == b[k - |a|];
    }
  }

  /** Single-video records have no group; playlist records all have one. */
  lemma GatheredGroups(playlistMode: bool, urls: seq<string>, sources: seq<Source>)
    requires |urls| == |sources| && Answerable(playlistMode, sources)
    ensures GroupsAre(Gathered(Outcomes(playlistMode, urls, sources, |urls|)), playlistMode)
  {
    var outcomes := Outcomes(playlistMode, urls, sources, |urls|);
    forall k | 0 <= k < |outcomes| && outcomes[k].Ok?
      ensures GroupsAre(outcomes[k].value, playlistMode)
    {
      var source := sources[k];
      if playlistMode {
        PlaylistRecordsTagged(source.urlParses, source.playlistName, source.pages);
        assert forall j | 0 <= j < |outcomes[k].value| :: outcomes[k].value[j] in outcomes[k].value;
      }
    }
    GatheredGroupsAre(outcomes, playlistMode);
  }

  // ---------------------------------------------------------------------
  // Names and paths (main.js:37-41)

  /** `\w`: ASCII letters, digits and underscore. */
  predicate IsWordChar(c: char) {
    'A' <= c <= 'Z' || 'a' <= c <= 'z' || '0' <= c <= '9' || c == '_'
  }

  /** The number of non-word characters at the start of s: what `[^\w]+`
      consumes once it matches there. */
  function NonWordRun(s: string): (n: nat)
    ensures n <= |s|
    ensures forall k | 0 <= k < n :: !IsWordChar(s[k])
    ensures n == |s| || IsWordChar(s[n])
  {
    if s != [] && !IsWordChar(s[0]) then 1 + NonWordRun(s[1..]) else 0
  }

  /** `s.replace(/[^\w]+/g, '')`: the text up to the next match is kept, each
      maximal run of non-word characters is replaced by nothing, and the
      search goes on after it. */
  function Sanitize(s: string): (r: string)
    ensures forall k | 0 <= k < |r| :: IsWordChar(r[k])
    ensures |r| <= |s|
    decreases |s|
  {
    if s == [] then []
    else if IsWordChar(s[0]) then [s[0]] + Sanitize(s[1..])
    else Sanitize(s[NonWordRun(s)..])
  }

  /** The word characters of s, in order. */
  function WordChars(s: string): string
    decreases |s|
  {
    if s == [] then []
    else (if IsWordChar(s[0]) then [s[0]] else []) + WordChars(s[1..])
  }

  lemma {:induction false} WordCharsOfNonWord(s: string, n: nat)
    requires n <= |s| && forall k | 0 <= k < n :: !IsWordChar(s[k])
    ensures WordChars(s) == WordChars(s[n..])
    decreases n
  {
    if n > 0 {
      WordCharsOfNonWord(s[1..], n - 1);
      assert s[1..][n - 1..] == s[n..];
    }
  }

  /** Removing runs is removing every non-word character. */
  lemma {:induction false} SanitizeIsWordChars(s: string)
    ensures Sanitize(s) == WordChars(s)
    decreases |s|
  {
    if s != [] {
      if IsWordChar(s[0]) {
        SanitizeIsWordChars(s[1..]);
      } else {
        var n := NonWordRun(s);
        SanitizeIsWordChars(s[n..]);
        WordCharsOfNonWord(s, n);
      }
    }
  }

  lemma {:induction false} WordCharsAppend(a: string, b: string)
    ensures WordChars(a + b) == WordChars(a) + WordChars(b)
    decreases |a|
  {
    if a != [] {
      assert (a + b)[1..] == a[1..] + b;
      WordCharsAppend(a[1..], b);
    } else {
      assert a + b == b;
    }
  }

  lemma {:induction false} WordCharsOnly(s: string)
    ensures forall k | 0 <= k < |WordChars(s)| :: IsWordChar(WordChars(s)[k])
    ensures WordChars(s) == s <==> forall k | 0 <= k < |s| :: IsWordChar(s[k])
    ensures WordChars(s) == [] <==> forall k | 0 <= k < |s| :: !IsWordChar(s[k])
    ensures |WordChars(s)| <= |s|
    decreases |s|
  {
    if s != [] {
      WordCharsOnly(s[1..]);
      if !IsWordChar(s[0]) {
        assert WordChars(s) != s;
      }
      assert forall k | 1 <= k < |s| :: s[k] == s[1..][k - 1];
    }
  }

  /** The result holds only word characters, is no longer than s, and both
      directions: it equals s exactly when s is all word characters, and is
      empty exactly when s has none. */
  lemma SanitizeWordOnly(s: string)
    ensures forall k | 0 <= k < |Sanitize(s)| :: IsWordChar(Sanitize(s)[k])
    ensures Sanitize(s) == s <==> forall k | 0 <= k < |s| :: IsWordChar(s[k])
    ensures Sanitize(s) == [] <==> forall k | 0 <= k < |s| :: !IsWordChar(s[k])
    ensures |Sanitize(s)| <= |s|
  {
    SanitizeIsWordChars(s);
    WordCharsOnly(s);
  }

  /** Survivors keep their order: sanitising a concatenation concatenates
      the sanitised parts. */
  lemma SanitizeAppend(a: string, b: string)
    ensures Sanitize(a + b) == Sanitize(a) + Sanitize(b)
  {
    SanitizeIsWordChars(a + b);
    SanitizeIsWordChars(a);
    SanitizeIsWordChars(b);
    WordCharsAppend(a, b);
  }

  lemma SanitizeIdempotent(s: string)
    ensures Sanitize(Sanitize(s)) == Sanitize(s)
  {
    SanitizeWordOnly(s);
    SanitizeWordOnly(Sanitize(s));
  }

  lemma {:induction false} WordCharsOfWord(w: string)
    requires forall k | 0 <= k < |w| :: IsWordChar(w[k])
    ensures WordChars(w) == w
    decreases |w|
  {
    if w != [] {
      WordCharsOfWord(w[1..]);
    }
  }

  /** A word run followed by a run of other characters keeps the word. */
  lemma WordThenGap(w: string, n: string)
    requires forall k | 0 <= k < |w| :: IsWordChar(w[k])
    requires forall k | 0 <= k < |n| :: !IsWordChar(n[k])
    ensures WordChars(w + n) == w
  {
    WordCharsAppend(w, n);
    WordCharsOfWord(w);
    WordCharsOfNonWord(n, |n|);
    assert n[|n|..] == [];
  }

  /** Word runs separated by runs of other characters are joined with
      nothing between them: "Song" ": " "Title" "! (" "Live" ")" gives
      "SongTitleLive". */
  lemma SanitizeJoinsWords(w1: string, n1: string, w2: string, n2: string, w3: string, n3: string)
    requires forall k | 0 <= k < |w1| :: IsWordChar(w1[k])
    requires forall k | 0 <= k < |w2| :: IsWordChar(w2[k])
    requires forall k | 0 <= k < |w3| :: IsWordChar(w3[k])
    requires forall k | 0 <= k < |n1| :: !IsWordChar(n1[k])
    requires forall k | 0 <= k < |n2| :: !IsWordChar(n2[k])
    requires forall k | 0 <= k < |n3| :: !IsWordChar(n3[k])
    ensures Sanitize(w1 + n1 + w2 + n2 + w3 + n3) == w1 + w2 + w3
  {
    var s := w1 + n1 + w2 + n2 + w3 + n3;
    WordThenGap(w1, n1);
    WordThenGap(w2, n2);
    WordThenGap(w3, n3);
    WordCharsJoin(w1, n1, w2, n2, w3, n3);
    SanitizeIsWordChars(s);
  }

  lemma WordCharsJoin(w1: string, n1: string, w2: string, n2: string, w3: string, n3: string)
    requires WordChars(w1 + n1) == w1 && WordChars(w2 + n2) == w2 && WordChars(w3 + n3) == w3
    ensures WordChars(w1 + n1 + w2 + n2 + w3 + n3) == w1 + w2 + w3
  {
    var a, b, c := w1 + n1, w2 + n2, w3 + n3;
    assert w1 + n1 + w2 + n2 + w3 + n3 == (a + b) + c;
    WordCharsAppend(a + b, c);
    WordCharsAppend(a, b);
  }

  /** `fn` of main.js:40; a null id prints as "null". */
  function FileName(name: string, id: string): string {
    name + "_" + id + ".mp3"
  }

  /** The file name is the name, an underscore, the id and the extension. */
  lemma FileNameLayout(name: string, id: string)
    ensures var fn := FileName(name, id);
      |fn| == |name| + |id| + 5 &&
      fn[..|name|] == name && fn[|name|] == '_' &&
      fn[|name| + 1..|name| + 1 + |id|] == id && fn[|fn| - 4..] == ".mp3"
  {
  }

  function IdText(id: Option<string>): string {
    if id.Some? then id.value else "null"
  }

  /** `outputPath` of main.js:41. */
  function OutputDir(dataset: string, group: string): string {
    "./data/" + dataset + "/audio/" + group + "/"
  }

  /** The directory is `./data/`, the dataset, `/audio/`, the group and a
      closing `/`. */
  lemma OutputDirLayout(dataset: string, group: string)
    ensures var dir := OutputDir(dataset, group);
      |dir| == |dataset| + |group| + 15 &&
      dir[..7] == "./data/" && dir[7..7 + |dataset|] == dataset &&
      dir[7 + |dataset|..14 + |dataset|] == "/audio/" &&
      dir[14 + |dataset|..|dir| - 1] == group && dir[|dir| - 1] == '/'
  {
  }

  /** Different groups of one dataset get different directories. */
  lemma OutputDirInjective(dataset: string, g1: string, g2: string)
    ensures OutputDir(dataset, g1) == OutputDir(dataset, g2) ==> g1 == g2
  {
    var a := "./data/" + dataset + "/audio/";
    assert OutputDir(dataset, g1) == a + g1 + "/" && OutputDir(dataset, g2) == a + g2 + "/";
    if OutputDir(dataset, g1) == OutputDir(dataset, g2) {
      assert |g1| == |g2|;
      assert g1 == (a + g1 + "/")[|a|..|a| + |g1|];
      assert g2 == (a + g2 + "/")[|a|..|a| + |g2|];
    }
  }

  /** A group without word characters lands directly in `audio/` with an
      empty path segment. */
  lemma EmptyGroupDirectory(dataset: string, group: string)
    requires forall k | 0 <= k < |group| :: !IsWordChar(group[k])
    ensures OutputDir(dataset, Sanitize(group)) == "./data/" + dataset + "/audio//"
  {
    SanitizeWordOnly(group);
    var a := "./data/" + dataset;
    assert a + "/audio/" + "" + "/" == a + "/audio//";
  }

  // ---------------------------------------------------------------------
  // Deciding and dispatching (main.js:35-57)

  /** What probing an existing path gives: a duration in seconds, or a
      rejection (the path is not readable media). */
  datatype Probe = Measured(seconds: real) | Unreadable

  /** `Math.abs(existingFileDuration - duration) <= 2`; a duration that is
      still ISO text makes the difference NaN, which compares false. */
  predicate WithinTolerance(measured: real, duration: DurationField)
    ensures WithinTolerance(measured, duration) <==>
      duration.Seconds? && duration.seconds as real - 2.0 <= measured <= duration.seconds as real + 2.0
  {
    duration.Seconds? &&
    (if measured >= duration.seconds as real then measured - duration.seconds as real
     else duration.seconds as real - measured) <= 2.0
  }

  lemma ToleranceBoundary(n: nat)
    ensures WithinTolerance(n as real + 2.0, Seconds(n)) && WithinTolerance(n as real - 2.0, Seconds(n))
    ensures !WithinTolerance(n as real + 3.0, Seconds(n)) && !WithinTolerance(n as real - 3.0, Seconds(n))
  {
  }

  function ProbeAt(files: map<string, Probe>, path: string): Probe {
    if path in files then files[path] else Unreadable
  }

  /** `existsSync`: a directory or a file. */
  predicate PathExists(dirs: set<string>, files: map<string, Probe>, path: string) {
    path in dirs || path in files
  }

  datatype Decision = CreateAndDispatch | Dispatch | Redownload | Skip | ProbeFails

  /** The branches of main.js:43-55. */
  function Decide(dirs: set<string>, files: map<string, Probe>, dir: string, fn: string,
                  duration: DurationField): (d: Decision)
    ensures d == CreateAndDispatch <==> !PathExists(dirs, files, dir)
    ensures d == Skip <==>
      (PathExists(dirs, files, dir) && PathExists(dirs, files, dir + fn) &&
       ProbeAt(files, dir + fn).Measured? && WithinTolerance(ProbeAt(files, dir + fn).seconds, duration))
    ensures d == Dispatch <==> PathExists(dirs, files, dir) && !PathExists(dirs, files, dir + fn)
    ensures d == ProbeFails <==>
      (PathExists(dirs, files, dir) && PathExists(dirs, files, dir + fn) &&
       ProbeAt(files, dir + fn).Unreadable?)
  {
    if !PathExists(dirs, files, dir) then CreateAndDispatch
    else if !PathExists(dirs, files, dir + fn) then Dispatch
    else match ProbeAt(files, dir + fn)
      case Unreadable => ProbeFails
      case Measured(seconds) => if WithinTolerance(seconds, duration) then Skip else Redownload
  }

  /** The arguments of `downloadChildProcess`. */
  datatype Job = Job(id: Option<string>, name: string, duration: DurationField,
                     outputPath: string, fileName: string, maxRetries: int)

  /** The planned downloads so far, the directories that exist, and the
      exception that ended the loop, if one did. */
  datatype Plan = Plan(jobs: seq<Job>, dirs: set<string>, crash: Option<Error>)

  const ReplaceOnUndefined: Error := TypeError("Cannot read properties of undefined (reading 'replace')")

  function DirOf(dataset: string, r: Detail): string
    requires r.group.Some?
  {
    OutputDir(dataset, Sanitize(r.group.value))
  }

  function JobOf(dataset: string, maxRetries: int, r: Detail): Job
    requires r.group.Some?
  {
    var name := Sanitize(r.name);
    Job(r.id, name, r.duration, DirOf(dataset, r), FileName(name, IdText(r.id)), maxRetries)
  }

  /** One turn of the loop. */
  function Step(dataset: string, maxRetries: int, files: map<string, Probe>, p: Plan, r: Detail): Plan {
    if p.crash.Some? then p
    else if r.group.None? then Plan(p.jobs, p.dirs, Some(ReplaceOnUndefined))
    else
      var job := JobOf(dataset, maxRetries, r);
      match Decide(p.dirs, files, job.outputPath, job.fileName, r.duration)
      case CreateAndDispatch => Plan(p.jobs + [job], p.dirs + {job.outputPath}, None)
      case Dispatch => Plan(p.jobs + [job], p.dirs, None)
      case Redownload => Plan(p.jobs + [job], p.dirs, None)
      case Skip => p
      case ProbeFails => Plan(p.jobs, p.dirs, Some(ProbeError(job.outputPath + job.fileName)))
  }

  /** One turn changes nothing once the loop has thrown; a throw keeps the
      jobs and directories; otherwise the record had a group, at most its
      own job is appended, and at most its own directory is created. */
  lemma StepBounds(dataset: string, maxRetries: int, files: map<string, Probe>, p: Plan, r: Detail)
    ensures var q := Step(dataset, maxRetries, files, p, r);
      (p.crash.Some? ==> q == p) &&
      (q.crash.Some? ==> q.jobs == p.jobs && q.dirs == p.dirs) &&
      (q.crash.None? ==> p.crash.None? && r.group.Some?) &&
      (q.crash.None? ==> q.jobs == p.jobs || q.jobs == p.jobs + [JobOf(dataset, maxRetries, r)]) &&
      (q.crash.None? ==> p.dirs <= q.dirs <= p.dirs + {DirOf(dataset, r)})
  {
  }

  /** The plan after the first n records. */
  function PlanOf(dataset: string, maxRetries: int, dirs0: set<string>, files: map<string, Probe>,
                  records: seq<Detail>, n: nat): Plan
    requires n <= |records|
  {
    if n == 0 then Plan([], dirs0, None)
    else Step(dataset, maxRetries, files, PlanOf(dataset, maxRetries, dirs0, files, records, n - 1), records[n - 1])
  }

  /** The file system: existing directories and files, each file with what
      probing it gives. */
  class FileSystem {
    var directories: set<string>
    var files: map<string, Probe>

    constructor (directories: set<string>, files: map<string, Probe>)
      ensures this.directories == directories && this.files == files
    {
      this.directories := directories;
      this.files := files;
    }

    predicate Exists(path: string)
      reads this
    {
      PathExists(directories, files, path)
    }

    /** `mkdirSync(path, { recursive: true })`; the parents already exist. */
    method MakeDirectory(path: string)
      modifies this
      ensures directories == old(directories) + {path} && files == old(files)
    {
      directories := directories + {path};
    }
  }

  /** The second loop of main.js: jobs dispatched in order, directories
      created, and the exception that ends the loop. */
  method PlanDownloads(fs: FileSystem, dataset: string, maxRetries: int, records: seq<Detail>)
    returns (jobs: seq<Job>, crash: Option<Error>)
    modifies fs
    ensures Plan(jobs, fs.directories, crash) ==
      PlanOf(dataset, maxRetries, old(fs.directories), old(fs.files), records, |records|)
    ensures fs.files == old(fs.files)
  {
    jobs := [];
    var i := 0;
    while i < |records|
      invariant i <= |records| && fs.files == old(fs.files)
      invariant PlanOf(dataset, maxRetries, old(fs.directories), fs.files, records, i) == Plan(jobs, fs.directories, None)
    {
      var r := records[i];
      if r.group.None? {
        CrashPersists(dataset, maxRetries, old(fs.directories), fs.files, records, i + 1, |records|);
        return jobs, Some(ReplaceOnUndefined);
      }
      var name := Sanitize(r.name);
      var playlistName := Sanitize(r.group.value);
      var fn := FileName(name, IdText(r.id));
      var outputPath := OutputDir(dataset, playlistName);
      var job := Job(r.id, name, r.duration, outputPath, fn, maxRetries);
      if !fs.Exists(outputPath) {
        fs.MakeDirectory(outputPath);
      } else if fs.Exists(outputPath + fn) {
        if outputPath + fn !in fs.files || fs.files[outputPath + fn].Unreadable? {
          CrashPersists(dataset, maxRetries, old(fs.directories), fs.files, records, i + 1, |records|);
          return jobs, Some(ProbeError(outputPath + fn));
        }
        var existingFileDuration := fs.files[outputPath + fn].seconds;
        if WithinTolerance(existingFileDuration, r.duration) {
          i := i + 1;
          continue;
        }
      }
      jobs := jobs + [job];
      i := i + 1;
    }
    return jobs, None;
  }

  /** Once the loop has thrown, later records change nothing. */
  lemma {:induction false} CrashPersists(dataset: string, maxRetries: int, dirs0: set<string>,
                                         files: map<string, Probe>, records: seq<Detail>, n: nat, m: nat)
    requires n <= m <= |records|
    ensures PlanOf(dataset, maxRetries, dirs0, files, records, n).crash.Some? ==>
      PlanOf(dataset, maxRetries, dirs0, files, records, m) == PlanOf(dataset, maxRetries, dirs0, files, records, n)
    decreases m - n
  {
    if n < m {
      CrashPersists(dataset, maxRetries, dirs0, files, records, n, m - 1);
    }
  }

  // ---------------------------------------------------------------------
  // The plan, stated without threading the directory set

  /** The directories of the first n records' groups. */
  function DirsOf(dataset: string, records: seq<Detail>, n: nat): set<string>
    requires n <= |records|
  {
    if n == 0 then {}
    else DirsOf(dataset, records, n - 1) +
         (if records[n - 1].group.Some? then {DirOf(dataset, records[n - 1])} else {})
  }

  /** Record k finds its directory: it existed at the start or an earlier
      record's group created it. */
  predicate DirectoryBefore(dataset: string, dirs0: set<string>, files: map<string, Probe>,
                            records: seq<Detail>, k: nat)
    requires k < |records| && records[k].group.Some?
  {
    PathExists(dirs0 + DirsOf(dataset, records, k), files, DirOf(dataset, records[k]))
  }

  /** Record k is skipped: its directory and file exist and the file's
      duration is within 2 seconds of the record's. */
  predicate SkippedAt(dataset: string, maxRetries: int, dirs0: set<string>, files: map<string, Probe>,
                      records: seq<Detail>, k: nat)
    requires k < |records| && records[k].group.Some?
  {
    var job := JobOf(dataset, maxRetries, records[k]);
    var all := dirs0 + DirsOf(dataset, records, k);
    DirectoryBefore(dataset, dirs0, files, records, k) &&
    PathExists(all, files, job.outputPath + job.fileName) &&
    ProbeAt(files, job.outputPath + job.fileName).Measured? &&
    WithinTolerance(ProbeAt(files, job.outputPath + job.fileName).seconds, records[k].duration)
  }

  /** Record k ends the loop: it has no group, or its file exists in an
      existing directory and cannot be probed. */
  predicate CrashesAt(dataset: string, maxRetries: int, dirs0: set<string>, files: map<string, Probe>,
                      records: seq<Detail>, k: nat)
    requires k < |records|
  {
    records[k].group.None? ||
    (var job := JobOf(dataset, maxRetries, records[k]);
     var all := dirs0 + DirsOf(dataset, records, k);
     DirectoryBefore(dataset, dirs0, files, records, k) &&
     PathExists(all, files, job.outputPath + job.fileName) &&
     ProbeAt(files, job.outputPath + job.fileName).Unreadable?)
  }

  /** The jobs of the first n records that are not skipped, in order. */
  function ExpectedJobs(dataset: string, maxRetries: int, dirs0: set<string>, files: map<string, Probe>,
                        records: seq<Detail>, n: nat): seq<Job>
    requires n <= |records| && forall k | 0 <= k < n :: records[k].group.Some?
  {
    if n == 0 then []
    else
      var job := if SkippedAt(dataset, maxRetries, dirs0, files, records, n - 1) then []
                 else [JobOf(dataset, maxRetries, records[n - 1])];
      ExpectedJobs(dataset, maxRetries, dirs0, files, records, n - 1) + job
  }

  /** The plan after n records agrees with the reference: no exception,
      every record so far has a group, the jobs are the expected ones, and
      the directory set is the initial one plus the groups' directories,
      except those already present as files (`existsSync` is true for them,
      so they are never created). */
  predicate Matches(dataset: string, maxRetries: int, dirs0: set<string>, files: map<string, Probe>,
                    records: seq<Detail>, n: nat, p: Plan)
    requires n <= |records|
  {
    p.crash.None? &&
    (forall k | 0 <= k < n :: records[k].group.Some?) &&
    p.dirs == dirs0 + (DirsOf(dataset, records, n) - files.Keys) &&
    p.jobs == ExpectedJobs(dataset, maxRetries, dirs0, files, records, n)
  }

  lemma StepMatches(dataset: string, maxRetries: int, dirs0: set<string>,
                    files: map<string, Probe>, records: seq<Detail>, n: nat)
    requires 0 < n <= |records|
    requires Matches(dataset, maxRetries, dirs0, files, records, n - 1,
                     PlanOf(dataset, maxRetries, dirs0, files, records, n - 1))
    ensures PlanOf(dataset, maxRetries, dirs0, files, records, n).crash.None? <==>
      !CrashesAt(dataset, maxRetries, dirs0, files, records, n - 1)
    ensures PlanOf(dataset, maxRetries, dirs0, files, records, n).crash.None? ==>
      Matches(dataset, maxRetries, dirs0, files, records, n, PlanOf(dataset, maxRetries, dirs0, files, records, n))
  {
    var p := PlanOf(dataset, maxRetries, dirs0, files, records, n - 1);
    var r := records[n - 1];
    if r.group.Some? {
      var all := dirs0 + DirsOf(dataset, records, n - 1);
      var job := JobOf(dataset, maxRetries, r);
      assert PathExists(p.dirs, files, job.outputPath) == PathExists(all, files, job.outputPath);
      var path := job.outputPath + job.fileName;
      assert PathExists(p.dirs, files, path) == PathExists(all, files, path);
    }
  }

  /** The loop runs to the end exactly when no record crashes it, and then
      the plan is the reference one. */
  lemma {:induction false} PlanReference(dataset: string, maxRetries: int, dirs0: set<string>,
                                         files: map<string, Probe>, records: seq<Detail>, n: nat)
    requires n <= |records|
    ensures PlanOf(dataset, maxRetries, dirs0, files, records, n).crash.None? <==>
      forall k | 0 <= k < n :: !CrashesAt(dataset, maxRetries, dirs0, files, records, k)
    ensures PlanOf(dataset, maxRetries, dirs0, files, records, n).crash.None? ==>
      Matches(dataset, maxRetries, dirs0, files, records, n, PlanOf(dataset, maxRetries, dirs0, files, records, n))
    decreases n
  {
    if n > 0 {
      PlanReference(dataset, maxRetries, dirs0, files, records, n - 1);
      var p := PlanOf(dataset, maxRetries, dirs0, files, records, n - 1);
      if p.crash.None? {
        StepMatches(dataset, maxRetries, dirs0, files, records, n);
      } else {
        assert exists k | 0 <= k < n - 1 :: CrashesAt(dataset, maxRetries, dirs0, files, records, k);
      }
    }
  }

  /** A record with no group throws at main.js:38; the `?? 'singles'`
      fallback never applies. So a non-empty list of single-video records
      dispatches nothing. */
  lemma SinglesNeverDispatch(dataset: string, maxRetries: int, dirs0: set<string>,
                             files: map<string, Probe>, records: seq<Detail>)
    requires |records| > 0 && forall k | 0 <= k < |records| :: records[k].group.None?
    ensures PlanOf(dataset, maxRetries, dirs0, files, records, |records|) == Plan([], dirs0, Some(ReplaceOnUndefined))
  {
    CrashPersists(dataset, maxRetries, dirs0, files, records, 1, |records|);
  }

  /** Three records of one playlist whose directory exists; only the
      second's file exists, with the right duration: the first and third
      are dispatched, the second skipped. */
  lemma PlaylistScenario(dataset: string, maxRetries: int, r1: Detail, r2: Detail, r3: Detail, measured: real)
    requires r1.group.Some? && r2.group == r1.group && r3.group == r1.group
    requires var j1, j2, j3 := JobOf(dataset, maxRetries, r1), JobOf(dataset, maxRetries, r2), JobOf(dataset, maxRetries, r3);
      j1.fileName != j2.fileName && j3.fileName != j2.fileName
    requires WithinTolerance(measured, r2.duration)
    ensures var dir := DirOf(dataset, r1);
      var files := map[dir + JobOf(dataset, maxRetries, r2).fileName := Measured(measured)];
      PlanOf(dataset, maxRetries, {dir}, files, [r1, r2, r3], 3) ==
        Plan([JobOf(dataset, maxRetries, r1), JobOf(dataset, maxRetries, r3)], {dir}, None)
  {
    var dir := DirOf(dataset, r1);
    var fn2 := JobOf(dataset, maxRetries, r2).fileName;
    var files := map[dir + fn2 := Measured(measured)];
    var records := [r1, r2, r3];
    var fn1 := JobOf(dataset, maxRetries, r1).fileName;
    var fn3 := JobOf(dataset, maxRetries, r3).fileName;
    assert dir + fn1 != dir + fn2 by {
      assert (dir + fn1)[|dir|..] == fn1 && (dir + fn2)[|dir|..] == fn2;
    }
    assert dir + fn3 != dir + fn2 by {
      assert (dir + fn3)[|dir|..] == fn3 && (dir + fn2)[|dir|..] == fn2;
    }
    assert dir + fn1 != dir && dir + fn3 != dir && dir + fn2 != dir;
    assert PlanOf(dataset, maxRetries, {dir}, files, records, 1) == Plan([JobOf(dataset, maxRetries, r1)], {dir}, None);
    assert PlanOf(dataset, maxRetries, {dir}, files, records, 2) == Plan([JobOf(dataset, maxRetries, r1)], {dir}, None);
  }

  /** When the directory does not exist yet, the first record creates it
      and no file is looked at: all three are dispatched. */
  lemma FreshDirectoryScenario(dataset: string, maxRetries: int, r1: Detail, r2: Detail, r3: Detail,
                               files: map<string, Probe>)
    requires r1.group.Some? && r2.group == r1.group && r3.group == r1.group
    requires var dir := DirOf(dataset, r1);
      dir !in files && forall path | path in files :: ProbeAt(files, path).Measured?
    requires forall path | path in files ::
      (!WithinTolerance(files[path].seconds, r2.duration) && !WithinTolerance(files[path].seconds, r3.duration))
    ensures PlanOf(dataset, maxRetries, {}, files, [r1, r2, r3], 3) ==
      Plan([JobOf(dataset, maxRetries, r1), JobOf(dataset, maxRetries, r2), JobOf(dataset, maxRetries, r3)],
           {DirOf(dataset, r1)}, None)
    ensures var d := Decide(PlanOf(dataset, maxRetries, {}, files, [r1, r2, r3], 1).dirs, files,
                            DirOf(dataset, r2), JobOf(dataset, maxRetries, r2).fileName, r2.duration);
      d == Dispatch || d == Redownload
    ensures var d := Decide(PlanOf(dataset, maxRetries, {}, files, [r1, r2, r3], 2).dirs, files,
                            DirOf(dataset, r3), JobOf(dataset, maxRetries, r3).fileName, r3.duration);
      d == Dispatch || d == Redownload
  {
    var dir := DirOf(dataset, r1);
    var records := [r1, r2, r3];
    var j1, j2, j3 := JobOf(dataset, maxRetries, r1), JobOf(dataset, maxRetries, r2), JobOf(dataset, maxRetries, r3);
    assert |j2.fileName| > 0 && |j3.fileName| > 0;
    assert dir + j2.fileName != dir && dir + j3.fileName != dir;
    assert PlanOf(dataset, maxRetries, {}, files, records, 1) == Plan([j1], {dir}, None);
    assert PlanOf(dataset, maxRetries, {}, files, records, 2) == Plan([j1, j2], {dir}, None);
  }

  // ---------------------------------------------------------------------
  // The whole run

  /** main.js:19-57 from the text of the URL file: `videoDetails` and the
      dispatch list. */
  method RunBatch(fs: FileSystem, dataset: string, playlistMode: bool, maxRetries: int,
                  text: string, sources: seq<Source>)
    returns (videoDetails: seq<Detail>, jobs: seq<Job>, crash: Option<Error>)
    requires |sources| == |SplitLines(text)| && Answerable(playlistMode, sources)
    modifies fs
    ensures videoDetails == Gathered(Outcomes(playlistMode, SplitLines(text), sources, |sources|))
    ensures Plan(jobs, fs.directories, crash) ==
      PlanOf(dataset, maxRetries, old(fs.directories), old(fs.files), videoDetails, |videoDetails|)
    ensures fs.files == old(fs.files)
  {
    var rawUrls := SplitLines(text);
    videoDetails := GatherMetadata(playlistMode, rawUrls, sources);
    jobs, crash := PlanDownloads(fs, dataset, maxRetries, videoDetails);
  }
}
