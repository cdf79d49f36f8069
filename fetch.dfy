/** The fetch functions of utils.js (20-95) over abstract responses: each
    request is answered by a given `Response` whose body holds the fields of
    the decoded JSON that the code reads. */
module Fetch {
  import opened Common
  import Duration
  import VideoId

  /** An HTTP response: `ok`, `status`, `statusText` and the decoded body. */
  datatype Response<T> = Response(ok: bool, status: int, statusText: string, body: T)

  const PlaylistContext: string := "Error fetching playlist data from YouTube API"
  const VideoContext: string := "Error fetching video details from YouTube API"

  /** The third field of a record: seconds in playlist mode, the raw ISO 8601
      text in single-video mode. */
  datatype DurationField = Seconds(seconds: nat) | Iso(text: string)

  /** A metadata record `[id, name, duration, playlistName]`; single-video
      records have three fields, so their group is absent. */
  datatype Detail = Detail(id: Option<string>, name: string, duration: DurationField, group: Option<string>)

  function HttpFailure<T>(context: string, resp: Response<T>): Error {
    HttpError(context, resp.status, resp.statusText)
  }

  // ---------------------------------------------------------------------
  // fetchPlaylistName (utils.js:20-31)

  /** The body lists the titles of the playlists found (`items[].snippet.title`). */
  function FetchPlaylistName(resp: Response<seq<string>>): (r: Result<string>)
    ensures !resp.ok ==> r == Err(HttpFailure(PlaylistContext, resp))
    ensures resp.ok && resp.body == [] ==> r.Err? && r.error.TypeError?
    ensures r.Ok? <==> resp.ok && resp.body != []
    ensures r.Ok? ==> r.value == resp.body[0]
  {
    if !resp.ok then Err(HttpFailure(PlaylistContext, resp))
    else if resp.body == [] then Err(TypeError("Cannot read properties of undefined (reading 'snippet')"))
    else Ok(resp.body[0])
  }

  // ---------------------------------------------------------------------
  // fetchVideoDetails (utils.js:33-53)

  /** An element of `items`: its `snippet.title` and `contentDetails.duration`. */
  datatype VideoItem = VideoItem(title: string, duration: string)

  function FetchVideoDetails(url: string, resp: Response<seq<VideoItem>>): (r: Result<seq<Detail>>)
    ensures r.Ok? <==> resp.ok
    ensures !resp.ok ==> r == Err(HttpFailure(VideoContext, resp))
    ensures r.Ok? ==> |r.value| == (if resp.body == [] then 0 else 1)
    ensures r.Ok? && resp.body != [] ==>
      r.value[0] == Detail(VideoId.ExtractVideoId(url), resp.body[0].title, Iso(resp.body[0].duration), None)
  {
    var videoId := VideoId.ExtractVideoId(url);
    if !resp.ok then Err(HttpFailure(VideoContext, resp))
    else if |resp.body| > 0 then Ok([Detail(videoId, resp.body[0].title, Iso(resp.body[0].duration), None)])
    else Ok([])
  }

  // ---------------------------------------------------------------------
  // fetchPlaylistItemDetails (utils.js:55-95)

  /** A playlist item: `contentDetails.videoId`, `snippet.title`, and the
      response its video lookup gets, whose body lists the durations found. */
  datatype PlaylistItem = PlaylistItem(videoId: string, title: string, details: Response<seq<string>>)

  /** A page of playlist items. An absent `nextPageToken` is written "":
      both end the loop. */
  datatype Page = Page(nextPageToken: string, items: seq<PlaylistItem>)

  /** The record an item yields, none when its lookup found no video, or the
      exception it raises. */
  function ItemDetail(name: string, item: PlaylistItem): (r: Result<Option<Detail>>)
    ensures r.Ok? && r.value.Some? ==>
      r.value.value.id == Some(item.videoId) && r.value.value.name == item.title &&
      r.value.value.group == Some(name) && r.value.value.duration.Seconds?
    ensures r.Ok? && r.value.Some? ==>
      item.details.body != [] && Duration.DurationSeconds(item.details.body[0]).Ok? &&
      r.value.value.duration == Seconds(Duration.DurationSeconds(item.details.body[0]).value)
  {
    var resp := item.details;
    if !resp.ok then Err(HttpFailure(VideoContext, resp))
    else if |resp.body| > 0 then
      var seconds :- Duration.DurationSeconds(resp.body[0]);
      Ok(Some(Detail(Some(item.videoId), item.title, Seconds(seconds), Some(name))))
    else Ok(None)
  }

  /** xs followed by the value of r, or the exception r holds. */
  function Prepend(xs: seq<Detail>, r: Result<seq<Detail>>): Result<seq<Detail>> {
    if r.Ok? then Ok(xs + r.value) else r
  }

  lemma PrependNothing(r: Result<seq<Detail>>)
    ensures Prepend([], r) == r
  {
    if r.Ok? {
      assert [] + r.value == r.value;
    }
  }

  lemma PrependAssociates(xs: seq<Detail>, ys: seq<Detail>, r: Result<seq<Detail>>)
    ensures Prepend(xs, Prepend(ys, r)) == Prepend(xs + ys, r)
  {
    if r.Ok? {
      assert xs + (ys + r.value) == (xs + ys) + r.value;
    }
  }

  function Tagged(d: Option<Detail>): seq<Detail> {
    if d.Some? then [d.value] else []
  }

  /** The items of one page from index i on, in order: the first exception
      ends everything. */
  function ItemsFrom(name: string, items: seq<PlaylistItem>, i: nat): Result<seq<Detail>>
    requires i <= |items|
    decreases |items| - i
  {
    if i == |items| then Ok([])
    else
      var d :- ItemDetail(name, items[i]);
      Prepend(Tagged(d), ItemsFrom(name, items, i + 1))
  }

  /** The loop stops after this page. */
  predicate PageStops(resp: Response<Page>) {
    !resp.ok || resp.body.nextPageToken == ""
  }

  /** Some page from k on ends the loop: the server's sequence of pages is
      finite. */
  predicate StopsFrom(pages: seq<Response<Page>>, k: nat) {
    exists j | k <= j < |pages| :: PageStops(pages[j])
  }

  /** The first page from k on that ends the loop. */
  function FirstStop(pages: seq<Response<Page>>, k: nat): (n: nat)
    requires StopsFrom(pages, k)
    ensures k <= n < |pages| && PageStops(pages[n])
    ensures forall j | k <= j < n :: !PageStops(pages[j])
    decreases |pages| - k
  {
    if PageStops(pages[k]) then k else FirstStop(pages, k + 1)
  }

  /** The k-th page request gets pages[k]. */
  function PagesFrom(name: string, pages: seq<Response<Page>>, k: nat): Result<seq<Detail>>
    requires StopsFrom(pages, k)
    decreases |pages| - k
  {
    var resp := pages[k];
    if !resp.ok then Err(HttpFailure(PlaylistContext, resp))
    else
      var here :- ItemsFrom(name, resp.body.items, 0);
      if resp.body.nextPageToken == "" then Ok(here)
      else Prepend(here, PagesFrom(name, pages, k + 1))
  }

  /** What `fetchPlaylistItemDetails` returns or throws. urlParses says
      whether `new URL(url)` in `extractPlaylistId` accepts the url; the
      playlist id itself only enters request urls. */
  function PlaylistDetails(urlParses: bool, nameResp: Response<seq<string>>,
                           pages: seq<Response<Page>>): Result<seq<Detail>>
    requires StopsFrom(pages, 0)
  {
    if !urlParses then Err(TypeError("Invalid URL"))
    else
      var name :- FetchPlaylistName(nameResp);
      PagesFrom(name, pages, 0)
  }

  /** The inner `for` loop over the items of one page (utils.js:72-91). */
  method PageItemDetails(name: string, items: seq<PlaylistItem>) returns (r: Result<seq<Detail>>)
    ensures r == ItemsFrom(name, items, 0)
  {
    var here: seq<Detail> := [];
    PrependNothing(ItemsFrom(name, items, 0));
    for i := 0 to |items|
      invariant ItemsFrom(name, items, 0) == Prepend(here, ItemsFrom(name, items, i))
    {
      var item := items[i];
      var details := item.details;
      if !details.ok {
        return Err(HttpFailure(VideoContext, details));
      }
      if |details.body| > 0 {
        var seconds := Duration.DurationToSeconds(details.body[0]);
        if seconds.Err? {
          return Err(seconds.error);
        }
        var record := Detail(Some(item.videoId), item.title, Seconds(seconds.value), Some(name));
        assert ItemDetail(name, item) == Ok(Some(record));
        assert ItemsFrom(name, items, i) == Prepend([record], ItemsFrom(name, items, i + 1));
        PrependAssociates(here, [record], ItemsFrom(name, items, i + 1));
        here := here + [record];
      } else {
        assert ItemDetail(name, item) == Ok(None);
        assert ItemsFrom(name, items, i) == Prepend([], ItemsFrom(name, items, i + 1));
        PrependAssociates(here, [], ItemsFrom(name, items, i + 1));
        assert here + [] == here;
      }
    }
    assert here + [] == here;
    return Ok(here);
  }

  /** One unfolding of PagesFrom at page k, case by case. */
  lemma PagesFromAt(name: string, pages: seq<Response<Page>>, k: nat)
    requires StopsFrom(pages, k)
    ensures !pages[k].ok ==> PagesFrom(name, pages, k) == Err(HttpFailure(PlaylistContext, pages[k]))
    ensures pages[k].ok && ItemsFrom(name, pages[k].body.items, 0).Err? ==>
      PagesFrom(name, pages, k) == ItemsFrom(name, pages[k].body.items, 0)
    ensures pages[k].ok && ItemsFrom(name, pages[k].body.items, 0).Ok? && pages[k].body.nextPageToken == "" ==>
      PagesFrom(name, pages, k) == ItemsFrom(name, pages[k].body.items, 0) && FirstStop(pages, k) == k
    ensures pages[k].ok && pages[k].body.nextPageToken != "" ==>
      StopsFrom(pages, k + 1) && FirstStop(pages, k) == FirstStop(pages, k + 1)
    ensures pages[k].ok && ItemsFrom(name, pages[k].body.items, 0).Ok? && pages[k].body.nextPageToken != "" ==>
      StopsFrom(pages, k + 1) &&
      PagesFrom(name, pages, k) == Prepend(ItemsFrom(name, pages[k].body.items, 0).value, PagesFrom(name, pages, k + 1))
  {
    if pages[k].ok && pages[k].body.nextPageToken != "" {
      assert !PageStops(pages[k]);
    }
  }

  /** The do...while loop (utils.js:62-92): one request per page, the first
      with an empty token; `tokens` are the page tokens of the requests
      made, so the loop stops exactly at the first page without a next
      token, unless an exception ends it earlier. */
  method FetchPages(name: string, pages: seq<Response<Page>>) returns (r: Result<seq<Detail>>, tokens: seq<string>)
    requires StopsFrom(pages, 0)
    ensures r == PagesFrom(name, pages, 0)
    ensures 1 <= |tokens| <= FirstStop(pages, 0) + 1 && tokens[0] == ""
    ensures forall i | 1 <= i < |tokens| :: tokens[i] == pages[i - 1].body.nextPageToken != ""
    ensures r.Ok? ==> |tokens| == FirstStop(pages, 0) + 1
  {
    var result: seq<Detail> := [];
    PrependNothing(PagesFrom(name, pages, 0));
    var nextPageToken := "";
    var k := 0;
    tokens := [];
    while true
      invariant k < |pages| && StopsFrom(pages, k) && FirstStop(pages, 0) == FirstStop(pages, k)
      invariant |tokens| == k && (k == 0 <==> nextPageToken == "")
      invariant k > 0 ==> nextPageToken == pages[k - 1].body.nextPageToken && tokens[0] == ""
      invariant forall i | 1 <= i < k :: tokens[i] == pages[i - 1].body.nextPageToken != ""
      invariant PagesFrom(name, pages, 0) == Prepend(result, PagesFrom(name, pages, k))
      decreases |pages| - k
    {
      tokens := tokens + [nextPageToken];
      PagesFromAt(name, pages, k);
      var resp := pages[k];
      if !resp.ok {
        return Err(HttpFailure(PlaylistContext, resp)), tokens;
      }
      nextPageToken := resp.body.nextPageToken;
      var pageResult := PageItemDetails(name, resp.body.items);
      if pageResult.Err? {
        return Err(pageResult.error), tokens;
      }
      var here := pageResult.value;
      if nextPageToken == "" {
        return Ok(result + here), tokens;
      }
      PrependAssociates(result, here, PagesFrom(name, pages, k + 1));
      result := result + here;
      k := k + 1;
    }
  }

  /** `fetchPlaylistItemDetails`: the playlist id, the name, then the
      pages; no page is requested when an earlier step throws. */
  method FetchPlaylistItemDetails(urlParses: bool, nameResp: Response<seq<string>>,
                                  pages: seq<Response<Page>>)
    returns (r: Result<seq<Detail>>, tokens: seq<string>)
    requires StopsFrom(pages, 0)
    ensures r == PlaylistDetails(urlParses, nameResp, pages)
    ensures tokens == [] <==> !urlParses || FetchPlaylistName(nameResp).Err?
    ensures tokens != [] ==> tokens[0] == "" && |tokens| <= FirstStop(pages, 0) + 1
    ensures forall i | 1 <= i < |tokens| :: tokens[i] == pages[i - 1].body.nextPageToken != ""
    ensures r.Ok? ==> |tokens| == FirstStop(pages, 0) + 1
  {
    if !urlParses {
      return Err(TypeError("Invalid URL")), [];
    }
    var nameResult := FetchPlaylistName(nameResp);
    if nameResult.Err? {
      return Err(nameResult.error), [];
    }
    r, tokens := FetchPages(nameResult.value, pages);
  }

  // ---------------------------------------------------------------------
  // What the pagination computes

  /** An item that raises: a failed lookup, or a duration that does not
      parse. */
  predicate ItemFails(item: PlaylistItem) {
    !item.details.ok ||
    (item.details.body != [] && Duration.DurationSeconds(item.details.body[0]).Err?)
  }

  /** The records of the items that found their video, tagged with the
      playlist name, in item order. */
  function Kept(name: string, items: seq<PlaylistItem>): seq<Detail>
    decreases |items|
  {
    if items == [] then []
    else
      var item := items[0];
      var rest := Kept(name, items[1..]);
      if item.details.ok && item.details.body != [] && Duration.DurationSeconds(item.details.body[0]).Ok? then
        [Detail(Some(item.videoId), item.title, Seconds(Duration.DurationSeconds(item.details.body[0]).value), Some(name))] + rest
      else rest
  }

  /** A page raises exactly when one of its items does, and otherwise
      yields the kept items. */
  lemma {:induction false} ItemsFromKept(name: string, items: seq<PlaylistItem>, i: nat)
    requires i <= |items|
    ensures ItemsFrom(name, items, i).Ok? ==> ItemsFrom(name, items, i).value == Kept(name, items[i..])
    ensures ItemsFrom(name, items, i).Err? <==> exists j | i <= j < |items| :: ItemFails(items[j])
    decreases |items| - i
  {
    if i < |items| {
      ItemsFromKept(name, items, i + 1);
      assert items[i..][1..] == items[i + 1..];
      if !ItemFails(items[i]) {
        assert forall j | i <= j < |items| :: ItemFails(items[j]) ==> i + 1 <= j;
      }
    }
  }

  /** The first failing item decides the exception. */
  lemma {:induction false} ItemsFromFirstError(name: string, items: seq<PlaylistItem>, i: nat, j: nat)
    requires i <= j < |items| && ItemFails(items[j])
    requires forall k | i <= k < j :: !ItemFails(items[k])
    ensures ItemsFrom(name, items, i) == Err(ItemDetail(name, items[j]).error)
    decreases j - i
  {
    if i < j {
      ItemsFromFirstError(name, items, i + 1, j);
    }
  }

  /** A page that raises: a failed page request, or a failing item on it. */
  predicate PageFails(resp: Response<Page>) {
    !resp.ok || exists j | 0 <= j < |resp.body.items| :: ItemFails(resp.body.items[j])
  }

  /** The kept records of pages[k..n], in page order. */
  function KeptPages(name: string, pages: seq<Response<Page>>, k: nat, n: nat): seq<Detail>
    requires k <= n <= |pages|
    decreases n - k
  {
    if k == n then [] else Kept(name, pages[k].body.items) + KeptPages(name, pages, k + 1, n)
  }

  /** The pages requested from k are those up to the first one that ends
      the loop; with no exception, the result is their kept records in page
      order, then item order. */
  lemma {:induction false} PagesFromKept(name: string, pages: seq<Response<Page>>, k: nat)
    requires StopsFrom(pages, k)
    ensures PagesFrom(name, pages, k).Ok? ==>
      PagesFrom(name, pages, k).value == KeptPages(name, pages, k, FirstStop(pages, k) + 1)
    decreases |pages| - k
  {
    PagesFromAt(name, pages, k);
    var resp := pages[k];
    var items := resp.body.items;
    if resp.ok && ItemsFrom(name, items, 0).Ok? {
      ItemsFromKept(name, items, 0);
      assert items[0..] == items;
      var here := Kept(name, items);
      if resp.body.nextPageToken != "" {
        PagesFromKept(name, pages, k + 1);
        var n := FirstStop(pages, k + 1) + 1;
        assert KeptPages(name, pages, k, n) == here + KeptPages(name, pages, k + 1, n);
      } else {
        assert KeptPages(name, pages, k, k + 1) == here + KeptPages(name, pages, k + 1, k + 1);
      }
    }
  }

  /** The loop throws exactly when one of the pages it requests fails. */
  lemma {:induction false} PagesFromFails(name: string, pages: seq<Response<Page>>, k: nat)
    requires StopsFrom(pages, k)
    ensures PagesFrom(name, pages, k).Err? <==> exists j | k <= j <= FirstStop(pages, k) :: PageFails(pages[j])
    decreases |pages| - k
  {
    PagesFromAt(name, pages, k);
    var resp := pages[k];
    if resp.ok {
      ItemsFromKept(name, resp.body.items, 0);
      assert resp.body.items[0..] == resp.body.items;
      if resp.body.nextPageToken != "" && ItemsFrom(name, resp.body.items, 0).Ok? {
        PagesFromFails(name, pages, k + 1);
        assert !PageFails(pages[k]);
      }
    }
  }

  /** Every record of a playlist carries the one playlist name fetched
      before the loop, and the id of its item. */
  lemma {:induction false} KeptTagged(name: string, items: seq<PlaylistItem>)
    ensures forall d | d in Kept(name, items) :: d.group == Some(name) && d.id.Some? && d.duration.Seconds?
    decreases |items|
  {
    if items != [] {
      KeptTagged(name, items[1..]);
    }
  }

  lemma {:induction false} KeptPagesTagged(name: string, pages: seq<Response<Page>>, k: nat, n: nat)
    requires k <= n <= |pages|
    ensures forall d | d in KeptPages(name, pages, k, n) :: d.group == Some(name) && d.id.Some? && d.duration.Seconds?
    decreases n - k
  {
    if k < n {
      KeptTagged(name, pages[k].body.items);
      KeptPagesTagged(name, pages, k + 1, n);
    }
  }

  /** The playlist's records all carry the fetched playlist name. */
  lemma PlaylistRecordsTagged(urlParses: bool, nameResp: Response<seq<string>>, pages: seq<Response<Page>>)
    requires StopsFrom(pages, 0)
    ensures PlaylistDetails(urlParses, nameResp, pages).Ok? ==>
      forall d | d in PlaylistDetails(urlParses, nameResp, pages).value ::
        d.group == Some(FetchPlaylistName(nameResp).value) && d.id.Some? && d.duration.Seconds?
  {
    if PlaylistDetails(urlParses, nameResp, pages).Ok? {
      var name := FetchPlaylistName(nameResp).value;
      PagesFromKept(name, pages, 0);
      KeptPagesTagged(name, pages, 0, FirstStop(pages, 0) + 1);
    }
  }
}
