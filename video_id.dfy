/** `extractVideoId` (utils.js:3-7): the regular expression
      (?:v=|youtu\.be\/)([^&?]+)
    applied with `String.prototype.match`: the leftmost position where a
    marker is followed by at least one character other than `&` and `?`,
    and there the longest run of such characters. */
module VideoId {
  import opened Common

  const WatchMarker: string := "v="
  const ShortMarker: string := "youtu.be/"

  /** The characters `[^&?]` excludes. */
  predicate IsSeparator(c: char) {
    c == '&' || c == '?'
  }

  predicate NoSeparator(w: string) {
    forall k | 0 <= k < |w| :: !IsSeparator(w[k])
  }

  /** The text m occurs in url at position i. */
  predicate OccursAt(url: string, i: nat, m: string) {
    i + |m| <= |url| && forall k | 0 <= k < |m| :: url[i + k] == m[k]
  }

  /** The length of the marker at position i: the alternatives are tried in
      order, and they cannot both occur at one position. 0 when neither
      occurs. */
  function MarkerLength(url: string, i: nat): (n: nat)
    ensures n == 0 || n == |WatchMarker| || n == |ShortMarker|
    ensures n == |WatchMarker| <==> OccursAt(url, i, WatchMarker)
    ensures n == |ShortMarker| <==> OccursAt(url, i, ShortMarker)
  {
    assert OccursAt(url, i, WatchMarker) ==> url[i] == WatchMarker[0] == 'v';
    assert OccursAt(url, i, ShortMarker) ==> url[i] == ShortMarker[0] == 'y';
    if OccursAt(url, i, WatchMarker) then |WatchMarker|
    else if OccursAt(url, i, ShortMarker) then |ShortMarker|
    else 0
  }

  /** The pattern matches at i: a marker, then at least one character of
      the id. */
  predicate QualifiesAt(url: string, i: nat) {
    var m := MarkerLength(url, i);
    m > 0 && i + m < |url| && !IsSeparator(url[i + m])
  }

  /** The length of the longest run of non-separators at position i. */
  function RunLength(url: string, i: nat): (n: nat)
    requires i <= |url|
    ensures i + n <= |url|
    ensures forall k | i <= k < i + n :: !IsSeparator(url[k])
    ensures i + n == |url| || IsSeparator(url[i + n])
    decreases |url| - i
  {
    if i < |url| && !IsSeparator(url[i]) then 1 + RunLength(url, i + 1) else 0
  }

  /** The first position from i on where the pattern matches. */
  function Search(url: string, i: nat): (r: Option<nat>)
    requires i <= |url|
    ensures r.Some? ==> i <= r.value < |url| && QualifiesAt(url, r.value)
    ensures r.Some? ==> forall k | i <= k < r.value :: !QualifiesAt(url, k)
    ensures r.None? ==> forall k | i <= k <= |url| :: !QualifiesAt(url, k)
    decreases |url| - i
  {
    if QualifiesAt(url, i) then Some(i)
    else if i == |url| then None
    else Search(url, i + 1)
  }

  /** The id was found at position j: j is the leftmost position where the
      pattern matches, and id is the whole run of non-separators after the
      marker. */
  predicate FoundAt(url: string, j: nat, id: string) {
    0 < |id| && NoSeparator(id) && QualifiesAt(url, j) &&
    (forall k | 0 <= k < j :: !QualifiesAt(url, k)) &&
    var s := j + MarkerLength(url, j);
    s + |id| <= |url| && url[s..s + |id|] == id &&
    (s + |id| == |url| || IsSeparator(url[s + |id|]))
  }

  /** `match ? match[1] : null`. */
  function ExtractVideoId(url: string): (r: Option<string>)
    ensures r.None? ==> forall i | 0 <= i <= |url| :: !QualifiesAt(url, i)
    ensures (exists i | 0 <= i <= |url| :: QualifiesAt(url, i)) ==> r.Some?
    ensures r.Some? ==> 0 < |r.value| && NoSeparator(r.value)
    ensures r.Some? ==> exists j | 0 <= j < |url| :: FoundAt(url, j, r.value)
  {
    match Search(url, 0)
    case None => None
    case Some(j) =>
      var s := j + MarkerLength(url, j);
      var id := url[s..s + RunLength(url, s)];
      assert FoundAt(url, j, id);
      Some(id)
  }

  /** At most one id can be found in a url. */
  lemma FoundAtUnique(url: string, j1: nat, id1: string, j2: nat, id2: string)
    requires FoundAt(url, j1, id1) && FoundAt(url, j2, id2)
    ensures j1 == j2 && id1 == id2
  {
    assert j1 <= j2 && j2 <= j1;
    var s := j1 + MarkerLength(url, j1);
    FoundRunIsLongest(url, s, id1);
    FoundRunIsLongest(url, s, id2);
  }

  /** A maximal run of non-separators at s has length RunLength(url, s). */
  lemma {:induction false} MaximalRun(url: string, s: nat, n: nat)
    requires s + n <= |url|
    requires forall k | s <= k < s + n :: !IsSeparator(url[k])
    requires s + n == |url| || IsSeparator(url[s + n])
    ensures n == RunLength(url, s)
    decreases n
  {
    if n > 0 {
      MaximalRun(url, s + 1, n - 1);
    }
  }

  lemma FoundRunIsLongest(url: string, s: nat, id: string)
    requires s + |id| <= |url| && url[s..s + |id|] == id && NoSeparator(id)
    requires s + |id| == |url| || IsSeparator(url[s + |id|])
    ensures id == url[s..s + RunLength(url, s)]
  {
    forall k | s <= k < s + |id|
      ensures !IsSeparator(url[k])
    {
      assert url[k] == id[k - s];
    }
    MaximalRun(url, s, |id|);
  }

  /** Nothing before position n of url (a marker starting below n needs
      characters the prefix does not have) matters once a marker qualifies
      at n. */
  lemma {:induction false} LeadsTo(url: string, n: nat, id: string)
    requires 0 < |id| && NoSeparator(id) && QualifiesAt(url, n)
    requires forall k | 0 <= k < n :: !QualifiesAt(url, k)
    requires var s := n + MarkerLength(url, n);
      s + |id| <= |url| && url[s..s + |id|] == id &&
      (s + |id| == |url| || IsSeparator(url[s + |id|]))
    ensures ExtractVideoId(url) == Some(id)
  {
    var r := ExtractVideoId(url);
    assert FoundAt(url, n, id);
    var j :| 0 <= j < |url| && FoundAt(url, j, r.value);
    FoundAtUnique(url, j, r.value, n, id);
  }

  predicate EndsId(tail: string) {
    tail == [] || IsSeparator(tail[0])
  }

  /** The id comes back out of a watch url, whatever follows it after a
      separator. */
  lemma WatchUrlRoundTrip(id: string, tail: string)
    requires 0 < |id| && NoSeparator(id) && EndsId(tail)
    ensures ExtractVideoId("https://www.youtube.com/watch?v=" + id + tail) == Some(id)
  {
    var prefix := "https://www.youtube.com/watch?v=";
    var url := prefix + id + tail;
    assert |prefix| == 32;
    assert OccursAt(url, 30, WatchMarker);
    forall k | 0 <= k < 30
      ensures !QualifiesAt(url, k)
    {
      assert url[k] == prefix[k];
      assert !OccursAt(url, k, WatchMarker) by {
        assert url[k] != WatchMarker[0];
      }
      assert !OccursAt(url, k, ShortMarker) by {
        if k == 12 {
          assert url[17] == prefix[17] != ShortMarker[5];
        } else {
          assert url[k] != ShortMarker[0];
        }
      }
    }
    assert url[32..32 + |id|] == id;
    LeadsTo(url, 30, id);
  }

  /** The id comes back out of a short url. */
  lemma ShortUrlRoundTrip(id: string, tail: string)
    requires 0 < |id| && NoSeparator(id) && EndsId(tail)
    ensures ExtractVideoId("https://youtu.be/" + id + tail) == Some(id)
  {
    var prefix := "https://youtu.be/";
    var url := prefix + id + tail;
    assert |prefix| == 17;
    assert OccursAt(url, 8, ShortMarker);
    forall k | 0 <= k < 8
      ensures !QualifiesAt(url, k)
    {
      assert url[k] == prefix[k] != WatchMarker[0];
      assert url[k] != ShortMarker[0];
    }
    assert url[17..17 + |id|] == id;
    LeadsTo(url, 8, id);
  }

  /** A marker followed directly by a separator or by nothing does not
      count: "?v=&v=abc" yields "abc". */
  lemma EmptyRunSkipped()
    ensures ExtractVideoId("?v=&v=abc") == Some("abc")
  {
    var url := "?v=&v=abc";
    assert OccursAt(url, 4, WatchMarker);
    assert url[6..9] == "abc";
    assert forall k | 0 <= k < 4 :: k != 1 ==> url[k] != WatchMarker[0] && url[k] != ShortMarker[0];
    assert IsSeparator(url[3]) && !OccursAt(url, 1, ShortMarker);
    LeadsTo(url, 4, "abc");
  }

  /** A url with neither marker has no id. */
  lemma NoMarkerNoId(url: string)
    requires forall i | 0 <= i <= |url| :: MarkerLength(url, i) == 0
    ensures ExtractVideoId(url) == None
  {
  }
}
